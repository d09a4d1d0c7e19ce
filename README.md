# CelUtils reactive values in Dafny

This project models the core of CelUtils, a Java library of pull-based
reactive values. Nothing in the library runs by itself. A caller invokes
`update()`, and only then does an observable compare its value with the one it
saw last and call its change listeners.

The model covers these parts. Each module is one file:

- `Observables` (`observables.dfy`): the null-safe `equals`, and
  `ObservableImpl` with its `lastValue`, its change and event listener lists,
  and the change-detection step of `update()`. A ghost log records every
  change-listener call.
- `Reconciliation` (`reconciliation.dfy`): the rules of a `Binding` as pure
  functions over a binding's state. The state is the root's and the guest's
  values plus the two shadows `rootOld`/`guestOld`. The functions cover the
  constructor's `sync()`, `update()`'s order-specific push and the shadow
  bookkeeping.
- `Properties` (`properties.dfy`):
  - one `Property` class for both internal and external properties;
  - the `Binding` class, whose methods are proved against the `Reconciliation`
    functions;
  - `bind`/`unbind`/`update` over the ordered binding list;
  - the factories with their fixed defaults;
  - the inverse view of a boolean property.
- `Bindings` (`bindings.dfy`): the derived read-only properties
  `BindingCondition` and `PropertyBinding`, and their factories.
- `Events` (`events.dfy`): `EventListener` with its fluent builders and the
  continuity-gated `execute`, plus the `Events` factories.
- `Collections` (`collections.dfy`): `ObservableList` over an `ArrayList`, and
  `ObservableMap`.
- `Scenarios` (`scenarios.dfy`): the library's property demo, replayed on the
  model.

Java `null` is `Option.None`. A thrown exception is an `Outcome`, or the
`Failure` of a `Result`, naming the exception's class and message. The result
of `a.equals(b)` on non-null values is value equality on the type parameter.

An external property's getter and setter are modelled as one outside
`Variable`: the getter reads it and a setter that assigns writes it. A setter
has one of three kinds:

- null, so `set` does nothing;
- assigning;
- the library's `readOnly()` setter, which throws `UnsupportedOperationException("set")`.

The change and event listeners are opaque identities. Listener callbacks are
not run; the ghost log records which calls `update()` makes.

An observable list or map hands its own backing container to the
observable twice: as the initial `lastValue`
(`celutils/celutils/collections/ObservableList.java:36`,
`celutils/celutils/collections/ObservableMap.java:33`) and as the value
`update()` reads (`ObservableList.java:325-327`, `ObservableMap.java:145-147`).
The comparison therefore always sees the same object, and no change listener of
a collection is ever called, whatever was added or removed.
`ObservableList.Update` and `ObservableMap.Update` state this.

## Model

| member | source | states |
|---|---|---|
| Sequences.FirstIndex | celutils/celutils/collections/ObservableList.java:284-287 | the index returned holds x, and x does not occur before it |
| Sequences.LastIndex | celutils/celutils/collections/ObservableList.java:292-295 | the index returned holds x, and x does not occur after it |
| Sequences.RemoveFirst | celutils/celutils/beans/observable/ObservableImpl.java:65-68 | an absent element leaves the list unchanged; otherwise the list is one shorter, the first occurrence is gone, and the elements before and after it keep their order |
| Sequences.Filter | celutils/celutils/beans/property/InternalProperty.java:88-91 | the result is no longer than the input, holds only kept elements of the input, holds every kept element, and equals the input when everything is kept |
| Sequences.FilterKeepsLength | celutils/celutils/collections/ObservableList.java:174-177 | filtering keeps the length if and only if every element is kept, so a removeIf-style call reports a change exactly when it removed something |
| Sequences.FilterConcat | celutils/celutils/beans/property/InternalProperty.java:90 | filtering a concatenation is the concatenation of the filtered parts, so the kept elements stay in their relative order |
| Observables.Equals | celutils/celutils/beans/observable/Observable.java:94-98 | two nulls are equal, null never equals a non-null, two non-nulls compare by value; overall, equality of the optional values |
| Observables.Notifications | celutils/celutils/beans/observable/ObservableImpl.java:111-112 | one call per listener, in list order, each with the same previous/current pair |
| Observables.ObservableImpl.constructor | celutils/celutils/beans/observable/ObservableImpl.java:48-52 | empty listener lists, lastValue is the initial value, no calls made |
| Observables.ObservableImpl.AddListener | celutils/celutils/beans/observable/ObservableImpl.java:57-60 | the listener is appended |
| Observables.ObservableImpl.RemoveListener | celutils/celutils/beans/observable/ObservableImpl.java:65-68 | the first matching listener is removed and the others are unchanged |
| Observables.ObservableImpl.AddEventListener | celutils/celutils/beans/observable/ObservableImpl.java:81-84 | the event listener is appended |
| Observables.ObservableImpl.RemoveEventListener | celutils/celutils/beans/observable/ObservableImpl.java:89-92 | the first matching event listener is removed |
| Observables.ObservableImpl.Update | celutils/celutils/beans/observable/ObservableImpl.java:105-117 | when the value read differs (null-safe) from lastValue, every change listener is called in order with (lastValue, value), otherwise none is; lastValue becomes the value either way; only lastValue and the call log change, so event listeners are neither read nor run |
| Reconciliation.Write | celutils/celutils/beans/property/ExternalProperty.java:71-75 | a storing setter takes the value, a null setter keeps the old one, the readOnly() setter throws UnsupportedOperationException("set") and keeps the old one |
| Reconciliation.PushOf | celutils/celutils/beans/property/Binding.java:105-130 | one-way orders never push; equal values never push; a pushed side changed since the last update; a bidirectional order pushes iff a side changed; a simultaneous change is won by the side the order favours |
| Reconciliation.Sync | celutils/celutils/beans/property/Binding.java:144-152 | equal values are left alone; DOMINANT orders keep the root and copy it into the guest, the others keep the guest and copy it into the root; it throws exactly when the values differ and the losing side's setter is readOnly(), and then nothing changes; a losing side with a null setter keeps its value without exception |
| Reconciliation.Update | celutils/celutils/beans/property/Binding.java:101-135 | storing setters end in agreement without exception; equal values write nothing and reset the shadows; an exception keeps the shadows; DOMINANT never changes the root, RECESSIVE never the guest; one-way orders remember the values read; bidirectional orders propagate the changed side and break a tie by the order; with no change on either side, the side without precedence takes the other's value; a one-way order whose losing side has a null setter writes nothing |
| Reconciliation.Construct | celutils/celutils/beans/property/Binding.java:50-59 | after sync() the shadows equal the values; storing setters agree; the winning side keeps its value and the losing side takes it when it can |
| Reconciliation.ConstructionStable | celutils/celutils/beans/property/Binding.java:101-135 | an update straight after a successful construction changes nothing |
| Reconciliation.SecondUpdateSettles | celutils/celutils/beans/property/Binding.java:101-135 | with storing setters, a second update with no outside change writes nothing and leaves every shadow at the shared value |
| Reconciliation.ShadowsNotReRead | celutils/celutils/beans/property/Binding.java:132-134 | the shadows are the values read before sync(): under RECESSIVE rootOld keeps the root's previous value while the root takes the guest's |
| Reconciliation.EqualityNeedsStoringSetters | celutils/celutils/beans/property/Binding.java:144-152 | under DOMINANT a guest with a null setter keeps a differing value, so agreement needs storing setters |
| Reconciliation.IgnoredPushUndoneLater | celutils/celutils/beans/property/Binding.java:106-115 | under BIDIRECTIONAL_DOMINANT, a root change pushed into a guest with a null setter is undone by the next update, because guestOld records the value pushed rather than the value the guest kept |
| Properties.WithoutGuest | celutils/celutils/beans/property/InternalProperty.java:88-91 | exactly the bindings whose guest is not that object remain (order and multiplicity are WithoutGuestSplits); a null guest or no match leaves the list unchanged |
| Properties.WithoutGuestSplits | celutils/celutils/beans/property/InternalProperty.java:90 | removing a guest from a concatenation removes it from each part, and a single binding stays exactly when its guest differs, so the remaining bindings keep their order and their multiplicity |
| Properties.Property.Effect | celutils/celutils/beans/property/ExternalProperty.java:71-75 | an internal property or an assigning setter stores, a null setter ignores, the readOnly() setter rejects, each in both directions |
| Properties.Property.OfValue | celutils/celutils/beans/property/InternalProperty.java:49-53 | get() returns the initial value, which is also lastValue, with no bindings and no listeners |
| Properties.Property.OfVariable | celutils/celutils/beans/property/ExternalProperty.java:53-58 | lastValue is what the getter returns at construction, with no bindings and no listeners |
| Properties.Property.Set | celutils/celutils/beans/property/InternalProperty.java:65-67 | the value afterwards and the outcome are those of Write for this property's setter kind (internal field, or ExternalProperty.java:71-75 for external ones); an external property's own field is untouched |
| Properties.Property.Bind | celutils/celutils/beans/property/InternalProperty.java:80-83 | a null order throws NullPointerException("order") and a null guest throws NullPointerException at its first read, both changing nothing; otherwise both properties end as Construct says and, unless sync() threw, exactly one fresh binding with this root, that guest and order, and seeded shadows is appended |
| Properties.Property.BindDefault | celutils/celutils/beans/property/Property.java:96-98 | the same as bind with RECESSIVE |
| Properties.Property.Unbind | celutils/celutils/beans/property/InternalProperty.java:88-91 | the binding list becomes WithoutGuest of the old one, comparing guests by reference |
| Properties.Property.Update | celutils/celutils/beans/property/InternalProperty.java:96-101 | the change detection runs first on the value read before any binding acts; then the bindings run in list order, each a Reconciliation.Update from the root value the previous one left, stopping at the first exception, which is the outcome; the root ends at the last run's value; the first run starts from the first binding's guest value and shadows as they were before the call, and when the bindings are separate every run starts from its own binding's guest side as it was before the call and leaves that binding's side as its step's result |
| Properties.Property.UpdateBinding | celutils/celutils/beans/property/InternalProperty.java:99-100 | one loop step: the run list grows by exactly one run, binding i's Reconciliation.Update on its snapshot just before it, from the root value the previous runs left; the root ends at that run's value, the chain, the normal outcomes so far and the tracking of guest sides carry over |
| Properties.Property.RunBinding | celutils/celutils/beans/property/InternalProperty.java:100 | binding i's update() completes Reconciliation.Update on its snapshot and the root takes the step's value; when the bindings are separate, no other binding's guest value or shadows change |
| Properties.Property.UpdateBindings | celutils/celutils/beans/property/InternalProperty.java:99-100 | the loop over the bindings keeps the list, makes one run per binding in order, and returns the first exception or normally after all of them; the runs' guest sides are tracked as for Update |
| Properties.ChainAppend | celutils/celutils/beans/property/InternalProperty.java:99-100 | a chain of runs extended by the next binding's update, from the root value the chain left, is a chain whose root ends at the new run's value; normal outcomes carry over, and the new one is added when it is normal |
| Properties.TrackedStep | celutils/celutils/beans/property/InternalProperty.java:99-100 | a run of the next binding from its current guest side, which changes only that binding's side, extends the tracking: each run started from its binding's side before the loop and left that side as its step's result, and the later bindings' sides are as before the loop |
| Properties.Sides | celutils/celutils/beans/property/InternalProperty.java:99 | one guest side per binding, in list order: the guest's value and both shadows |
| Properties.ChainSteps | celutils/celutils/beans/property/InternalProperty.java:99-100 | run k is binding k's reconciliation step |
| Properties.ChainRoots | celutils/celutils/beans/property/InternalProperty.java:99-100 | run k starts from the root value run k - 1 left, and run 0 from the value before update() |
| Properties.DistinctStorage | celutils/celutils/beans/property/Binding.java:145 | properties that read different values are different objects with disjoint outside storage |
| Properties.Binding.Seeded | celutils/celutils/beans/property/Binding.java:50-59 | root, guest and order are stored, and the shadows are read from both properties |
| Properties.Binding.Create | celutils/celutils/beans/property/Binding.java:50-59 | a null order throws NullPointerException("order") before either property is touched; otherwise the effect on both properties is Construct's, a failing sync() yields no binding, and a successful one yields a fresh binding seeded from the values after sync() |
| Properties.Binding.SyncProperties | celutils/celutils/beans/property/Binding.java:144-152 | both properties end as Sync says, with Sync's outcome |
| Properties.Binding.Push | celutils/celutils/beans/property/Binding.java:105-130 | the switch writes exactly the side PushOf names (or none) and returns the local post-push values |
| Properties.Binding.Update | celutils/celutils/beans/property/Binding.java:101-135 | the binding's snapshot afterwards, and the outcome, are Reconciliation.Update of the snapshot before |
| Properties.CreateBooleanProperty | celutils/celutils/beans/property/Properties.java:327-329 | a fresh internal property holding false, with nothing attached |
| Properties.CreateByteProperty | celutils/celutils/beans/property/Properties.java:359-361 | a fresh internal property holding (byte) 0 |
| Properties.CreateShortProperty | celutils/celutils/beans/property/Properties.java:391-393 | a fresh internal property holding (short) 0 |
| Properties.CreateIntegerProperty | celutils/celutils/beans/property/Properties.java:423-425 | a fresh internal property holding 0 |
| Properties.CreateLongProperty | celutils/celutils/beans/property/Properties.java:455-457 | a fresh internal property holding 0L |
| Properties.CreateStringProperty | celutils/celutils/beans/property/Properties.java:551-553 | a fresh internal property holding the empty string |
| Properties.CreateNullProperty | celutils/celutils/beans/property/Properties.java:588-590 | a fresh internal property holding null |
| Properties.CreateProperty | celutils/celutils/beans/property/Properties.java:1010-1012 | a fresh internal property holding the given value |
| Properties.CreateExternalProperty | celutils/celutils/beans/property/Properties.java:987-989 | a fresh external property over exactly the given getter and setter, whose lastValue is what the getter returns |
| Properties.ReadOnlyProperty | celutils/celutils/beans/property/Properties.java:974-976 | a fresh external property whose set() always throws |
| Properties.InverseBooleanProperty.constructor | celutils/celutils/beans/property/Properties.java:1036-1038 | wraps the given property |
| Properties.InverseBooleanProperty.Get | celutils/celutils/beans/property/Properties.java:1094-1097 | the negation of the wrapped value; a null wrapped value throws NullPointerException |
| Properties.InverseBooleanProperty.Set | celutils/celutils/beans/property/Properties.java:1105-1108 | a null argument throws NullPointerException and changes nothing; otherwise the wrapped property is set to the negation, so with a storing setter get() then returns the argument |
| Properties.InverseBooleanProperty.AddListener | celutils/celutils/beans/property/Properties.java:1043-1046 | the listener is appended to the wrapped property's list |
| Properties.InverseBooleanProperty.RemoveListener | celutils/celutils/beans/property/Properties.java:1051-1054 | the listener is removed from the wrapped property's list |
| Properties.InverseBooleanProperty.AddEventListener | celutils/celutils/beans/property/Properties.java:1067-1070 | the event listener is appended to the wrapped property's list |
| Properties.InverseBooleanProperty.RemoveEventListener | celutils/celutils/beans/property/Properties.java:1075-1078 | the event listener is removed from the wrapped property's list |
| Properties.InverseBooleanProperty.Bind | celutils/celutils/beans/property/Properties.java:1113-1116 | the wrapped property makes the binding and is its root |
| Properties.InverseBooleanProperty.BindDefault | celutils/celutils/beans/property/Property.java:96-98 | bind with RECESSIVE, made by the wrapped property |
| Properties.InverseBooleanProperty.Unbind | celutils/celutils/beans/property/Properties.java:1121-1124 | the wrapped property's bindings with that guest are dropped |
| Properties.InverseBooleanProperty.Update | celutils/celutils/beans/property/Properties.java:1129-1132 | exactly the wrapped property's update(): its change detection and binding runs, with the same guest-side tracking as Property.Update |
| Properties.AsInverse | celutils/celutils/beans/property/Properties.java:1146-1148 | a fresh inverse view of the given property |
| Bindings.Refuse | celutils/celutils/beans/property/Bindings.java:110-200 | every listener operation, set, bind and unbind of a derived property throws UnsupportedOperationException naming that operation |
| Bindings.RefusalsNameTheirOperation | celutils/celutils/beans/property/Bindings.java:110-200 | two refusals are the same exception exactly when they come from the same operation |
| Bindings.BindingCondition.constructor | celutils/celutils/beans/property/Bindings.java:100-102 | stores the condition |
| Bindings.BindingCondition.Get | celutils/celutils/beans/property/Bindings.java:168-170 | the wrapped condition's value, unchanged for when(c); for whenNot(c) its negation, or NullPointerException when c reads null; NullPointerException when the condition itself is null |
| Bindings.BindingCondition.Update | celutils/celutils/beans/property/Bindings.java:207-209 | update() has no effect and returns normally |
| Bindings.BindingCondition.Then | celutils/celutils/beans/property/Bindings.java:218-220 | a fresh PropertyBinding governed by this condition, yielding the value when it holds and null otherwise |
| Bindings.PropertyBinding.constructor | celutils/celutils/beans/property/Bindings.java:243-247 | condition and both values null |
| Bindings.PropertyBinding.Get | celutils/celutils/beans/property/Bindings.java:313-315 | whenTrue with no condition or a true one, whenFalse with a false one; it fails, with NullPointerException, exactly when the condition reads null, cannot be negated, or wraps a null property |
| Bindings.PropertyBinding.When | celutils/celutils/beans/property/Bindings.java:362-365 | sets only the condition, which may be null, and returns this binding; with a null condition get() is whenTrue |
| Bindings.PropertyBinding.Update | celutils/celutils/beans/property/Bindings.java:352-354 | update() has no effect and returns normally |
| Bindings.PropertyBinding.Then | celutils/celutils/beans/property/Bindings.java:373-376 | sets only whenTrue and returns this binding |
| Bindings.PropertyBinding.Otherwise | celutils/celutils/beans/property/Bindings.java:384-387 | sets only whenFalse and returns this binding |
| Bindings.When | celutils/celutils/beans/property/Bindings.java:30-32 | a fresh condition whose get() is the property's value; for a null property, one whose get() throws NullPointerException |
| Bindings.WhenNot | celutils/celutils/beans/property/Bindings.java:44-46 | a fresh condition over asInverse(c): it reads the negation of c, and fails when c reads null; for a null c, one whose get() throws NullPointerException |
| Bindings.IfTrue | celutils/celutils/beans/property/Bindings.java:54-56 | a fresh condition over a fresh property holding true |
| Bindings.IfFalse | celutils/celutils/beans/property/Bindings.java:64-66 | a fresh condition over a fresh property holding false |
| Bindings.Create | celutils/celutils/beans/property/Bindings.java:75-77 | a fresh PropertyBinding whose get() is null |
| Events.FiresOnOneKindOfCall | celutils/celutils/beans/observable/Continuity.java:15-43 | no continuity fires on both kinds of call; NONE and null fire on neither; ONCE and ALWAYS each fire on one |
| Events.Dispatch | celutils/celutils/beans/observable/EventListener.java:148-151 | the branch's event is performed, on the given target, exactly when its continuity fires; a firing null event throws NullPointerException |
| Events.EventListener.constructor | celutils/celutils/beans/observable/EventListener.java:46-47 | every field null |
| Events.EventListener.When | celutils/celutils/beans/observable/EventListener.java:58-61 | sets only the condition and returns this listener |
| Events.EventListener.Then | celutils/celutils/beans/observable/EventListener.java:72-76 | sets only the true-branch event and continuity and returns this listener |
| Events.EventListener.Otherwise | celutils/celutils/beans/observable/EventListener.java:87-91 | sets only the false-branch event and continuity and returns this listener |
| Events.EventListener.GetEvent | celutils/celutils/beans/observable/EventListener.java:110-115 | the true-branch event for true, the false-branch event for false |
| Events.EventListener.GetContinuity | celutils/celutils/beans/observable/EventListener.java:126-131 | the true-branch continuity for true, the false-branch continuity for false |
| Events.EventListener.Execute | celutils/celutils/beans/observable/EventListener.java:144-159 | nothing without a condition; NullPointerException for a null condition value; otherwise at most one event, the one of the branch the value selects, performed on this listener exactly when that branch's continuity fires for this kind of call |
| Events.When | celutils/celutils/beans/observable/Events.java:27-29 | a fresh listener with that condition and no events, which never performs anything |
| Events.IfTrue | celutils/celutils/beans/observable/Events.java:38-40 | a fresh listener over a fresh property holding true |
| Events.IfFalse | celutils/celutils/beans/observable/Events.java:49-51 | a fresh listener over a fresh property holding false |
| Events.OnChange | celutils/celutils/beans/observable/Events.java:66-68 | the event is performed, on the new listener, on every change call, whichever value the condition has, and never on a continuous call |
| Events.Always | celutils/celutils/beans/observable/Events.java:80-82 | the event is performed, on the new listener, on every continuous call and never on a change call |
| Events.Never | celutils/celutils/beans/observable/Events.java:94-96 | nothing is ever performed |
| Collections.ObservableList.Empty | celutils/celutils/collections/ObservableArrayList.java:39-41 | an empty backing list that is also the observed value |
| Collections.ObservableList.Copy | celutils/celutils/collections/ObservableArrayList.java:49-51 | a fresh backing list with the argument's contents, distinct from the argument, so later changes to it do not show |
| Collections.ObservableList.OfElements | celutils/celutils/collections/ObservableArrayList.java:60-62 | the arguments in order |
| Collections.ObservableList.Size | celutils/celutils/collections/ObservableList.java:52-55 | the number of elements |
| Collections.ObservableList.IsEmpty | celutils/celutils/collections/ObservableList.java:60-63 | true iff there are no elements |
| Collections.ObservableList.Contains | celutils/celutils/collections/ObservableList.java:68-71 | true iff some index holds the element |
| Collections.ObservableList.ContainsAll | celutils/celutils/collections/ObservableList.java:116-119 | true iff every element of the argument is contained; the varargs form is the same member (129-131) |
| Collections.ObservableList.Get | celutils/celutils/collections/ObservableList.java:220-223 | the element at the index, or IndexOutOfBoundsException exactly when the index is out of range |
| Collections.ObservableList.IndexOf | celutils/celutils/collections/ObservableList.java:284-287 | -1 iff absent, else the first index holding the element |
| Collections.ObservableList.LastIndexOf | celutils/celutils/collections/ObservableList.java:292-295 | -1 iff absent, else the last index holding the element |
| Collections.ObservableList.GetValue | celutils/celutils/collections/ObservableList.java:324-327 | the backing list object itself |
| Collections.ObservableList.Add | celutils/celutils/collections/ObservableList.java:100-103 | appends and reports a change |
| Collections.ObservableList.Remove | celutils/celutils/collections/ObservableList.java:108-111 | removes the first occurrence, reporting true iff there was one |
| Collections.ObservableList.AddAll | celutils/celutils/collections/ObservableList.java:136-139 | appends the argument in order, reporting true iff it was non-empty; the varargs form is the same member (148-150) |
| Collections.ObservableList.AddAllAt | celutils/celutils/collections/ObservableList.java:155-158 | inserts at the index, shifting the tail; an index outside 0..size throws and changes nothing; the varargs form is the same member (167-169) |
| Collections.ObservableList.RemoveAll | celutils/celutils/collections/ObservableList.java:174-177 | drops every element found in the argument, keeping the order of the rest, reporting true iff some element was found; the varargs form is the same member (186-188) |
| Collections.ObservableList.RetainAll | celutils/celutils/collections/ObservableList.java:193-196 | keeps only elements found in the argument, in order, reporting true iff some element was dropped; the varargs form is the same member (205-207) |
| Collections.ObservableList.Clear | celutils/celutils/collections/ObservableList.java:212-215 | no elements remain |
| Collections.ObservableList.SetAt | celutils/celutils/collections/ObservableList.java:228-231 | replaces one element and returns the one it replaced; an out-of-range index throws and changes nothing |
| Collections.ObservableList.SetAll | celutils/celutils/collections/ObservableList.java:239-253 | clear then addAll leaves exactly the argument, in order, for the Collection and the varargs forms |
| Collections.ObservableList.AddAt | celutils/celutils/collections/ObservableList.java:258-261 | the element lands at the index and the tail shifts right; an index outside 0..size throws and changes nothing |
| Collections.ObservableList.Insert | celutils/celutils/collections/ObservableList.java:269-271 | exactly add(index, element) |
| Collections.ObservableList.RemoveAt | celutils/celutils/collections/ObservableList.java:276-279 | removes and returns the element at the index, shifting the tail left; an out-of-range index throws and changes nothing |
| Collections.ObservableList.Update | celutils/celutils/collections/ObservableList.java:35-37 | the observed value stays the backing list object, so update() never calls a change listener, whatever the list went through |
| Collections.ObservableMap.constructor | celutils/celutils/collections/ObservableMap.java:32-34 | the given map is both the backing map and the observed value |
| Collections.ObservableMap.Size | celutils/celutils/collections/ObservableMap.java:48-51 | the number of keys |
| Collections.ObservableMap.IsEmpty | celutils/celutils/collections/ObservableMap.java:56-59 | true iff there are no keys |
| Collections.ObservableMap.ContainsKey | celutils/celutils/collections/ObservableMap.java:64-67 | key membership |
| Collections.ObservableMap.ContainsValue | celutils/celutils/collections/ObservableMap.java:72-75 | true iff some key maps to the value |
| Collections.ObservableMap.Get | celutils/celutils/collections/ObservableMap.java:80-83 | the key's value, or null iff the key is absent |
| Collections.ObservableMap.GetValue | celutils/celutils/collections/ObservableMap.java:144-147 | the backing map object itself |
| Collections.ObservableMap.Put | celutils/celutils/collections/ObservableMap.java:88-91 | returns the previous value (null if none); afterwards get returns the new value and the other keys are unchanged |
| Collections.ObservableMap.Remove | celutils/celutils/collections/ObservableMap.java:96-99 | returns the previous value; afterwards the key is absent and the other keys are unchanged |
| Collections.ObservableMap.PutAll | celutils/celutils/collections/ObservableMap.java:104-107 | every key of the argument maps to its value there, and the other keys are unchanged |
| Collections.ObservableMap.Clear | celutils/celutils/collections/ObservableMap.java:112-115 | no keys remain, size is 0 and isEmpty holds |
| Collections.ObservableMap.Update | celutils/celutils/collections/ObservableMap.java:144-147 | as for the list: the observed value is the live map, so update() never calls a change listener |
| Scenarios.ExternalPropertyDemo | demos/demos/celutil/PropertyDemo.java:23-28 | an external property over a variable at 23 reads 23, and set(50) writes 50 through to the variable |
| Scenarios.BoundToExternal | demos/demos/celutil/PropertyDemo.java:30-33 | a fresh integer property bound by default to an external one at 50 takes 50 |
| Scenarios.BindingFollowsExternal | demos/demos/celutil/PropertyDemo.java:34-36 | after the external side is set to 70, update() on the bound property brings it to 70 |
| Scenarios.ChangeListenerDemo | demos/demos/celutil/PropertyDemo.java:40-44 | after set(20) on a property created at 0, update() calls the listener once with (0, 20), and a second update() calls nothing |
| Scenarios.FirstUpdateIsQuiet | celutils/celutils/beans/property/InternalProperty.java:49-53 | the first update() after construction calls no listener and keeps the value |

## Left out

- The class hierarchy: Dafny traits are not available here, so the derived
  properties (`InverseBooleanProperty`, `BindingCondition`, `PropertyBinding`)
  are separate classes. They cannot be the guest of a binding or the condition
  of an event listener or a `BindingCondition`. Only a plain `Property` can.
- Properties.Property.Update: each run's starting guest value and shadows
  are pinned to the state before the call only for the first run, and for
  every run when the bindings are separate: different binding objects whose
  guests are different properties, other than the root, with disjoint
  outside storage. When two bindings share a guest or its storage, an
  earlier binding's push reaches a later one's guest, and the contract then
  says nothing about the later run's starting guest value or shadows.
- Bindings.WhenNot: for a null argument the condition is modelled as having
  no property, not as an inverse view over null; both make get() throw
  NullPointerException. `Properties.asInverse(null)` itself is not modelled,
  since `InverseBooleanProperty` always wraps a property.
- Listener storage: the change and event listener collections are sequences,
  not the `ArrayList`/`ObservableArrayList` objects the constructors pass in,
  and a property's binding list is a sequence too. The event listener list
  holds plain objects, because the `Events` module builds on `Properties`.
- Callbacks: `ChangeListener.changed`, `Event.perform`, `IGetter.get` and
  `ISetter.set` are not modelled beyond the calls they receive. An external
  getter is a variable read. A listener that changes the listener list while
  `update()` iterates it, and exceptions thrown by callbacks, are out of
  scope. A null getter is not modelled.
- Setters: each `ISetter` is one of three kinds: null, assigning, or `readOnly()`.
  The assigning kind writes its argument unchanged into the very variable the
  getter reads. A setter that transforms its argument, or writes somewhere
  other than where the getter reads, is not modelled. Every agreement property
  of bindings (for example in Reconciliation.Update and SecondUpdateSettles)
  holds only when both setters are of the storing kind.
- Collections.ObservableList.SetAll: the argument is taken as a value, a
  snapshot of its contents when the call starts. `set(this)` in Java clears the
  list before `addAll(this)` reads it (ObservableList.java:239-242), so it leaves
  the list empty; the model leaves the old contents instead.
- The `getter()`/`setter()` accessors of `ExternalProperty` and
  `getCondition()` of `EventListener` are the `storage` and `condition` fields.
- Float and Double properties, `getPropertyType()` and the `Class` argument of
  the generic factories, serialization, and threading.
- The typed `create*Property(value)` and `create*Property(getter, setter)`
  overloads are the generic `CreateProperty` and `CreateExternalProperty`.
  The typed `readOnly*Property` factories are `ReadOnlyProperty`.
- `iterator`, `listIterator`, `subList`, `toArray`, `keySet`, `values` and
  `entrySet` return live library views; they are not modelled.
- `ObservableLinkedList`, `ObservableVectorList`, `ObservableHashMap`,
  `ObservableTreeMap` and `ObservableLinkedHashMap` only choose another
  library container. The map is modelled as an unordered finite map.
- Collections.ObservableList.Size: Java's `int` size is unbounded here; lists
  of more than 2^31 - 1 elements are not considered.
- A null collection argument to the bulk list and map operations (a
  NullPointerException in Java) is not modelled, since collection arguments
  are sequences and maps.
- Collections.ObservableMap.Get: null values stored in a map are not
  distinguished from absent keys in Java; here a map may hold any value
  type, and `Get` reports absence separately.
- Exception messages: NullPointerExceptions raised by the JVM, from
  unboxing or dereferencing null, carry a message naming the null reference
  (such as "condition.get()" or "whenTrue"). Java gives them no message.
  IndexOutOfBoundsException carries the index and the size.
