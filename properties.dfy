/**
 * Properties: the internal property (a value held in a field), the external
 * property (a value read from and written to an outside variable through a
 * getter and a setter), the Binding objects a property owns as root, the
 * factories with their fixed defaults, and the inverse view of a boolean
 * property.
 */
module Properties {
  import opened Wrappers
  import opened Sequences
  import opened Observables
  import opened Reconciliation

  /**
   * The outside variable behind an external property: its getter returns
   * `contents` and a setter that assigns writes `contents`.
   */
  class Variable<T> {
    var contents: Option<T>

    constructor (initial: Option<T>)
      ensures contents == initial
    {
      contents := initial;
    }
  }

  /** The setter an external property was given. */
  datatype Setter =
    | NoSetter   // null: set() does nothing
    | Assigns    // writes the value into the variable
    | ReadOnly   // the readOnly() setter: throws UnsupportedOperationException("set")

  /** Where a property keeps its value. */
  datatype Storage<T> = Internal | External(variable: Variable<T>, setter: Setter)

  /** The bindings of the list whose guest is not `guest` (removeIf with reference identity). */
  function WithoutGuest<T(==)>(bindings: seq<Binding<T>>, guest: Option<Property<T>>): (r: seq<Binding<T>>)
    ensures forall i :: 0 <= i < |r| ==> r[i] in bindings && Some(r[i].guest) != guest
    ensures forall i :: 0 <= i < |bindings| && Some(bindings[i].guest) != guest ==> bindings[i] in r
    ensures (forall i :: 0 <= i < |bindings| ==> Some(bindings[i].guest) != guest) ==> r == bindings
    ensures guest.None? ==> r == bindings
    ensures |r| <= |bindings|
  {
    Filter(bindings, (b: Binding<T>) => Some(b.guest) != guest)
  }

  /**
   * removeIf keeps order and multiplicity: filtering a concatenation filters
   * each part, and a single binding is kept exactly when its guest differs.
   */
  lemma WithoutGuestSplits<T>(s: seq<Binding<T>>, t: seq<Binding<T>>, guest: Option<Property<T>>)
    ensures WithoutGuest(s + t, guest) == WithoutGuest(s, guest) + WithoutGuest(t, guest)
    ensures forall b: Binding<T> :: WithoutGuest([b], guest) == if Some(b.guest) != guest then [b] else []
  {
    FilterConcat(s, t, (b: Binding<T>) => Some(b.guest) != guest);
    forall b: Binding<T>
      ensures WithoutGuest([b], guest) == if Some(b.guest) != guest then [b] else []
    {
      assert [b][1..] == [];
    }
  }

  /** What one Binding.update() call started from and produced. */
  datatype Run<T> = Run(binding: Binding<T>, before: State<T>, step: Step<T>)

  /** The part of a binding's state besides the root's value: the guest's value and both shadows. */
  datatype GuestSide<T> = GuestSide(guest: Option<T>, rootOld: Option<T>, guestOld: Option<T>)

  function SideOf<T>(s: State<T>): GuestSide<T>
  {
    GuestSide(s.guest, s.rootOld, s.guestOld)
  }

  /**
   * InternalProperty and ExternalProperty. The ObservableImpl superclass is the
   * `observable` field; its getValue() is Get().
   */
  class Property<T(==)> {
    const storage: Storage<T>
    /** The field of an internal property; an external property never uses it. */
    var value: Option<T>
    const observable: ObservableImpl<T>
    var bindings: seq<Binding<T>>

    /** Every binding in the list has this property as its root. */
    ghost predicate Valid()
      reads this`bindings
    {
      forall b :: b in bindings ==> b.root == this
    }

    /** The outside variables get() and set() reach. */
    function Variables(): set<Variable<T>>
    {
      if storage.External? then {storage.variable} else {}
    }

    /** get(): the field, or what the getter returns. */
    function Get(): Option<T>
      reads this`value, Variables()
    {
      match storage
      case Internal => value
      case External(variable, _) => variable.contents
    }

    /** What set() does with its argument. */
    function Effect(): (e: SetterEffect)
      ensures e == Rejects <==> storage.External? && storage.setter == ReadOnly
      ensures e == Ignores <==> storage.External? && storage.setter == NoSetter
      ensures e == Stores <==> storage.Internal? || storage.setter == Assigns
    {
      match storage
      case Internal => Stores
      case External(_, setter) =>
        match setter
        case NoSetter => Ignores
        case Assigns => Stores
        case ReadOnly => Rejects
    }

    /** A property as its constructor leaves it: no bindings, no listeners, lastValue the value read. */
    ghost predicate Initial()
      reads this, observable, Variables()
    {
      && bindings == []
      && observable.listeners == [] && observable.eventListeners == []
      && observable.lastValue == Get() && observable.log == []
    }

    /** InternalProperty(T value). */
    constructor OfValue(initial: Option<T>)
      ensures storage == Internal && Get() == initial
      ensures fresh(observable) && Initial()
    {
      storage := Internal;
      value := initial;
      observable := new ObservableImpl(initial);
      bindings := [];
    }

    /** ExternalProperty(getter, setter): the initial lastValue is what the getter returns. */
    constructor OfVariable(variable: Variable<T>, setter: Setter)
      ensures storage == External(variable, setter) && Get() == variable.contents
      ensures fresh(observable) && Initial()
    {
      storage := External(variable, setter);
      value := None;
      observable := new ObservableImpl(variable.contents);
      bindings := [];
    }

    /**
     * set(v): an internal property stores v; an external one forwards v to
     * its setter when it has one, and does nothing when the setter is null.
     */
    method Set(v: Option<T>) returns (out: Outcome)
      modifies this`value, Variables()
      ensures Written(Get(), out) == Write(Effect(), old(Get()), v)
      ensures storage.External? ==> value == old(value)
    {
      match storage
      case Internal =>
        value := v;
        out := Normal;
      case External(variable, setter) =>
        match setter
        case NoSetter => out := Normal;
        case Assigns =>
          variable.contents := v;
          out := Normal;
        case ReadOnly => out := Threw(UnsupportedOperation("set"));
    }

    /**
     * What bind(guest, order) promises: the Binding constructor's effect on
     * both properties and, when it returns normally, one new binding with this
     * property as root appended to the list.
     */
    twostate predicate Bound(guest: Option<Property<T>>, order: Option<BindingOrder>, out: Outcome)
      reads this, Variables(), Present(guest), PresentVariables(guest), set b | b in bindings
    {
      && (storage.External? ==> value == old(value))
      && (order.None? ==>
            out == Threw(NullPointer("order")) && bindings == old(bindings) && Get() == old(Get())
            && (guest.Some? ==> guest.value.Get() == old(guest.value.Get())))
      && (order.Some? && guest.None? ==>
            out == Threw(NullPointer("guest")) && bindings == old(bindings) && Get() == old(Get()))
      && (order.Some? && guest.Some? ==>
            var c := Construct(order.value, Effect(), guest.value.Effect(), old(Get()), old(guest.value.Get()));
            && Get() == c.after.root && guest.value.Get() == c.after.guest && out == c.outcome
            && (guest.value.storage.External? ==> guest.value.value == old(guest.value.value))
            && (out.Threw? ==> bindings == old(bindings))
            && (out.Normal? ==>
                  && |bindings| == |old(bindings)| + 1
                  && bindings[..|old(bindings)|] == old(bindings)
                  && var b := bindings[|old(bindings)|];
                     fresh(b) && b.root == this && b.guest == guest.value && b.order == order.value
                     && b.rootOld == c.after.rootOld && b.guestOld == c.after.guestOld))
    }

    /** bind(guest, order): new Binding(this, guest, order) appended to the list. */
    method Bind(guest: Option<Property<T>>, order: Option<BindingOrder>) returns (out: Outcome)
      requires Valid()
      modifies this`bindings, this`value, Variables(), Present(guest)`value, PresentVariables(guest)
      ensures Valid() && Bound(guest, order, out)
    {
      var r := Binding.Create(this, guest, order);
      match r
      case Failure(e) => out := Threw(e);
      case Success(b) =>
        bindings := bindings + [b];
        out := Normal;
    }

    /** bind(guest): bind(guest, RECESSIVE). */
    method BindDefault(guest: Option<Property<T>>) returns (out: Outcome)
      requires Valid()
      modifies this`bindings, this`value, Variables(), Present(guest)`value, PresentVariables(guest)
      ensures Valid() && Bound(guest, Some(Recessive), out)
    {
      out := Bind(guest, Some(Recessive));
    }

    /** unbind(guest): drops every binding whose guest is that very object, keeping the rest in order. */
    method Unbind(guest: Option<Property<T>>)
      requires Valid()
      modifies this`bindings
      ensures Valid()
      ensures bindings == WithoutGuest(old(bindings), guest)
    {
      bindings := WithoutGuest(bindings, guest);
    }

    ghost function BindingSet(): set<Binding<T>>
      reads this`bindings
    {
      set b | b in bindings
    }

    ghost function Guests(): set<Property<T>>
      reads this`bindings
    {
      set b | b in bindings :: b.guest
    }

    ghost function GuestVariables(): set<Variable<T>>
      reads this`bindings
    {
      set b, x | b in bindings && x in b.guest.Variables() :: x
    }

    /**
     * The bindings are distinct objects, their guests are distinct from each
     * other and from this property, and no two of these properties share an
     * outside variable: each binding's update then touches only this
     * property, its own guest and its own shadows.
     */
    ghost predicate Separate()
      reads this`bindings
    {
      && (forall j, k :: 0 <= j < |bindings| && 0 <= k < |bindings| && j != k ==>
            && bindings[j] != bindings[k]
            && bindings[j].guest != bindings[k].guest
            && bindings[j].guest.Variables() !! bindings[k].guest.Variables())
      && (forall j :: 0 <= j < |bindings| ==>
            bindings[j].guest != this && bindings[j].guest.Variables() !! Variables())
    }

    /**
     * The state the runs start from and the state the bindings are left in,
     * against `sides`, the bindings' guest values and shadows at the call
     * (see TrackedOn).
     */
    ghost predicate Tracked(runs: seq<Run<T>>, sides: seq<GuestSide<T>>)
      reads this`bindings, BindingSet(), Guests(), GuestVariables()
    {
      TrackedOn(runs, sides, Sides(bindings), Separate())
    }

    /**
     * What update() promises: the change detection runs first, on the value
     * read before any binding acts (so a value a binding writes into this
     * property is reported by the next update, not by this one); then the
     * bindings run in list order, each from the root value the previous one
     * left, until one throws.
     */
    twostate predicate Updated(out: Outcome, new runs: seq<Run<T>>)
      reads this, observable, Variables()
    {
      && observable.lastValue == old(Get())
      && observable.listeners == old(observable.listeners)
      && (Equals(old(Get()), old(observable.lastValue)) ==> observable.log == old(observable.log))
      && (!Equals(old(Get()), old(observable.lastValue)) ==>
            observable.log == old(observable.log) + Notifications(observable.listeners, old(observable.lastValue), old(Get())))
      && BindingsUpdated(out, runs)
    }

    /**
     * What the loop over the bindings promises: they run in list order, each
     * from the root value the previous one left, until one throws.
     */
    twostate predicate BindingsUpdated(out: Outcome, new runs: seq<Run<T>>)
      reads this, Variables()
    {
      && bindings == old(bindings)
      && (storage.External? ==> value == old(value))
      && Chain(runs, bindings, Effect(), old(Get()))
      && Get() == LastRoot(runs, old(Get()))
      && (forall k :: 0 <= k < |runs| - 1 ==> runs[k].step.outcome.Normal?)
      && (out.Normal? <==> |runs| == |bindings| && (runs == [] || runs[|runs| - 1].step.outcome.Normal?))
      && (out.Threw? ==> runs != [] && runs[|runs| - 1].step.outcome == out)
    }

    /** update(): ObservableImpl.update(), then every binding's update(). */
    method Update() returns (out: Outcome, ghost runs: seq<Run<T>>)
      requires Valid()
      modifies observable`lastValue, observable`log, this`value, Variables()
      modifies BindingSet()`rootOld, BindingSet()`guestOld, Guests()`value, GuestVariables()
      ensures Valid() && Updated(out, runs)
      ensures Tracked(runs, old(Sides(bindings)))
    {
      ghost var sides := Sides(bindings);
      observable.Update(Get());
      assert Sides(bindings) == sides;
      out, runs := UpdateBindings();
    }

    /**
     * One iteration of that loop: binding.update() on the i-th binding of
     * this property, after the first i have run normally; `current` and
     * `next` are the bindings' guest sides before and after it.
     */
    method UpdateBinding(i: nat, ghost runs: seq<Run<T>>, ghost start: Option<T>, ghost sides: seq<GuestSide<T>>,
                         ghost bs: set<Binding<T>>, ghost gs: set<Property<T>>, ghost vs: set<Variable<T>>)
      returns (out: Outcome, ghost extended: seq<Run<T>>)
      requires Valid() && i < |bindings| && |runs| == i && |sides| == |bindings|
      requires bs == BindingSet() && gs == Guests() && vs == GuestVariables()
      requires Chain(runs, bindings, Effect(), start) && Get() == LastRoot(runs, start)
      requires TrackedOn(runs, sides, Sides(bindings), Separate())
      requires forall k :: 0 <= k < i ==> runs[k].step.outcome.Normal?
      modifies this`value, Variables(), bs`rootOld, bs`guestOld, gs`value, vs
      ensures storage.External? ==> value == old(value)
      ensures |extended| == i + 1 && extended == runs + [extended[i]]
      ensures forall k :: 0 <= k < i ==> extended[k].step.outcome.Normal?
      ensures out.Normal? ==> forall k :: 0 <= k <= i ==> extended[k].step.outcome.Normal?
      ensures var b := bindings[i];
              extended[i] == Run(b, old(b.Snapshot()), Reconciliation.Update(b.order, Effect(), b.guest.Effect(), old(b.Snapshot())))
      ensures out == extended[i].step.outcome && Get() == LastRoot(extended, start)
      ensures Chain(extended, bindings, Effect(), start)
      ensures TrackedOn(extended, sides, Sides(bindings), Separate())
    {
      var b := bindings[i];
      ghost var current := Sides(bindings);
      ghost var run := Run(b, b.Snapshot(), Reconciliation.Update(b.order, Effect(), b.guest.Effect(), b.Snapshot()));
      extended := ChainAppend(runs, run, bindings, Effect(), start);
      out := RunBinding(i);
      TrackedStep(runs, run, sides, current, Sides(bindings), Separate());
    }

    /**
     * binding.update() on the i-th binding, which changes this property, that
     * binding's guest and its shadows; when the bindings are separate, the
     * other bindings' guest sides are untouched.
     */
    method RunBinding(i: nat) returns (out: Outcome)
      requires Valid() && i < |bindings|
      modifies this`value, Variables(), {bindings[i]}`rootOld, {bindings[i]}`guestOld
      modifies {bindings[i].guest}`value, bindings[i].guest.Variables()
      ensures storage.External? ==> value == old(value)
      ensures var b := bindings[i]; var r := Reconciliation.Update(b.order, Effect(), b.guest.Effect(), old(b.Snapshot()));
              b.Snapshot() == r.after && out == r.outcome && Get() == r.after.root
      ensures Separate() ==> forall k :: 0 <= k < |bindings| && k != i ==> bindings[k].Side() == old(bindings[k].Side())
    {
      out := bindings[i].Update();
    }

    /** The loop of update() over the bindings, up to the first one that throws. */
    method UpdateBindings() returns (out: Outcome, ghost runs: seq<Run<T>>)
      requires Valid()
      modifies this`value, Variables()
      modifies BindingSet()`rootOld, BindingSet()`guestOld, Guests()`value, GuestVariables()
      ensures Valid() && BindingsUpdated(out, runs)
      ensures Tracked(runs, old(Sides(bindings)))
    {
      ghost var sides := Sides(bindings);
      ghost var bs, gs, vs := BindingSet(), Guests(), GuestVariables();
      out := Normal;
      runs := [];
      var i := 0;
      while i < |bindings|
        invariant 0 <= i <= |bindings| && |runs| == i
        invariant storage.External? ==> value == old(value)
        invariant Chain(runs, bindings, Effect(), old(Get()))
        invariant forall k :: 0 <= k < i ==> runs[k].step.outcome.Normal?
        invariant Get() == LastRoot(runs, old(Get()))
        invariant TrackedOn(runs, sides, Sides(bindings), Separate())
        modifies this`value, Variables(), bs`rootOld, bs`guestOld, gs`value, vs
      {
        var o;
        o, runs := UpdateBinding(i, runs, old(Get()), sides, bs, gs, vs);
        if o.Threw? {
          out := o;
          break;
        }
        i := i + 1;
      }
    }
  }

  /**
   * `runs` are the updates of the first |runs| bindings of the list, in list
   * order, each starting from the root value the previous one left (`start`
   * for the first).
   */
  ghost predicate Chain<T>(runs: seq<Run<T>>, bindings: seq<Binding<T>>, rootEffect: SetterEffect, start: Option<T>)
    decreases |runs|
  {
    && |runs| <= |bindings|
    && (runs != [] ==>
          var n := |runs| - 1;
          && Chain(runs[..n], bindings, rootEffect, start)
          && runs[n].binding == bindings[n]
          && runs[n].step == Reconciliation.Update(bindings[n].order, rootEffect, bindings[n].guest.Effect(), runs[n].before)
          && runs[n].before.root == LastRoot(runs[..n], start))
  }

  /**
   * A chain, element by element: run k is the update of binding k. This only
   * reads the recursive definition of Chain index by index, by induction on
   * the number of runs; it is how callers of update() use Chain.
   */
  lemma {:induction false} ChainSteps<T>(runs: seq<Run<T>>, bindings: seq<Binding<T>>, rootEffect: SetterEffect, start: Option<T>)
    requires Chain(runs, bindings, rootEffect, start)
    ensures |runs| <= |bindings|
    ensures forall k :: 0 <= k < |runs| ==>
              runs[k].binding == bindings[k]
              && runs[k].step == Reconciliation.Update(bindings[k].order, rootEffect, bindings[k].guest.Effect(), runs[k].before)
  {
    if runs != [] {
      var n := |runs| - 1;
      var prefix := runs[..n];
      ChainSteps(prefix, bindings, rootEffect, start);
      forall k | 0 <= k < n
        ensures runs[k] == prefix[k]
      {
      }
    }
  }

  /**
   * A chain, element by element: run k starts from the root value run k - 1
   * left. Like ChainSteps, this only reads Chain's recursive definition index
   * by index.
   */
  lemma {:induction false} ChainRoots<T>(runs: seq<Run<T>>, bindings: seq<Binding<T>>, rootEffect: SetterEffect, start: Option<T>)
    requires Chain(runs, bindings, rootEffect, start)
    ensures forall k {:trigger runs[k].before} :: 0 <= k < |runs| ==>
              runs[k].before.root == (if k == 0 then start else runs[k - 1].step.after.root)
  {
    if runs != [] {
      var n := |runs| - 1;
      var prefix := runs[..n];
      ChainRoots(prefix, bindings, rootEffect, start);
      forall k | 0 <= k < |runs|
        ensures runs[k].before.root == (if k == 0 then start else runs[k - 1].step.after.root)
      {
        if k < n {
          assert runs[k] == prefix[k];
          if k > 0 { assert runs[k - 1] == prefix[k - 1]; }
        } else if n > 0 {
          assert runs[n - 1] == prefix[n - 1];
        }
      }
    }
  }

  /**
   * `runs` against `sides`, the guest sides at the call, and `current`, the
   * guest sides now: the first run started from the first binding's; and
   * when the bindings are separate, every run started from its binding's,
   * every binding that ran holds what its run produced, and the rest are
   * untouched.
   */
  ghost predicate TrackedOn<T>(runs: seq<Run<T>>, sides: seq<GuestSide<T>>, current: seq<GuestSide<T>>, separate: bool)
  {
    |sides| == |current| && |runs| <= |current| ==>
      && (runs != [] ==> SideOf(runs[0].before) == sides[0])
      && (runs == [] && current != [] ==> current[0] == sides[0])
      && (separate ==>
            && (forall k :: 0 <= k < |runs| ==> SideOf(runs[k].before) == sides[k])
            && (forall k :: 0 <= k < |runs| ==> current[k] == SideOf(runs[k].step.after))
            && (forall k :: |runs| <= k < |current| ==> current[k] == sides[k]))
  }

  /** One more run, of the next binding, from its current side, which only that binding's side changes. */
  lemma TrackedStep<T>(runs: seq<Run<T>>, run: Run<T>, sides: seq<GuestSide<T>>,
                         current: seq<GuestSide<T>>, next: seq<GuestSide<T>>, separate: bool)
    requires TrackedOn(runs, sides, current, separate)
    requires |sides| == |current| == |next| && |runs| < |current|
    requires SideOf(run.before) == current[|runs|] && next[|runs|] == SideOf(run.step.after)
    requires separate ==> forall k :: 0 <= k < |current| && k != |runs| ==> next[k] == current[k]
    ensures TrackedOn(runs + [run], sides, next, separate)
  {
  }

  /**
   * A chain extended by the update of the next binding, from the root value
   * the chain left; normal outcomes carry over, and the new run's is added.
   */
  lemma ChainAppend<T>(runs: seq<Run<T>>, run: Run<T>, bindings: seq<Binding<T>>, rootEffect: SetterEffect, start: Option<T>)
    returns (extended: seq<Run<T>>)
    requires Chain(runs, bindings, rootEffect, start) && |runs| < |bindings|
    requires run.binding == bindings[|runs|]
    requires run.step == Reconciliation.Update(bindings[|runs|].order, rootEffect, bindings[|runs|].guest.Effect(), run.before)
    requires run.before.root == LastRoot(runs, start)
    requires forall k :: 0 <= k < |runs| ==> runs[k].step.outcome.Normal?
    ensures extended == runs + [run] && |extended| == |runs| + 1 && extended[|runs|] == run
    ensures Chain(extended, bindings, rootEffect, start) && LastRoot(extended, start) == run.step.after.root
    ensures forall k :: 0 <= k < |runs| ==> extended[k].step.outcome.Normal?
    ensures run.step.outcome.Normal? ==> forall k :: 0 <= k <= |runs| ==> extended[k].step.outcome.Normal?
  {
    extended := runs + [run];
    assert extended[..|runs|] == runs;
    assert forall k :: 0 <= k < |runs| ==> extended[k] == runs[k];
  }

  /** The guest sides of the given bindings, in order. */
  ghost function Sides<T>(bindings: seq<Binding<T>>): (r: seq<GuestSide<T>>)
    reads set b | b in bindings, set b | b in bindings :: b.guest
    reads set b, x | b in bindings && x in b.guest.Variables() :: x
    ensures |r| == |bindings| && forall k :: 0 <= k < |bindings| ==> r[k] == bindings[k].Side()
  {
    if bindings == [] then [] else [bindings[0].Side()] + Sides(bindings[1..])
  }

  /** The root value after the given runs. */
  ghost function LastRoot<T>(runs: seq<Run<T>>, start: Option<T>): Option<T>
  {
    if runs == [] then start else runs[|runs| - 1].step.after.root
  }

  /** The property a nullable reference names, as a frame. */
  function Present<T(==)>(p: Option<Property<T>>): set<Property<T>>
  {
    if p.Some? then {p.value} else {}
  }

  /** The outside variables of the property a nullable reference names. */
  function PresentVariables<T(==)>(p: Option<Property<T>>): set<Variable<T>>
  {
    if p.Some? then p.value.Variables() else {}
  }

  /** Two properties reading different values share no storage. */
  lemma DistinctStorage<T>(p: Property<T>, q: Property<T>)
    requires p.Get() != q.Get()
    ensures p != q && p.Variables() !! q.Variables()
  {
  }

  /**
   * Binding: a root, a guest, an order, and the two shadows rootOld/guestOld
   * remembered from the previous update.
   */
  class Binding<T(==)> {
    const root: Property<T>
    const guest: Property<T>
    const order: BindingOrder
    var rootOld: Option<T>
    var guestOld: Option<T>

    /** The binding's state as the reconciliation rules see it. */
    function Snapshot(): State<T>
      reads this, root`value, root.Variables(), guest`value, guest.Variables()
    {
      State(root.Get(), guest.Get(), rootOld, guestOld)
    }

    /** Everything in the snapshot but the root's value. */
    function Side(): GuestSide<T>
      reads this`rootOld, this`guestOld, guest`value, guest.Variables()
    {
      GuestSide(guest.Get(), rootOld, guestOld)
    }

    /** The field assignments of the constructor and the seeding of the shadows from both properties. */
    constructor Seeded(root: Property<T>, guest: Property<T>, order: BindingOrder)
      ensures this.root == root && this.guest == guest && this.order == order
      ensures rootOld == root.Get() && guestOld == guest.Get()
    {
      this.root := root;
      this.guest := guest;
      this.order := order;
      rootOld := root.Get();
      guestOld := guest.Get();
    }

    /**
     * new Binding(root, guest, order): a null order throws before either
     * property is read; then sync(), then the shadows are read back. A null
     * guest throws at its first read, inside sync().
     */
    static method Create(root: Property<T>, guest: Option<Property<T>>, order: Option<BindingOrder>)
      returns (r: Result<Binding<T>>)
      modifies root`value, root.Variables(), Present(guest)`value, PresentVariables(guest)
      ensures root.storage.External? ==> root.value == old(root.value)
      ensures order.None? ==>
                r == Failure(NullPointer("order")) && root.Get() == old(root.Get())
                && (guest.Some? ==> guest.value.Get() == old(guest.value.Get()))
      ensures order.Some? && guest.None? ==>
                r == Failure(NullPointer("guest")) && root.Get() == old(root.Get())
      ensures order.Some? && guest.Some? ==>
                var c := Construct(order.value, root.Effect(), guest.value.Effect(), old(root.Get()), old(guest.value.Get()));
                && root.Get() == c.after.root && guest.value.Get() == c.after.guest
                && (guest.value.storage.External? ==> guest.value.value == old(guest.value.value))
                && (c.outcome.Threw? ==> r == Failure(c.outcome.exception))
                && (c.outcome.Normal? ==>
                      r.Success? && fresh(r.value)
                      && r.value.root == root && r.value.guest == guest.value && r.value.order == order.value
                      && r.value.rootOld == c.after.rootOld && r.value.guestOld == c.after.guestOld)
    {
      if order.None? {
        return Failure(NullPointer("order"));
      }
      if guest.None? {
        return Failure(NullPointer("guest"));
      }
      var out := SyncProperties(order.value, root, guest.value);
      if out.Threw? {
        return Failure(out.exception);
      }
      var b := new Binding.Seeded(root, guest.value, order.value);
      return Success(b);
    }

    /**
     * sync(): no setter is called when the values are equal; otherwise the
     * side without precedence is set to the other side's value.
     */
    static method SyncProperties(order: BindingOrder, root: Property<T>, guest: Property<T>) returns (out: Outcome)
      modifies root`value, root.Variables(), guest`value, guest.Variables()
      ensures var sy := Sync(order, root.Effect(), guest.Effect(), old(root.Get()), old(guest.Get()));
              root.Get() == sy.root && guest.Get() == sy.guest && out == sy.outcome
      ensures root.storage.External? ==> root.value == old(root.value)
      ensures guest.storage.External? ==> guest.value == old(guest.value)
    {
      if Equals(root.Get(), guest.Get()) {
        return Normal;
      }
      DistinctStorage(root, guest);
      if order == Dominant || order == BidirectionalDominant {
        out := guest.Set(root.Get());
      } else {
        out := root.Set(guest.Get());
      }
    }

    /**
     * The order-specific switch of update(), on the values just read: it
     * returns the local post-push values rootNew/guestNew.
     */
    method Push(rootRead: Option<T>, guestRead: Option<T>) returns (out: Outcome, rootNew: Option<T>, guestNew: Option<T>)
      requires rootRead == root.Get() && guestRead == guest.Get()
      modifies root`value, root.Variables(), guest`value, guest.Variables()
      ensures root.storage.External? ==> root.value == old(root.value)
      ensures guest.storage.External? ==> guest.value == old(guest.value)
      ensures match PushOf(order, rootRead, guestRead, rootOld, guestOld)
              case NoPush =>
                out == Normal && root.Get() == rootRead && guest.Get() == guestRead
                && rootNew == rootRead && guestNew == guestRead
              case RootToGuest =>
                var w := Write(guest.Effect(), guestRead, rootRead);
                out == w.outcome && root.Get() == rootRead && guest.Get() == w.value
                && rootNew == rootRead && guestNew == rootRead
              case GuestToRoot =>
                var w := Write(root.Effect(), rootRead, guestRead);
                out == w.outcome && root.Get() == w.value && guest.Get() == guestRead
                && rootNew == guestRead && guestNew == guestRead
    {
      out, rootNew, guestNew := Normal, rootRead, guestRead;
      match order {
        case BidirectionalDominant =>
          if !Equals(rootOld, rootNew) && !Equals(guestNew, rootNew) {
            DistinctStorage(root, guest);
            out := guest.Set(rootNew);
            guestNew := rootNew;
          } else if !Equals(guestOld, guestNew) && !Equals(guestNew, rootNew) {
            DistinctStorage(root, guest);
            out := root.Set(guestNew);
            rootNew := guestNew;
          }
        case BidirectionalRecessive =>
          if !Equals(guestOld, guestNew) && !Equals(guestNew, rootNew) {
            DistinctStorage(root, guest);
            out := root.Set(guestNew);
            rootNew := guestNew;
          } else if !Equals(rootOld, rootNew) && !Equals(guestNew, rootNew) {
            DistinctStorage(root, guest);
            out := guest.Set(rootNew);
            guestNew := rootNew;
          }
        case Dominant =>
        case Recessive =>
      }
    }

    /** update(): push the side that changed, then sync(), then remember the local post-push values. */
    method Update() returns (out: Outcome)
      modifies this`rootOld, this`guestOld, root`value, root.Variables(), guest`value, guest.Variables()
      ensures var r := Reconciliation.Update(order, root.Effect(), guest.Effect(), old(Snapshot()));
              Snapshot() == r.after && out == r.outcome
      ensures root.storage.External? ==> root.value == old(root.value)
      ensures guest.storage.External? ==> guest.value == old(guest.value)
    {
      var rootNew, guestNew;
      out, rootNew, guestNew := Push(root.Get(), guest.Get());
      if out.Threw? { return; }
      out := SyncProperties(order, root, guest);
      if out.Threw? { return; }
      rootOld := rootNew;
      guestOld := guestNew;
    }
  }

  /** Java's fixed-width integer types, as the value ranges the defaults live in. */
  newtype Byte = x: int | -0x80 <= x < 0x80
  newtype Short = x: int | -0x8000 <= x < 0x8000
  newtype Int = x: int | -0x8000_0000 <= x < 0x8000_0000
  newtype Long = x: int | -0x8000_0000_0000_0000 <= x < 0x8000_0000_0000_0000

  /** A freshly built internal property holding `initial`, with nothing attached. */
  twostate predicate FreshInternal<T>(new p: Property<T>, initial: Option<T>)
    reads p, p.observable
  {
    fresh(p) && fresh(p.observable) && p.storage == Internal && p.value == initial && p.Initial()
  }

  /** createBooleanProperty(): an internal property starting at false. */
  method CreateBooleanProperty() returns (p: Property<bool>)
    ensures FreshInternal(p, Some(false))
  {
    p := new Property.OfValue(Some(false));
  }

  /** createByteProperty(): an internal property starting at (byte) 0. */
  method CreateByteProperty() returns (p: Property<Byte>)
    ensures FreshInternal(p, Some(0))
  {
    p := new Property.OfValue(Some(0));
  }

  /** createShortProperty(): an internal property starting at (short) 0. */
  method CreateShortProperty() returns (p: Property<Short>)
    ensures FreshInternal(p, Some(0))
  {
    p := new Property.OfValue(Some(0));
  }

  /** createIntegerProperty(): an internal property starting at 0. */
  method CreateIntegerProperty() returns (p: Property<Int>)
    ensures FreshInternal(p, Some(0))
  {
    p := new Property.OfValue(Some(0));
  }

  /** createLongProperty(): an internal property starting at 0L. */
  method CreateLongProperty() returns (p: Property<Long>)
    ensures FreshInternal(p, Some(0))
  {
    p := new Property.OfValue(Some(0));
  }

  /** createStringProperty(): an internal property starting at the empty string. */
  method CreateStringProperty() returns (p: Property<string>)
    ensures FreshInternal(p, Some(""))
  {
    p := new Property.OfValue(Some(""));
  }

  /** createProperty(type) and the no-argument InternalProperty(): an internal property starting at null. */
  method CreateNullProperty<T(==)>() returns (p: Property<T>)
    ensures FreshInternal(p, None)
  {
    p := new Property.OfValue(None);
  }

  /** createProperty(type, value) and the typed create*Property(value) overloads. */
  method CreateProperty<T(==)>(initial: Option<T>) returns (p: Property<T>)
    ensures FreshInternal(p, initial) && p.Get() == initial
  {
    p := new Property.OfValue(initial);
  }

  /** createProperty(type, getter, setter): an external property over exactly the given getter and setter. */
  method CreateExternalProperty<T(==)>(variable: Variable<T>, setter: Setter) returns (p: Property<T>)
    ensures fresh(p) && fresh(p.observable) && p.storage == External(variable, setter) && p.Initial()
    ensures p.Get() == variable.contents
  {
    p := new Property.OfVariable(variable, setter);
  }

  /** readOnlyProperty(type, getter): an external property whose setter is readOnly(). */
  method ReadOnlyProperty<T(==)>(variable: Variable<T>) returns (p: Property<T>)
    ensures fresh(p) && fresh(p.observable) && p.storage == External(variable, ReadOnly) && p.Initial()
    ensures p.Effect() == Rejects
  {
    p := new Property.OfVariable(variable, ReadOnly);
  }

  /**
   * The inverse view of a boolean property: get() and set() negate, and every
   * other operation is the wrapped property's own. Negating a null value
   * throws NullPointerException.
   */
  class InverseBooleanProperty {
    const property: Property<bool>

    constructor (property: Property<bool>)
      ensures this.property == property
    {
      this.property := property;
    }

    /** get(): !property.get(). */
    function Get(): (r: Result<bool>)
      reads property`value, property.Variables()
      ensures r.Failure? <==> property.Get().None?
      ensures r.Failure? ==> r.exception.NullPointer?
      ensures r.Success? ==> r.value != property.Get().value
    {
      match property.Get()
      case None => Failure(NullPointer("property.get()"))
      case Some(b) => Success(!b)
    }

    /** set(v): property.set(!v); a null v throws before the wrapped property is touched. */
    method Set(v: Option<bool>) returns (out: Outcome)
      modifies property`value, property.Variables()
      ensures property.storage.External? ==> property.value == old(property.value)
      ensures v.None? ==> out == Threw(NullPointer("value")) && property.Get() == old(property.Get())
      ensures v.Some? ==> Written(property.Get(), out) == Write(property.Effect(), old(property.Get()), Some(!v.value))
      ensures v.Some? && property.Effect() == Stores ==> Get() == Success(v.value)
    {
      match v
      case None => out := Threw(NullPointer("value"));
      case Some(b) => out := property.Set(Some(!b));
    }

    method AddListener(listener: ChangeListener)
      modifies property.observable`listeners
      ensures property.observable.listeners == old(property.observable.listeners) + [listener]
    {
      property.observable.AddListener(listener);
    }

    method RemoveListener(listener: ChangeListener)
      modifies property.observable`listeners
      ensures property.observable.listeners == RemoveFirst(old(property.observable.listeners), listener)
    {
      property.observable.RemoveListener(listener);
    }

    function GetListeners(): seq<ChangeListener>
      reads property.observable
    {
      property.observable.GetListeners()
    }

    method AddEventListener(listener: object)
      modifies property.observable`eventListeners
      ensures property.observable.eventListeners == old(property.observable.eventListeners) + [listener]
    {
      property.observable.AddEventListener(listener);
    }

    method RemoveEventListener(listener: object)
      modifies property.observable`eventListeners
      ensures property.observable.eventListeners == RemoveFirst(old(property.observable.eventListeners), listener)
    {
      property.observable.RemoveEventListener(listener);
    }

    function GetEventListeners(): seq<object>
      reads property.observable
    {
      property.observable.GetEventListeners()
    }

    /** bind(guest, order): the binding is made by the wrapped property, which becomes its root. */
    method Bind(guest: Option<Property<bool>>, order: Option<BindingOrder>) returns (out: Outcome)
      requires property.Valid()
      modifies property`bindings, property`value, property.Variables(), Present(guest)`value, PresentVariables(guest)
      ensures property.Valid() && property.Bound(guest, order, out)
    {
      out := property.Bind(guest, order);
    }

    /** bind(guest): bind(guest, RECESSIVE), made by the wrapped property. */
    method BindDefault(guest: Option<Property<bool>>) returns (out: Outcome)
      requires property.Valid()
      modifies property`bindings, property`value, property.Variables(), Present(guest)`value, PresentVariables(guest)
      ensures property.Valid() && property.Bound(guest, Some(Recessive), out)
    {
      out := property.Bind(guest, Some(Recessive));
    }

    method Unbind(guest: Option<Property<bool>>)
      requires property.Valid()
      modifies property`bindings
      ensures property.Valid() && property.bindings == WithoutGuest(old(property.bindings), guest)
    {
      property.Unbind(guest);
    }

    method Update() returns (out: Outcome, ghost runs: seq<Run<bool>>)
      requires property.Valid()
      modifies property.observable`lastValue, property.observable`log, property`value, property.Variables()
      modifies property.BindingSet()`rootOld, property.BindingSet()`guestOld, property.Guests()`value, property.GuestVariables()
      ensures property.Valid() && property.Updated(out, runs)
      ensures property.Tracked(runs, old(Sides(property.bindings)))
    {
      out, runs := property.Update();
    }
  }

  /** asInverse(property). */
  method AsInverse(property: Property<bool>) returns (q: InverseBooleanProperty)
    ensures fresh(q) && q.property == property
  {
    q := new InverseBooleanProperty(property);
  }
}
