/**
 * The walk-through of the library's property demo (PropertyDemo.java),
 * replayed on the model: each method builds fresh objects, runs the demo's
 * calls and states the values the demo's comments expect.
 */
module Scenarios {
  import opened Wrappers
  import opened Observables
  import opened Reconciliation
  import opened Properties

  /**
   * An external integer over a variable holding 23 reads 23, and set(50)
   * writes through to the variable.
   */
  method ExternalPropertyDemo() returns (read: Option<Int>, written: Option<Int>, backing: Option<Int>)
    ensures read == Some(23) && written == Some(50) && backing == Some(50)
  {
    var someExternalValue := new Variable(Some(23 as Int));
    var external := CreateExternalProperty(someExternalValue, Assigns);
    read := external.Get();
    var _ := external.Set(Some(50));
    written := external.Get();
    backing := someExternalValue.contents;
  }

  /**
   * A fresh integer property bound with the default order to an external
   * property at 50: the bound property takes 50, and the one binding's
   * shadows are seeded with 50.
   */
  method BoundToExternal() returns (test: Property<Int>, external: Property<Int>, b: Binding<Int>)
    ensures fresh(test) && fresh(test.observable) && fresh(external) && fresh(b)
    ensures test.storage == Internal && test.Valid() && test.bindings == [b]
    ensures external.storage.External? && external.Effect() == Stores && fresh(external.storage.variable)
    ensures b.root == test && b.guest == external && b.order == Recessive && external != test
    ensures b.Snapshot() == State(Some(50), Some(50), Some(50), Some(50))
  {
    var someExternalValue := new Variable(Some(50 as Int));
    external := CreateExternalProperty(someExternalValue, Assigns);
    test := CreateIntegerProperty();
    var _ := test.BindDefault(Some(external));
    b := test.bindings[0];
  }

  /**
   * Continuing from there: once the external side is set to 70, update() on
   * the bound property brings it to 70 as well.
   */
  method BindingFollowsExternal() returns (bound: Option<Int>, followed: Option<Int>)
    ensures bound == Some(50) && followed == Some(70)
  {
    var test, external, b := BoundToExternal();
    bound := test.Get();
    var _ := external.Set(Some(70));
    assert Sides(test.bindings) == [GuestSide(Some(70), Some(50), Some(50))];
    var o;
    ghost var runs;
    o, runs := test.Update();
    assert runs[0].before == State(Some(50), Some(70), Some(50), Some(50));
    followed := test.Get();
  }

  /**
   * A change listener on a property created at 0: set(0) changes nothing
   * observable; after set(20) the next update() calls the listener exactly
   * once, with (0, 20), and a second update() calls nothing more.
   */
  method ChangeListenerDemo(listener: ChangeListener) returns (ghost first: seq<Notification<Int>>, ghost second: seq<Notification<Int>>)
    ensures first == [Notification(listener, Some(0), Some(20))]
    ensures second == first
  {
    var myProperty := CreateIntegerProperty();
    var _ := myProperty.Set(Some(0));
    myProperty.observable.AddListener(listener);
    var _ := myProperty.Set(Some(20));
    var o;
    ghost var runs;
    o, runs := myProperty.Update();
    first := myProperty.observable.log;
    o, runs := myProperty.Update();
    second := myProperty.observable.log;
  }

  /** A property's first update() after construction calls no listener, whatever its initial value. */
  method FirstUpdateIsQuiet(initial: Option<int>, listener: ChangeListener) returns (ghost log: seq<Notification<int>>, current: Option<int>)
    ensures log == [] && current == initial
  {
    var p := CreateProperty(initial);
    p.observable.AddListener(listener);
    var o;
    ghost var runs;
    o, runs := p.Update();
    log := p.observable.log;
    current := p.Get();
  }
}
