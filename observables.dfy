/**
 * The observable core: the null-safe equality that decides what counts as a
 * change, and ObservableImpl, which keeps the last value seen, the change and
 * event listeners, and runs the change-detection step of update().
 */
module Observables {
  import opened Wrappers
  import opened Sequences

  /**
   * Observable.equals: when either side is null the answer is `a == b`,
   * otherwise `a.equals(b)`, which this model takes to be value equality on T.
   */
  function Equals<T(==)>(a: Option<T>, b: Option<T>): (r: bool)
    ensures a.None? && b.None? ==> r
    ensures a.None? != b.None? ==> !r
    ensures a.Some? && b.Some? ==> (r <==> a.value == b.value)
    ensures r <==> a == b
  {
    if a.None? then b.None?
    else if b.None? then a.None?
    else a.value == b.value
  }

  /** A change listener, known only by its identity; what its callback does is not modelled. */
  datatype ChangeListener = ChangeListener(id: nat)

  /** One call `listener.changed(observable, previous, current)`. */
  datatype Notification<T> = Notification(listener: ChangeListener, previous: Option<T>, current: Option<T>)

  /** The calls one change-firing update() makes: every listener, in order, with the same pair. */
  function Notifications<T>(listeners: seq<ChangeListener>, previous: Option<T>, current: Option<T>): (r: seq<Notification<T>>)
    ensures |r| == |listeners|
    ensures forall i :: 0 <= i < |r| ==> r[i] == Notification(listeners[i], previous, current)
  {
    if listeners == [] then []
    else
      Notifications(listeners[..|listeners| - 1], previous, current)
        + [Notification(listeners[|listeners| - 1], previous, current)]
  }

  /**
   * ObservableImpl<E>. The value accessor getValue() of the owning object is not
   * called from here: the owner reads it and passes it to Update. `log` records
   * every change-listener call ever made, the observable argument of each call
   * being the owner.
   */
  class ObservableImpl<T(==)> {
    var listeners: seq<ChangeListener>
    /** Event listeners are stored only; nothing here ever executes them. */
    var eventListeners: seq<object>
    var lastValue: Option<T>
    ghost var log: seq<Notification<T>>

    /** The owner supplies empty listener collections and its current value. */
    constructor (initialValue: Option<T>)
      ensures listeners == [] && eventListeners == []
      ensures lastValue == initialValue && log == []
    {
      listeners := [];
      eventListeners := [];
      lastValue := initialValue;
      log := [];
    }

    method AddListener(listener: ChangeListener)
      modifies this`listeners
      ensures listeners == old(listeners) + [listener]
    {
      listeners := listeners + [listener];
    }

    method RemoveListener(listener: ChangeListener)
      modifies this`listeners
      ensures listeners == RemoveFirst(old(listeners), listener)
    {
      listeners := RemoveFirst(listeners, listener);
    }

    function GetListeners(): seq<ChangeListener>
      reads this
    {
      listeners
    }

    method AddEventListener(listener: object)
      modifies this`eventListeners
      ensures eventListeners == old(eventListeners) + [listener]
    {
      eventListeners := eventListeners + [listener];
    }

    method RemoveEventListener(listener: object)
      modifies this`eventListeners
      ensures eventListeners == RemoveFirst(old(eventListeners), listener)
    {
      eventListeners := RemoveFirst(eventListeners, listener);
    }

    function GetEventListeners(): seq<object>
      reads this
    {
      eventListeners
    }

    /**
     * update(), given the value getValue() returned: when it differs from
     * lastValue every change listener is called, in order, with the same
     * (lastValue, value) pair; then lastValue becomes value in every case.
     */
    method Update(value: Option<T>)
      modifies this`lastValue, this`log
      ensures lastValue == value
      ensures Equals(value, old(lastValue)) ==> log == old(log)
      ensures !Equals(value, old(lastValue)) ==>
                log == old(log) + Notifications(listeners, old(lastValue), value)
    {
      var previous := lastValue;
      if !Equals(value, previous) {
        for i := 0 to |listeners|
          invariant log == old(log) + Notifications(listeners[..i], previous, value)
        {
          assert listeners[..i + 1][..i] == listeners[..i];
          log := log + [Notification(listeners[i], previous, value)];
        }
        assert listeners[..|listeners|] == listeners;
      }
      lastValue := value;
    }
  }
}
