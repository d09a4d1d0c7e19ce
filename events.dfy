/**
 * Event listeners: a boolean condition property and, for each of its two
 * values, an event with a continuity saying whether the event runs when the
 * condition has just changed (ONCE) or on every continuing check (ALWAYS).
 */
module Events {
  import opened Wrappers
  import opened Properties

  /** Continuity: NONE never runs, ONCE runs on a change, ALWAYS on every continuing check. */
  datatype Continuity = NoContinuity | Once | Always

  /** An event, known only by its identity; what perform() does is not modelled. */
  datatype Event = Event(id: nat)

  /** What one execute() call does: nothing, one event.perform(target) call, or a NullPointerException. */
  datatype Execution = Idle | Perform(event: Event, target: EventListener) | Fault(exception: Exception)

  /** Whether an event with this continuity runs on a continuing check (true) or on a change (false). */
  predicate Fires(continuity: Option<Continuity>, continuous: bool)
  {
    if continuous then continuity == Some(Continuity.Always) else continuity == Some(Continuity.Once)
  }

  /** An event fires on a change or on a continuing check, never on both; NONE and null never fire. */
  lemma FiresOnOneKindOfCall(continuity: Option<Continuity>)
    ensures !(Fires(continuity, true) && Fires(continuity, false))
    ensures continuity == None || continuity == Some(NoContinuity) ==>
              !Fires(continuity, true) && !Fires(continuity, false)
    ensures continuity.Some? && continuity.value != NoContinuity ==>
              Fires(continuity, true) || Fires(continuity, false)
  {
  }

  /**
   * One branch of execute(): the event is performed on the target when its
   * continuity fires; a null event that fires is dereferenced and throws.
   */
  function Dispatch(event: Option<Event>, continuity: Option<Continuity>, continuous: bool, name: string,
                    target: EventListener): (r: Execution)
    ensures r == Idle <==> !Fires(continuity, continuous)
    ensures r.Perform? <==> Fires(continuity, continuous) && event.Some?
    ensures r.Perform? ==> r.event == event.value && r.target == target
    ensures r.Fault? ==> r.exception == NullPointer(name) && event.None?
  {
    if !Fires(continuity, continuous) then Idle
    else if event.None? then Fault(NullPointer(name))
    else Perform(event.value, target)
  }

  class EventListener {
    var condition: Option<Property<bool>>
    var whenTrue: Option<Event>
    var continuity0: Option<Continuity>
    var whenFalse: Option<Event>
    var continuity1: Option<Continuity>

    constructor ()
      ensures condition == None
      ensures whenTrue == None && continuity0 == None
      ensures whenFalse == None && continuity1 == None
    {
      condition := None;
      whenTrue := None;
      continuity0 := None;
      whenFalse := None;
      continuity1 := None;
    }

    /** when(c): sets the condition only, returning this listener. */
    method When(c: Option<Property<bool>>) returns (self: EventListener)
      modifies this`condition
      ensures self == this && condition == c
    {
      condition := c;
      self := this;
    }

    /** then(e, k): sets the event and continuity for a true condition, returning this listener. */
    method Then(e: Option<Event>, k: Option<Continuity>) returns (self: EventListener)
      modifies this`whenTrue, this`continuity0
      ensures self == this && whenTrue == e && continuity0 == k
    {
      whenTrue := e;
      continuity0 := k;
      self := this;
    }

    /** otherwise(e, k): sets the event and continuity for a false condition, returning this listener. */
    method Otherwise(e: Option<Event>, k: Option<Continuity>) returns (self: EventListener)
      modifies this`whenFalse, this`continuity1
      ensures self == this && whenFalse == e && continuity1 == k
    {
      whenFalse := e;
      continuity1 := k;
      self := this;
    }

    function GetCondition(): Option<Property<bool>>
      reads this`condition
    {
      condition
    }

    /** getEvent(b): the event for the given condition value. */
    function GetEvent(b: bool): (e: Option<Event>)
      reads this`whenTrue, this`whenFalse
      ensures e == whenTrue || e == whenFalse
      ensures b ==> e == whenTrue
      ensures !b ==> e == whenFalse
    {
      if b then whenTrue else whenFalse
    }

    /** getContinuity(b): the continuity for the given condition value. */
    function GetContinuity(b: bool): (k: Option<Continuity>)
      reads this`continuity0, this`continuity1
      ensures k == continuity0 || k == continuity1
      ensures b ==> k == continuity0
      ensures !b ==> k == continuity1
    {
      if b then continuity0 else continuity1
    }

    /** The storage execute() reads through the condition. */
    function ConditionCells(): set<object>
      reads this`condition
    {
      if condition.Some? then {condition.value as object} + condition.value.Variables() else {}
    }

    /**
     * execute(continuous): nothing without a condition; a null condition value
     * throws; otherwise the event of the branch the value selects is performed,
     * on this listener, exactly when that branch's continuity fires for this
     * kind of call.
     */
    function Execute(continuous: bool): (r: Execution)
      reads this, ConditionCells()
      ensures condition.None? ==> r == Idle
      ensures condition.Some? && condition.value.Get().None? ==> r == Fault(NullPointer("condition.get()"))
      ensures condition.Some? && condition.value.Get().Some? ==>
                var b := condition.value.Get().value;
                (r == Idle <==> !Fires(GetContinuity(b), continuous)) &&
                (r.Perform? <==> Fires(GetContinuity(b), continuous) && GetEvent(b).Some?) &&
                (r.Perform? ==> Some(r.event) == GetEvent(b))
      ensures r.Perform? ==> r.target == this
      ensures r.Fault? ==> r.exception.NullPointer?
    {
      match condition
      case None => Idle
      case Some(p) =>
        match p.Get()
        case None => Fault(NullPointer("condition.get()"))
        case Some(b) =>
          if b then Dispatch(whenTrue, continuity0, continuous, "whenTrue", this)
          else Dispatch(whenFalse, continuity1, continuous, "whenFalse", this)
    }
  }

  /** Events.when(c): a fresh listener with this condition and no events. */
  method When(c: Option<Property<bool>>) returns (l: EventListener)
    ensures fresh(l) && l.condition == c
    ensures l.whenTrue == None && l.continuity0 == None && l.whenFalse == None && l.continuity1 == None
    ensures forall continuous :: l.Execute(continuous) == (if c.Some? && c.value.Get().None? then Fault(NullPointer("condition.get()")) else Idle)
  {
    l := new EventListener();
    l := l.When(c);
  }

  /** Events.ifTrue(): a listener whose condition is a fresh property holding true. */
  method IfTrue() returns (l: EventListener)
    ensures fresh(l) && l.condition.Some? && fresh(l.condition.value) && l.condition.value.Get() == Some(true)
    ensures l.whenTrue == None && l.continuity0 == None && l.whenFalse == None && l.continuity1 == None
  {
    var p := CreateProperty(Some(true));
    l := When(Some(p));
  }

  /** Events.ifFalse(): a listener whose condition is a fresh property holding false. */
  method IfFalse() returns (l: EventListener)
    ensures fresh(l) && l.condition.Some? && fresh(l.condition.value) && l.condition.value.Get() == Some(false)
    ensures l.whenTrue == None && l.continuity0 == None && l.whenFalse == None && l.continuity1 == None
  {
    var p := CreateProperty(Some(false));
    l := When(Some(p));
  }

  /**
   * Events.onChange(c, e): the event runs on every change of the condition,
   * whichever value it changed to, and never on a continuing check.
   */
  method OnChange(precondition: Option<Property<bool>>, event: Option<Event>) returns (l: EventListener)
    ensures fresh(l) && l.condition == precondition
    ensures precondition.Some? && precondition.value.Get().Some? ==>
              l.Execute(true) == Idle &&
              l.Execute(false) == (if event.Some? then Perform(event.value, l)
                                   else Fault(NullPointer(if precondition.value.Get().value then "whenTrue" else "whenFalse")))
  {
    l := When(precondition);
    l := l.Then(event, Some(Continuity.Once));
    l := l.Otherwise(event, Some(Continuity.Once));
  }

  /** Events.always(e): the event runs on every continuing check and never on a change. */
  method Always(event: Option<Event>) returns (l: EventListener)
    ensures fresh(l) && l.condition.Some? && fresh(l.condition.value)
    ensures l.Execute(false) == Idle
    ensures l.Execute(true) == (if event.Some? then Perform(event.value, l) else Fault(NullPointer("whenTrue")))
  {
    l := IfTrue();
    l := l.Then(event, Some(Continuity.Always));
  }

  /** Events.never(e): the event is attached to a condition that is false, so it never runs. */
  method Never(event: Option<Event>) returns (l: EventListener)
    ensures fresh(l) && l.condition.Some? && fresh(l.condition.value)
    ensures l.Execute(false) == Idle && l.Execute(true) == Idle
  {
    l := IfFalse();
    l := l.Then(event, Some(Continuity.Always));
  }
}
