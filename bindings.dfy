/**
 * Derived read-only properties: a BindingCondition reads a boolean property
 * (or its inverse), and a PropertyBinding picks one of two values by such a
 * condition. Neither supports listeners, set, bind or unbind, and their
 * update() does nothing.
 */
module Bindings {
  import opened Wrappers
  import opened Properties

  /** The Property operations the derived properties refuse. */
  datatype Operation =
    | AddListener | RemoveListener | GetListeners
    | AddEventListener | RemoveEventListener | GetEventListeners
    | SetValue | Bind | Unbind
  {
    /** The message of the UnsupportedOperationException the operation throws. */
    function Name(): string
    {
      match this
      case AddListener => "addListener"
      case RemoveListener => "removeListener"
      case GetListeners => "getListeners"
      case AddEventListener => "addEventListener"
      case RemoveEventListener => "removeEventListener"
      case GetEventListeners => "getEventListeners"
      case SetValue => "set"
      case Bind => "bind"
      case Unbind => "unbind"
    }
  }

  /** Any refused operation: it throws, naming itself, and changes nothing. */
  function Refuse(op: Operation): (out: Outcome)
    ensures out.Threw? && out.exception.UnsupportedOperation?
    ensures out.exception.operation == op.Name()
  {
    Threw(UnsupportedOperation(op.Name()))
  }

  /** Distinct refused operations throw distinct messages. */
  lemma RefusalsNameTheirOperation(a: Operation, b: Operation)
    ensures Refuse(a) == Refuse(b) <==> a == b
  {
  }

  /**
   * The boolean property a BindingCondition reads: as given (when), inverted
   * (whenNot), or null (when(null) or whenNot(null)).
   */
  datatype ConditionSource = Direct(property: Property<bool>) | Inverted(inverse: InverseBooleanProperty) | Absent
  {
    /** The objects whose state get() reads: the plain property underneath and its variable. */
    function Cells(): set<object>
    {
      match this
      case Direct(p) => {p as object} + p.Variables()
      case Inverted(q) => {q.property as object} + q.property.Variables()
      case Absent => {}
    }
  }

  class BindingCondition {
    const condition: ConditionSource

    constructor (condition: ConditionSource)
      ensures this.condition == condition
    {
      this.condition := condition;
    }

    /** get(): the wrapped condition's get(); a null condition throws NullPointerException. */
    function Get(): (r: Result<Option<bool>>)
      reads condition.Cells()
      ensures condition.Direct? ==> r == Success(condition.property.Get())
      ensures condition.Inverted? && condition.inverse.property.Get().Some? ==>
                r == Success(Some(!condition.inverse.property.Get().value))
      ensures condition.Inverted? && condition.inverse.property.Get().None? ==> r.Failure? && r.exception.NullPointer?
      ensures condition.Absent? ==> r == Failure(NullPointer("condition"))
    {
      match condition
      case Direct(p) => Success(p.Get())
      case Inverted(q) =>
        (match q.Get()
         case Success(b) => Success(Some(b))
         case Failure(e) => Failure(e))
      case Absent => Failure(NullPointer("condition"))
    }

    /** update(): has no effect. */
    method Update() returns (out: Outcome)
      ensures out == Normal
    {
      out := Normal;
    }

    /** then(v): a new PropertyBinding governed by this condition, yielding v when it holds. */
    method Then<T>(v: Option<T>) returns (b: PropertyBinding<T>)
      ensures fresh(b) && b.condition == Some(this) && b.whenTrue == v && b.whenFalse == None
    {
      b := new PropertyBinding();
      b := b.When(Some(this));
      b := b.Then(v);
    }
  }

  class PropertyBinding<T> {
    var condition: Option<BindingCondition>
    var whenTrue: Option<T>
    var whenFalse: Option<T>

    constructor ()
      ensures condition == None && whenTrue == None && whenFalse == None
    {
      condition := None;
      whenTrue := None;
      whenFalse := None;
    }

    /** The storage get() reads through the condition. */
    function ConditionCells(): set<object>
      reads this`condition
    {
      if condition.Some? then condition.value.condition.Cells() else {}
    }

    /**
     * get(): whenTrue when there is no condition or it holds, whenFalse when
     * it does not; a condition that reads null throws NullPointerException.
     */
    function Get(): (r: Result<Option<T>>)
      reads this, ConditionCells()
      ensures condition.None? ==> r == Success(whenTrue)
      ensures condition.Some? && condition.value.Get() == Success(Some(true)) ==> r == Success(whenTrue)
      ensures condition.Some? && condition.value.Get() == Success(Some(false)) ==> r == Success(whenFalse)
      ensures r.Failure? <==> condition.Some? && (condition.value.Get().Failure? || condition.value.Get() == Success(None))
      ensures r.Failure? ==> r.exception.NullPointer?
    {
      match condition
      case None => Success(whenTrue)
      case Some(c) =>
        match c.Get()
        case Failure(e) => Failure(e)
        case Success(v) =>
          match v
          case None => Failure(NullPointer("condition.get()"))
          case Some(b) => Success(if b then whenTrue else whenFalse)
    }

    /** update(): has no effect. */
    method Update() returns (out: Outcome)
      ensures out == Normal
    {
      out := Normal;
    }

    /** when(c): sets the condition only (None, for null, removes it), returning this binding. */
    method When(c: Option<BindingCondition>) returns (self: PropertyBinding<T>)
      modifies this`condition
      ensures self == this && condition == c
      ensures c.None? ==> Get() == Success(whenTrue)
    {
      condition := c;
      self := this;
    }

    /** then(v): sets the value used when the condition holds, returning this binding. */
    method Then(v: Option<T>) returns (self: PropertyBinding<T>)
      modifies this`whenTrue
      ensures self == this && whenTrue == v
    {
      whenTrue := v;
      self := this;
    }

    /** otherwise(v): sets the value used when the condition fails, returning this binding. */
    method Otherwise(v: Option<T>) returns (self: PropertyBinding<T>)
      modifies this`whenFalse
      ensures self == this && whenFalse == v
    {
      whenFalse := v;
      self := this;
    }
  }

  /** Bindings.when(c); a null c (None) gives a condition whose get() throws. */
  method When(c: Option<Property<bool>>) returns (b: BindingCondition)
    ensures fresh(b) && b.condition == (if c.Some? then Direct(c.value) else Absent)
    ensures c.Some? ==> b.Get() == Success(c.value.Get())
    ensures c.None? ==> b.Get().Failure? && b.Get().exception.NullPointer?
  {
    match c
    case Some(p) => b := new BindingCondition(Direct(p));
    case None => b := new BindingCondition(Absent);
  }

  /** Bindings.whenNot(c): the condition reads asInverse(c); a null c (None) gives one whose get() throws. */
  method WhenNot(c: Option<Property<bool>>) returns (b: BindingCondition)
    ensures fresh(b)
    ensures c.Some? ==> b.condition.Inverted? && fresh(b.condition.inverse) && b.condition.inverse.property == c.value
    ensures c.Some? && c.value.Get().Some? ==> b.Get() == Success(Some(!c.value.Get().value))
    ensures c.Some? && c.value.Get().None? ==> b.Get().Failure?
    ensures c.None? ==> b.Get().Failure? && b.Get().exception.NullPointer?
  {
    match c
    case Some(p) =>
      var inverse := AsInverse(p);
      b := new BindingCondition(Inverted(inverse));
    case None => b := new BindingCondition(Absent);
  }

  /** Bindings.ifTrue(): a condition over a fresh internal property holding true. */
  method IfTrue() returns (b: BindingCondition)
    ensures fresh(b) && b.condition.Direct? && fresh(b.condition.property)
    ensures b.Get() == Success(Some(true))
  {
    var p := CreateProperty(Some(true));
    b := When(Some(p));
  }

  /** Bindings.ifFalse(): a condition over a fresh internal property holding false. */
  method IfFalse() returns (b: BindingCondition)
    ensures fresh(b) && b.condition.Direct? && fresh(b.condition.property)
    ensures b.Get() == Success(Some(false))
  {
    var p := CreateProperty(Some(false));
    b := When(Some(p));
  }

  /** Bindings.create(): a PropertyBinding with no condition and null values, so its get() is null. */
  method Create<T>() returns (b: PropertyBinding<T>)
    ensures fresh(b) && b.condition == None && b.whenTrue == None && b.whenFalse == None
    ensures b.Get() == Success(None)
  {
    b := new PropertyBinding();
  }
}
