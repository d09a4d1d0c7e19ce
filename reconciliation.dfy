/**
 * The reconciliation rules of a Binding, as pure functions over the binding's
 * state: the root's and the guest's current values and the two shadows
 * rootOld and guestOld the binding remembers from its previous update.
 *
 * A `set` call on a property has one of three effects: it stores the value
 * (an internal property, or an external one whose setter writes what its
 * getter reads), it is ignored (an external property with a null setter), or
 * it throws UnsupportedOperationException (a `readOnly()` setter).
 */
module Reconciliation {
  import opened Wrappers
  import opened Observables

  /** BindingOrder: which side takes precedence, and whether changes flow both ways. */
  datatype BindingOrder = Dominant | Recessive | BidirectionalDominant | BidirectionalRecessive
  {
    /** The orders under which sync() copies the root into the guest. */
    predicate RootWins() { this == Dominant || this == BidirectionalDominant }
    /** The orders under which update() pushes a changed side before syncing. */
    predicate Bidirectional() { this == BidirectionalDominant || this == BidirectionalRecessive }
  }

  /** What a property's `set` does with the value it is given. */
  datatype SetterEffect = Stores | Ignores | Rejects

  /** The value a property holds after a `set` call, and how the call ended. */
  datatype Written<T> = Written(value: Option<T>, outcome: Outcome)

  /** One `set(v)` call on a property that currently reads `current`. */
  function Write<T>(effect: SetterEffect, current: Option<T>, v: Option<T>): (w: Written<T>)
    ensures w.value == v || w.value == current
    ensures w.outcome.Threw? <==> effect == Rejects
    ensures w.outcome.Threw? ==> w.value == current && w.outcome.exception == UnsupportedOperation("set")
    ensures effect == Stores ==> w == Written(v, Normal)
    ensures effect == Ignores ==> w == Written(current, Normal)
  {
    match effect
    case Stores => Written(v, Normal)
    case Ignores => Written(current, Normal)
    case Rejects => Written(current, Threw(UnsupportedOperation("set")))
  }

  /** A binding's state: both live values and both shadows. */
  datatype State<T> = State(root: Option<T>, guest: Option<T>, rootOld: Option<T>, guestOld: Option<T>)

  /** The state after an operation, and whether the operation threw. */
  datatype Step<T> = Step(after: State<T>, outcome: Outcome)

  /** The side update() copies before syncing, if any. */
  datatype Push = NoPush | RootToGuest | GuestToRoot

  /** The two values after sync(), and how sync() ended. */
  datatype Synced<T> = Synced(root: Option<T>, guest: Option<T>, outcome: Outcome)

  /**
   * The order-specific switch of update(): a side is pushed only when it
   * changed since the last update and differs from the other side; the
   * dominant bidirectional order checks the root first, the recessive one
   * the guest first; the one-way orders never push.
   */
  function PushOf<T(==)>(order: BindingOrder, rootNew: Option<T>, guestNew: Option<T>,
                         rootOld: Option<T>, guestOld: Option<T>): (p: Push)
    ensures !order.Bidirectional() ==> p == NoPush
    ensures Equals(rootNew, guestNew) ==> p == NoPush
    ensures p == RootToGuest ==> !Equals(rootOld, rootNew)
    ensures p == GuestToRoot ==> !Equals(guestOld, guestNew)
    ensures order.Bidirectional() && !Equals(rootNew, guestNew) ==>
              (p == NoPush <==> Equals(rootOld, rootNew) && Equals(guestOld, guestNew))
    // a simultaneous change is won by the side the order favours
    ensures order == BidirectionalDominant && !Equals(rootNew, guestNew) && !Equals(rootOld, rootNew) ==>
              p == RootToGuest
    ensures order == BidirectionalRecessive && !Equals(rootNew, guestNew) && !Equals(guestOld, guestNew) ==>
              p == GuestToRoot
  {
    var rootChanged := !Equals(rootOld, rootNew);
    var guestChanged := !Equals(guestOld, guestNew);
    var differ := !Equals(guestNew, rootNew);
    match order
    case BidirectionalDominant =>
      if rootChanged && differ then RootToGuest
      else if guestChanged && differ then GuestToRoot
      else NoPush
    case BidirectionalRecessive =>
      if guestChanged && differ then GuestToRoot
      else if rootChanged && differ then RootToGuest
      else NoPush
    case Dominant => NoPush
    case Recessive => NoPush
  }

  /**
   * sync(): nothing is written when the two values are equal; otherwise the
   * side without precedence is set to the value of the side with it.
   */
  function Sync<T(==)>(order: BindingOrder, rootEffect: SetterEffect, guestEffect: SetterEffect,
                       root: Option<T>, guest: Option<T>): (s: Synced<T>)
    ensures Equals(root, guest) ==> s == Synced(root, guest, Normal)
    ensures order.RootWins() ==> s.root == root
    ensures !order.RootWins() ==> s.guest == guest
    ensures order.RootWins() && guestEffect == Stores ==> s == Synced(root, root, Normal)
    ensures !order.RootWins() && rootEffect == Stores ==> s == Synced(guest, guest, Normal)
    ensures s.outcome.Threw? <==>
              !Equals(root, guest) && (if order.RootWins() then guestEffect else rootEffect) == Rejects
    ensures s.outcome.Threw? ==> s.root == root && s.guest == guest
    // a loser with a null setter keeps its value, and nothing throws
    ensures (if order.RootWins() then guestEffect else rootEffect) == Ignores ==> s == Synced(root, guest, Normal)
  {
    if Equals(root, guest) then Synced(root, guest, Normal)
    else if order.RootWins() then
      var w := Write(guestEffect, guest, root);
      Synced(root, w.value, w.outcome)
    else
      var w := Write(rootEffect, root, guest);
      Synced(w.value, guest, w.outcome)
  }

  /**
   * The tail of update(): sync() on the values the properties now hold, then
   * the shadows become the local post-push values `rootNew`/`guestNew`, not the
   * values re-read after sync(). When sync() throws the shadows keep their
   * previous values.
   */
  function Finish<T(==)>(order: BindingOrder, rootEffect: SetterEffect, guestEffect: SetterEffect,
                         s: State<T>, root: Option<T>, guest: Option<T>,
                         rootNew: Option<T>, guestNew: Option<T>): (r: Step<T>)
  {
    var sy := Sync(order, rootEffect, guestEffect, root, guest);
    if sy.outcome.Threw? then Step(State(sy.root, sy.guest, s.rootOld, s.guestOld), sy.outcome)
    else Step(State(sy.root, sy.guest, rootNew, guestNew), Normal)
  }

  /** Binding.update(), on the state it starts from. */
  function Update<T(==)>(order: BindingOrder, rootEffect: SetterEffect, guestEffect: SetterEffect,
                         s: State<T>): (r: Step<T>)
    // with setters that store what they are given, the two sides agree afterwards
    ensures rootEffect == Stores && guestEffect == Stores ==>
              r.outcome == Normal && r.after.root == r.after.guest
    // equal values: no setter is called and the shadows catch up with the values
    ensures Equals(s.root, s.guest) ==> r == Step(State(s.root, s.guest, s.root, s.guest), Normal)
    // an exception leaves the shadows as they were
    ensures r.outcome.Threw? ==> r.after.rootOld == s.rootOld && r.after.guestOld == s.guestOld
    ensures r.outcome.Threw? ==> r.outcome.exception == UnsupportedOperation("set")
    // DOMINANT never changes the root, RECESSIVE never changes the guest
    ensures order == Dominant ==> r.after.root == s.root
    ensures order == Recessive ==> r.after.guest == s.guest
    ensures order == Dominant && guestEffect == Stores ==> r.after.guest == s.root
    ensures order == Recessive && rootEffect == Stores ==> r.after.root == s.guest
    // the one-way orders ignore the shadows: they remember the values read
    ensures !order.Bidirectional() && r.outcome.Normal? ==>
              r.after.rootOld == s.root && r.after.guestOld == s.guest
    // bidirectional orders: a change on either side propagates to the other
    ensures order.Bidirectional() && rootEffect == Stores && guestEffect == Stores &&
            Equals(s.rootOld, s.root) && !Equals(s.guestOld, s.guest) ==>
              r.after == State(s.guest, s.guest, s.guest, s.guest)
    ensures order.Bidirectional() && rootEffect == Stores && guestEffect == Stores &&
            !Equals(s.rootOld, s.root) && Equals(s.guestOld, s.guest) ==>
              r.after == State(s.root, s.root, s.root, s.root)
    // no change on either side: sync() sets the side without precedence to the other's value
    ensures rootEffect == Stores && guestEffect == Stores && Equals(s.rootOld, s.root) && Equals(s.guestOld, s.guest) ==>
              r.after.root == r.after.guest && r.after.guest == (if order.RootWins() then s.root else s.guest)
    // a one-way order whose losing side has a null setter writes nothing and remembers the values read
    ensures order == Dominant && guestEffect == Ignores ==> r == Step(State(s.root, s.guest, s.root, s.guest), Normal)
    ensures order == Recessive && rootEffect == Ignores ==> r == Step(State(s.root, s.guest, s.root, s.guest), Normal)
    // a simultaneous change is won by the favoured side
    ensures order == BidirectionalDominant && rootEffect == Stores && guestEffect == Stores &&
            !Equals(s.rootOld, s.root) && !Equals(s.guestOld, s.guest) ==>
              r.after == State(s.root, s.root, s.root, s.root)
    ensures order == BidirectionalRecessive && rootEffect == Stores && guestEffect == Stores &&
            !Equals(s.rootOld, s.root) && !Equals(s.guestOld, s.guest) ==>
              r.after == State(s.guest, s.guest, s.guest, s.guest)
  {
    var rootNew := s.root;
    var guestNew := s.guest;
    match PushOf(order, rootNew, guestNew, s.rootOld, s.guestOld)
    case NoPush =>
      Finish(order, rootEffect, guestEffect, s, rootNew, guestNew, rootNew, guestNew)
    case RootToGuest =>
      var w := Write(guestEffect, guestNew, rootNew);
      if w.outcome.Threw? then Step(s, w.outcome)
      else Finish(order, rootEffect, guestEffect, s, rootNew, w.value, rootNew, rootNew)
    case GuestToRoot =>
      var w := Write(rootEffect, rootNew, guestNew);
      if w.outcome.Threw? then Step(s, w.outcome)
      else Finish(order, rootEffect, guestEffect, s, w.value, guestNew, guestNew, guestNew)
  }

  /**
   * The Binding constructor after its null check: sync(), then both shadows
   * are read from the properties. When sync() throws no binding exists and
   * only the property values are meaningful.
   */
  function Construct<T(==)>(order: BindingOrder, rootEffect: SetterEffect, guestEffect: SetterEffect,
                            root: Option<T>, guest: Option<T>): (r: Step<T>)
    ensures r.outcome.Normal? ==> r.after.rootOld == r.after.root && r.after.guestOld == r.after.guest
    ensures rootEffect == Stores && guestEffect == Stores ==> r.outcome == Normal && r.after.root == r.after.guest
    ensures order.RootWins() ==> r.after.root == root
    ensures !order.RootWins() ==> r.after.guest == guest
    ensures order.RootWins() && guestEffect == Stores ==> r.after.guest == root
    ensures !order.RootWins() && rootEffect == Stores ==> r.after.root == guest
    ensures Equals(root, guest) ==> r == Step(State(root, guest, root, guest), Normal)
  {
    var sy := Sync(order, rootEffect, guestEffect, root, guest);
    Step(State(sy.root, sy.guest, sy.root, sy.guest), sy.outcome)
  }

  /** An update right after a successful construction changes nothing. */
  lemma ConstructionStable<T>(order: BindingOrder, rootEffect: SetterEffect, guestEffect: SetterEffect,
                                  root: Option<T>, guest: Option<T>)
    requires Construct(order, rootEffect, guestEffect, root, guest).outcome.Normal?
    ensures var c := Construct(order, rootEffect, guestEffect, root, guest);
            Update(order, rootEffect, guestEffect, c.after) == Step(c.after, Normal)
  {
    var c := Construct(order, rootEffect, guestEffect, root, guest);
    assert PushOf(order, c.after.root, c.after.guest, c.after.rootOld, c.after.guestOld) == NoPush;
    if !Equals(root, guest) {
      var losing := if order.RootWins() then guestEffect else rootEffect;
      assert losing == Ignores ==> c.after.root == root && c.after.guest == guest;
    }
  }

  /**
   * With storing setters, a second update with no outside change in between
   * writes nothing and leaves every shadow equal to the shared value.
   */
  lemma SecondUpdateSettles<T>(order: BindingOrder, s: State<T>)
    ensures var r1 := Update(order, Stores, Stores, s);
            var v := r1.after.root;
            Update(order, Stores, Stores, r1.after) == Step(State(v, v, v, v), Normal)
  {
    var r1 := Update(order, Stores, Stores, s);
    assert Equals(r1.after.root, r1.after.guest);
  }

  /**
   * The shadows are the locals read before sync(): under RECESSIVE a differing
   * root is overwritten with the guest's value while rootOld remembers the
   * value the root had before.
   */
  lemma ShadowsNotReRead<T>(s: State<T>)
    requires !Equals(s.root, s.guest)
    ensures var r := Update(Recessive, Stores, Stores, s);
            r.after.root == s.guest && r.after.rootOld == s.root && r.after.rootOld != r.after.root
  {
  }

  /**
   * Without storing setters agreement is not guaranteed: a guest whose setter
   * is null keeps its value under DOMINANT.
   */
  lemma EqualityNeedsStoringSetters()
    ensures var r := Update(Dominant, Stores, Ignores, State(Some(1), Some(2), Some(1), Some(2)));
            r.outcome == Normal && r.after.root != r.after.guest
  {
  }

  /**
   * The shadows record the value pushed, not the value the guest kept: under
   * BIDIRECTIONAL_DOMINANT a root change pushed into a guest with a null
   * setter is undone by the next update, which sees the guest as changed and
   * pushes its value into the root.
   */
  lemma IgnoredPushUndoneLater()
    ensures var r1 := Update(BidirectionalDominant, Stores, Ignores, State(Some(2), Some(3), Some(1), Some(3)));
            && r1 == Step(State(Some(2), Some(3), Some(2), Some(2)), Normal)
            && Update(BidirectionalDominant, Stores, Ignores, r1.after) == Step(State(Some(3), Some(3), Some(3), Some(3)), Normal)
  {
  }
}
