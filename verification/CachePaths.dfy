/**
 Several paths on one timeline: each path runs its own protocol, and a point allocated for any
 of them, or for none, is a point of all of them.
 */
module CachePaths {
  import opened Sequences
  import opened CacheKnowledge
  import opened CacheProtocol
  import opened CacheInvariant
  import opened CacheSteps
  import opened CacheSuperseded

  /** The paths with their common counter: the last point allocated, and all there are. */
  datatype Paths = Paths(stores: map<string, Store>, now: nat, points: set<nat>)

  /** An event of one path, or a point that no path asked for, such as a barrier. */
  datatype Move = OnPath(path: string, event: Event) | Tick(point: nat)

  function PointOf(e: Event): Option<nat>
  {
    match e
    case Allocate(point) => Some(point)
    case Dispatch(_, point) => Some(point)
    case Invoke(_, point) => Some(point)
    case _ => None
  }

  function PointIn(move: Move): Option<nat>
  {
    match move case OnPath(_, e) => PointOf(e) case Tick(point) => Some(point)
  }

  /** What a move is for one path: its own event, a point allocated elsewhere, or nothing. */
  function EventAt(move: Move, path: string): Option<Event>
  {
    if move.OnPath? && move.path == path then Some(move.event)
    else match PointIn(move) case None => None case Some(point) => Some(Allocate(point))
  }

  ghost predicate CanMove(w: World, ps: Paths, move: Move)
  {
    && (move.OnPath? ==> move.path in ps.stores && !move.event.Allocate?)
    && (PointIn(move).Some? ==> ps.now < PointIn(move).value)
    && forall path :: path in ps.stores && EventAt(move, path).Some? ==>
         Enabled(w, ps.stores[path], EventAt(move, path).value)
  }

  ghost function After(w: World, ps: Paths, move: Move, path: string): Store
    requires CanMove(w, ps, move) && path in ps.stores
  {
    match EventAt(move, path) case None => ps.stores[path] case Some(e) => Apply(w, ps.stores[path], e)
  }

  ghost function Moved(w: World, ps: Paths, move: Move): Paths
    requires CanMove(w, ps, move)
  {
    Paths(map path | path in ps.stores :: After(w, ps, move, path),
          match PointIn(move) case None => ps.now case Some(point) => point,
          ps.points + match PointIn(move) case None => {} case Some(point) => {point})
  }

  // The invariant -------------------------------------------------------------------------------

  ghost predicate OnTime(ps: Paths, s: Store)
  {
    s.clock == ps.now && s.born.Keys == ps.points
  }

  ghost predicate PathsInv(w: World, ps: Paths)
  {
    forall path :: path in ps.stores ==> Inv(w, ps.stores[path]) && OnTime(ps, ps.stores[path])
  }

  /** A path moved on: it grew, and what it handed out it still has. */
  ghost predicate MovesOn(s: Store, s': Store)
  {
    Grows(s, s') && s.handed <= s'.handed
  }

  ghost predicate AllMoveOn(stores: map<string, Store>, stores': map<string, Store>)
  {
    stores'.Keys == stores.Keys && forall path :: path in stores ==> MovesOn(stores[path], stores'[path])
  }

  /** The point the event allocates, and no other, is new; what was handed out stays. */
  ghost predicate TimeAfter(s: Store, e: Event, s': Store)
  {
    && s'.clock == (match PointOf(e) case None => s.clock case Some(point) => point)
    && s'.born.Keys == s.born.Keys + (match PointOf(e) case None => {} case Some(point) => {point})
    && s.handed <= s'.handed
  }

  lemma EventTime(w: World, s: Store, e: Event)
    requires Enabled(w, s, e)
    ensures TimeAfter(s, e, Apply(w, s, e))
  {
    hide Apply, Enabled, TimeAfter;
    if IsRead(e) {
      ReadTime(w, s, e);
    } else {
      WriteTime(w, s, e);
    }
  }

  lemma ReadTime(w: World, s: Store, e: Event)
    requires IsRead(e) && Enabled(w, s, e)
    ensures TimeAfter(s, e, Apply(w, s, e))
  {
    hide Enabled, Apply, TimeAfter;
    if e.Publish? || e.StartCheck? || e.FinishCheck? || e.Recheck? || e.CancelRead? || e.FailRead? {
      LongReadTime(w, s, e);
    } else {
      ShortReadTime(w, s, e);
    }
  }

  lemma LongReadTime(w: World, s: Store, e: Event)
    requires e.Publish? || e.StartCheck? || e.FinishCheck? || e.Recheck? || e.CancelRead? || e.FailRead?
    requires Enabled(w, s, e)
    ensures TimeAfter(s, e, Apply(w, s, e))
  {
    hide Published, StartChecking, Checked, Peek;
    if e.Publish? {
      PublishTime(w, s, e.t);
    } else if e.StartCheck? || e.FinishCheck? {
      CheckTime(w, s, e);
    }
  }

  lemma ShortReadTime(w: World, s: Store, e: Event)
    requires IsRead(e) && Enabled(w, s, e)
    requires !e.Publish? && !e.StartCheck? && !e.FinishCheck? && !e.Recheck? && !e.CancelRead? && !e.FailRead?
    ensures TimeAfter(s, e, Apply(w, s, e))
  {
    hide Linked, Peek, PresentSeed, ReadReply, WakePc;
  }

  lemma WriteTime(w: World, s: Store, e: Event)
    requires !IsRead(e) && Enabled(w, s, e)
    ensures TimeAfter(s, e, Apply(w, s, e))
  {
    hide Linked, Reconciled, CaptureExpected, ServeOutcome, CacheKnowledge.Advance;
    if e.Reconcile? {
      ReconcileTime(w, s, e.t);
    }
  }

  lemma PublishTime(w: World, s: Store, t: nat)
    requires Enabled(w, s, Publish(t))
    ensures TimeAfter(s, Publish(t), Published(w, s, t))
  {
    hide InstallFetched, InstallAbsent, ConfirmUnchanged;
  }

  lemma ReconcileTime(w: World, s: Store, t: nat)
    requires Enabled(w, s, Reconcile(t))
    ensures TimeAfter(s, Reconcile(t), Reconciled(s, t))
  {
    hide InstallApplied, InstallAbsent, InvalidateExpected;
  }

  lemma CheckTime(w: World, s: Store, e: Event)
    requires Enabled(w, s, e) && (e.StartCheck? || e.FinishCheck?)
    ensures TimeAfter(s, e, if e.StartCheck? then StartChecking(s, e.t, e.requirement, e.observed) else Checked(s, e.t))
  {
    hide CacheKnowledge.Advance, Peek;
  }

  lemma PathKeeps(w: World, ps: Paths, move: Move, path: string)
    requires ValidWorld(w) && PathsInv(w, ps) && CanMove(w, ps, move) && path in ps.stores
    ensures Inv(w, After(w, ps, move, path)) && OnTime(Moved(w, ps, move), After(w, ps, move, path))
    ensures MovesOn(ps.stores[path], After(w, ps, move, path))
  {
    hide Inv, Apply, Enabled, Grows;
    match EventAt(move, path)
    case None => Same(ps.stores[path]);
    case Some(e) =>
      EventKeeps(w, ps.stores[path], e);
      EventTime(w, ps.stores[path], e);
  }

  lemma MoveKeeps(w: World, ps: Paths, move: Move)
    requires ValidWorld(w) && PathsInv(w, ps) && CanMove(w, ps, move)
    ensures PathsInv(w, Moved(w, ps, move)) && AllMoveOn(ps.stores, Moved(w, ps, move).stores)
  {
    hide Inv, OnTime, MovesOn, CanMove, After;
    forall path | path in ps.stores
      ensures Inv(w, After(w, ps, move, path)) && OnTime(Moved(w, ps, move), After(w, ps, move, path))
      ensures MovesOn(ps.stores[path], After(w, ps, move, path))
    {
      PathKeeps(w, ps, move, path);
    }
  }

  /** One counter suffices: what a path may do by itself it may do among the others. */
  lemma PathsAgreeOnTime(w: World, ps: Paths, path: string, e: Event)
    requires PathsInv(w, ps) && path in ps.stores && Enabled(w, ps.stores[path], e) && !e.Allocate?
    ensures CanMove(w, ps, OnPath(path, e))
  {
    hide FlightsOk, TasksOk, HandedOk, Lane;
    EventIsLater(w, ps.stores[path], e);
    if PointOf(e).Some? {
      AnyLaterPoint(w, ps, PointOf(e).value);
    }
  }

  lemma EventIsLater(w: World, s: Store, e: Event)
    requires Enabled(w, s, e)
    ensures PointOf(e).Some? ==> s.clock < PointOf(e).value
  {
  }

  /** Any point after the last one is new to every path. */
  lemma AnyLaterPoint(w: World, ps: Paths, point: nat)
    requires PathsInv(w, ps) && ps.now < point
    ensures forall path :: path in ps.stores ==> Enabled(w, ps.stores[path], Allocate(point))
    ensures CanMove(w, ps, Tick(point))
  {
    hide FlightsOk, TasksOk, HandedOk, Lane;
    forall path | path in ps.stores ensures Enabled(w, ps.stores[path], Allocate(point)) {
      AlwaysLinked(w, ps.stores[path], Allocate(point));
    }
  }
}
