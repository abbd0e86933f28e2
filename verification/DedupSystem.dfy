/**
 The deduplicator as a whole: every key's cell, the shutdown flag, the shards that `close`
 has cleared, and the count of live owner tasks. A run is any interleaving of key events
 and close calls.
 */
module DedupSystem {
  import opened Sequences
  import opened DedupQueue
  import opened DedupMachine
  import opened DedupCell
  import opened DedupConservation
  import DC = DedupControl
  import DO = DedupOrder
  import DR = DedupRounds
  import DF = DedupFates

  datatype Shards = Shards(count: nat, of: string -> nat)

  ghost predicate ValidShards(sh: Shards)
  {
    forall k :: sh.of(k) < sh.count
  }

  datatype System<R(==)> = System(
    cells: map<string, Cell<R>>,
    closing: bool,                  // the shutdown token has fired
    swept: set<nat>,                // shards cleared since
    next: nat,                      // fresh names: driver ids, member channels, signals
    activeOwners: int,
    closers: map<nat, set<nat>>,    // per close call in progress, the shards it has cleared
    closed: bool)                   // some close call has returned

  datatype Turn<R> =
    | OnKey(key: string, event: Event<R>)
    | BeginClose(closer: nat)
    | SweepShard(closer: nat, shard: nat)
    | CloseReturns(closer: nat)

  ghost function Init<R(!new)>(): System<R>
  {
    System(map[], false, {}, 0, 0, map[], false)
  }

  ghost function CellAt<R(!new)>(sh: Shards, s: System<R>, key: string): Cell<R>
  {
    if key in s.cells then s.cells[key] else EmptyCell().(swept := sh.of(key) in s.swept)
  }

  /** The event hands the key to a fresh owner, which takes a permit. */
  ghost predicate Spawns<R(!new)>(p: Policy<R>, c: Cell<R>, closing: bool, next: nat, e: Event<R>)
  {
    c.machine.Some? &&
    match e
    case Finalize(d) => FinalizeCompletion(c.machine.value, d, next, c.dead).action.SpawnOwner?
    case Drop(d, dying) => DriverDropped(p, c.machine.value, d, closing, next, c.dead, c.dead + dying).action.SpawnOwner?
    case _ => false
  }

  /** An owner task ends, dropping its permit. */
  ghost predicate Releases<R(!new)>(c: Cell<R>, e: Event<R>)
  {
    (e.Return? || e.Drop?) && e.d in c.tasks && c.tasks[e.d].kind == Owner
  }

  ghost predicate CanDo<R(!new)>(sh: Shards, s: System<R>, a: Turn<R>)
  {
    match a
    case OnKey(key, e) => !e.Sweep? && Enabled(CellAt(sh, s, key), s.closing, e)
    case BeginClose(closer) => closer !in s.closers
    case SweepShard(closer, shard) => closer in s.closers && shard < sh.count
    case CloseReturns(closer) =>
      closer in s.closers && (forall i :: 0 <= i < sh.count ==> i in s.closers[closer]) && s.activeOwners == 0
  }

  ghost function DoKey<R(!new)>(p: Policy<R>, sh: Shards, s: System<R>, key: string, e: Event<R>): System<R>
    requires Enabled(CellAt(sh, s, key), s.closing, e)
  {
    var c := CellAt(sh, s, key);
    var owners := s.activeOwners + (if Spawns(p, c, s.closing, s.next, e) then 1 else 0) - (if Releases(c, e) then 1 else 0);
    s.(cells := s.cells[key := Apply(p, c, s.closing, s.next, e)], next := s.next + 1, activeOwners := owners)
  }

  ghost function SweptCells<R(!new)>(sh: Shards, cells: map<string, Cell<R>>, shard: nat): map<string, Cell<R>>
  {
    map key | key in cells :: if sh.of(key) == shard then DoSweep(cells[key]) else cells[key]
  }

  ghost function Do<R(!new)>(p: Policy<R>, sh: Shards, s: System<R>, a: Turn<R>): System<R>
    requires CanDo(sh, s, a)
  {
    match a
    case OnKey(key, e) => DoKey(p, sh, s, key, e)
    case BeginClose(closer) => s.(closing := true, closers := s.closers[closer := {}])
    case SweepShard(closer, shard) =>
      s.(cells := SweptCells(sh, s.cells, shard), swept := s.swept + {shard}, next := s.next + 1,
         closers := s.closers[closer := s.closers[closer] + {shard}])
    case CloseReturns(closer) => s.(closers := s.closers - {closer}, closed := true)
  }

  // The invariant --------------------------------------------------------------------------

  /** Every member is accounted for, in order, whatever became of the tasks. */
  ghost predicate Booked<R(!new)>(p: Policy<R>, c: Cell<R>, next: nat)
  {
    Conserved(c) && Named(c, next) && DO.Ordered(p, c) && DF.ResultsMatch(c.log)
  }

  ghost predicate Sound<R(!new)>(p: Policy<R>, c: Cell<R>, closing: bool, next: nat)
  {
    && DC.Control(c, closing, next)
    && Booked(p, c, next)
    && DR.Rounds(p, c, next) && DR.OwnResults(c, closing, next)
    && DF.OnlyDead(c.log.discarded, c.dead)
  }

  ghost predicate CellInv<R(!new)>(p: Policy<R>, c: Cell<R>, closing: bool, next: nat)
  {
    Booked(p, c, next) && (c.panicked || Sound(p, c, closing, next))
  }

  ghost function Owners<R(!new)>(cells: map<string, Cell<R>>): set<(string, nat)>
  {
    set key, d | key in cells && d in cells[key].tasks && cells[key].tasks[d].kind == Owner :: (key, d)
  }

  ghost predicate CellsInv<R(!new)>(p: Policy<R>, cells: map<string, Cell<R>>, closing: bool, next: nat)
  {
    forall key :: key in cells ==> CellInv(p, cells[key], closing, next)
  }

  ghost predicate SweptInv<R(!new)>(sh: Shards, cells: map<string, Cell<R>>, swept: set<nat>)
  {
    forall key :: key in cells ==> (cells[key].swept <==> sh.of(key) in swept)
  }

  /** What holds of the close calls: a call counts only shards that are cleared. */
  ghost predicate CloseInv<R(!new)>(sh: Shards, s: System<R>)
  {
    && (s.swept != {} || s.closers != map[] || s.closed ==> s.closing)
    && (forall k :: k in s.closers ==> s.closers[k] <= s.swept)
    && (s.closed ==> s.activeOwners == 0 && forall i :: 0 <= i < sh.count ==> i in s.swept)
  }

  ghost predicate Inv<R(!new)>(p: Policy<R>, sh: Shards, s: System<R>)
  {
    && CellsInv(p, s.cells, s.closing, s.next)
    && SweptInv(sh, s.cells, s.swept)
    && s.activeOwners == |Owners(s.cells)|
    && CloseInv(sh, s)
  }

  lemma EmptySound<R(!new)>(p: Policy<R>, swept: bool, closing: bool, next: nat)
    requires swept ==> closing
    ensures Sound(p, EmptyCell<R>().(swept := swept), closing, next)
  {
  }

  lemma CellInvKept<R(!new)>(p: Policy<R>, c: Cell<R>, closing: bool, next: nat, e: Event<R>)
    requires CellInv(p, c, closing, next) && Enabled(c, closing, e)
    ensures CellInv(p, Apply(p, c, closing, next, e), closing, next + 1)
  {
    BookedKept(p, c, closing, next, e);
    DC.ControlKept(p, c, closing, next, e);
    DR.RoundsKept(p, c, closing, next, e);
    DR.OwnKept(p, c, closing, next, e);
    DF.DeadKept(p, c, closing, next, e);
  }

  lemma BookedKept<R(!new)>(p: Policy<R>, c: Cell<R>, closing: bool, next: nat, e: Event<R>)
    requires Booked(p, c, next) && Enabled(c, closing, e)
    ensures Booked(p, Apply(p, c, closing, next, e), next + 1)
  {
    hide Apply, Enabled;
    ConservedKept(p, c, closing, next, e);
    NamedKept(p, c, closing, next, e);
    DO.OrderedKept(p, c, closing, next, e);
    DF.ResultsKept(p, c, closing, next, e);
  }

  /** A sweep also clears a key whose round panicked, and still accounts for its members. */
  lemma SweepBooked<R(!new)>(p: Policy<R>, c: Cell<R>, next: nat)
    requires Booked(p, c, next)
    ensures Booked(p, DoSweep(c), next + 1)
  {
    hide Apply, DoSweep, Conserved, Named, DO.Ordered, DF.ResultsMatch;
    var calm := c.(panicked := false);
    BookedSame(p, c, calm, next);
    SweepApplies(p, c, next);
    BookedKept(p, calm, true, next, Sweep);
    BookedSame(p, DoSweep(calm), DoSweep(c), next + 1);
  }

  lemma SweepApplies<R(!new)>(p: Policy<R>, c: Cell<R>, next: nat)
    ensures var calm := c.(panicked := false);
            && Enabled(calm, true, Sweep) && Apply(p, calm, true, next, Sweep) == DoSweep(calm)
            && DoSweep(c).machine == DoSweep(calm).machine && DoSweep(c).log == DoSweep(calm).log
            && DoSweep(c).dead == DoSweep(calm).dead
  {
    hide Book, DedupMachine.Close;
  }

  lemma BookedSame<R(!new)>(p: Policy<R>, c: Cell<R>, d: Cell<R>, next: nat)
    requires Booked(p, c, next) && d.machine == c.machine && d.log == c.log && d.dead == c.dead
    ensures Booked(p, d, next)
  {
    hide DF.ResultsMatch;
  }

  lemma SoundLater<R(!new)>(p: Policy<R>, c: Cell<R>, closing: bool, next: nat, closing': bool, next': nat)
    requires CellInv(p, c, closing, next) && (closing ==> closing') && next <= next'
    ensures CellInv(p, c, closing', next')
  {
    hide Conserved, DO.Ordered, DF.ResultsMatch, DF.OnlyDead, Fold, Requests;
    if !c.panicked && c.machine.Some? {
      assert DR.RoundOf(p, c.machine.value, c.tasks, c.fired, next');
    }
  }

  // Counting owners ------------------------------------------------------------------------

  ghost function OwnerIds<R(!new)>(tasks: map<nat, Task<R>>): set<nat>
  {
    set d | d in tasks && tasks[d].kind == Owner
  }

  /** Moving a task, or swapping what it saw, leaves the owners as they were. */
  lemma SameKind<R(!new)>(tasks: map<nat, Task<R>>, d: nat, t: Task<R>)
    requires d in tasks && t.kind == tasks[d].kind
    ensures OwnerIds(tasks[d := t]) == OwnerIds(tasks)
  {
  }

  lemma ReserveAdds<R(!new)>(tasks: map<nat, Task<R>>, action: DedupMachine.Action, next: nat)
    requires action.SpawnOwner? ==> action.owner == next
    ensures OwnerIds(Reserve(tasks, action)) == OwnerIds(tasks) + if action.SpawnOwner? then {next} else {}
  {
  }

  ghost function OwnersAfter<R(!new)>(p: Policy<R>, c: Cell<R>, closing: bool, next: nat, e: Event<R>): set<nat>
  {
    OwnerIds(c.tasks) + (if Spawns(p, c, closing, next, e) then {next} else {}) - (if Releases(c, e) then {e.d} else {})
  }

  lemma FinalizeOwners<R(!new)>(p: Policy<R>, c: Cell<R>, closing: bool, next: nat, d: nat)
    requires d in c.tasks
    ensures OwnerIds(DoFinalize(c, next, d).tasks) == OwnersAfter(p, c, closing, next, Finalize(d))
  {
    hide Book, Prune;
    if c.machine.None? {
      SameKind(c.tasks, d, c.tasks[d].(pc := Returning));
    } else {
      var m := c.machine.value;
      var s := FinalizeCompletion(m, d, next, c.dead);
      var t := c.tasks[d].(pc := if s.reply.Again? then AtStart else Returning);
      SameKind(c.tasks, d, t);
      if m.phase.Completing? && m.phase.driver.id == d {
        FinalizeShape(m, d, next, c.dead);
      }
      ReserveAdds(c.tasks[d := t], s.action, next);
    }
  }

  lemma DropOwners<R(!new)>(p: Policy<R>, c: Cell<R>, closing: bool, next: nat, d: nat, dying: set<nat>)
    requires d in c.tasks && d < next
    ensures OwnerIds(DoDrop(p, c, closing, next, d, dying).tasks) == OwnersAfter(p, c, closing, next, Drop(d, dying))
  {
    hide DriverDropped, Book;
    if c.machine.Some? {
      var s := DriverDropped(p, c.machine.value, d, closing, next, c.dead, c.dead + dying);
      DropShape(p, c.machine.value, d, closing, next, c.dead, c.dead + dying);
      ReserveAdds(c.tasks - {d}, s.action, next);
    }
  }

  lemma RoundOwners<R(!new)>(p: Policy<R>, c: Cell<R>, closing: bool, next: nat, d: nat, dying: set<nat>)
    requires d in c.tasks
    ensures OwnerIds(DoStart(p, c, closing, next, d, dying).tasks) == OwnerIds(c.tasks)
    ensures OwnerIds(DoCallMerged(p, c, d).tasks) == OwnerIds(c.tasks)
  {
    if c.machine.None? {
      SameKind(c.tasks, d, c.tasks[d].(pc := Returning));
    } else {
      var m, later := c.machine.value, c.dead + dying;
      var s := StartRound(p, m, d, closing, next, c.dead, later);
      if m.phase.Ready? && m.phase.driver.id == d {
        StartShape(p, m, d, closing, next, c.dead, later);
      }
      SameKind(c.tasks, d, StartTask(c.tasks[d], s));
      RefreshShape(p, m, d, c.dead);
      SameKind(c.tasks, d, c.tasks[d].(seen := Folded(Refresh(p, m, d, c.dead))));
    }
  }

  lemma EventOwners<R(!new)>(p: Policy<R>, c: Cell<R>, closing: bool, next: nat, e: Event<R>)
    requires DC.Control(c, closing, next) && Enabled(c, closing, e)
    ensures OwnerIds(Apply(p, c, closing, next, e).tasks) == OwnersAfter(p, c, closing, next, e)
  {
    hide DoStart, DoCallMerged, DoFinalize, DoDrop, OwnersAfter;
    match e
    case Start(d, dying) => RoundOwners(p, c, closing, next, d, dying); QuietOwners(p, c, closing, next, e);
    case CallMerged(d) => RoundOwners(p, c, closing, next, d, {}); QuietOwners(p, c, closing, next, e);
    case Finalize(d) => FinalizeOwners(p, c, closing, next, d);
    case Drop(d, dying) => DropOwners(p, c, closing, next, d, dying);
    case _ => OtherOwners(p, c, closing, next, e);
  }

  lemma QuietOwners<R(!new)>(p: Policy<R>, c: Cell<R>, closing: bool, next: nat, e: Event<R>)
    requires !e.Finalize? && !e.Drop? && !e.Return?
    ensures OwnersAfter(p, c, closing, next, e) == OwnerIds(c.tasks)
  {
  }

  lemma OtherOwners<R(!new)>(p: Policy<R>, c: Cell<R>, closing: bool, next: nat, e: Event<R>)
    requires DC.Control(c, closing, next) && Enabled(c, closing, e)
    requires !e.Start? && !e.CallMerged? && !e.Finalize? && !e.Drop?
    ensures OwnerIds(Apply(p, c, closing, next, e).tasks) == OwnersAfter(p, c, closing, next, e)
  {
    hide Book, Members;
  }

  ghost function Tagged(key: string, ids: set<nat>): set<(string, nat)>
  {
    set d | d in ids :: (key, d)
  }

  lemma TaggedSize(key: string, ids: set<nat>)
    ensures |Tagged(key, ids)| == |ids|
    decreases |ids|
  {
    if ids != {} {
      var d :| d in ids;
      TaggedSize(key, ids - {d});
      assert Tagged(key, ids) == Tagged(key, ids - {d}) + {(key, d)};
    }
  }

  /** The owners of all keys are those of one key and those of the others. */
  lemma OwnersSplit<R(!new)>(cells: map<string, Cell<R>>, key: string, c: Cell<R>)
    ensures |Owners(cells[key := c])| == |Owners(cells - {key})| + |OwnerIds(c.tasks)|
  {
    hide Owners;
    var mine, rest := Tagged(key, OwnerIds(c.tasks)), Owners(cells - {key});
    TaggedSize(key, OwnerIds(c.tasks));
    OwnersUnion(cells, key, c);
    assert |rest + mine| == |rest| + |mine|;
  }

  lemma OwnersUnion<R(!new)>(cells: map<string, Cell<R>>, key: string, c: Cell<R>)
    ensures Owners(cells[key := c]) == Owners(cells - {key}) + Tagged(key, OwnerIds(c.tasks))
    ensures Owners(cells - {key}) !! Tagged(key, OwnerIds(c.tasks))
  {
  }

  lemma EventOwnersSize<R(!new)>(p: Policy<R>, c: Cell<R>, closing: bool, next: nat, e: Event<R>)
    requires DC.Control(c, closing, next) && Enabled(c, closing, e)
    ensures |OwnerIds(Apply(p, c, closing, next, e).tasks)| ==
            |OwnerIds(c.tasks)| + (if Spawns(p, c, closing, next, e) then 1 else 0) - (if Releases(c, e) then 1 else 0)
  {
    EventOwners(p, c, closing, next, e);
    SizeAfter(OwnerIds(c.tasks), OwnersAfter(p, c, closing, next, e), next, if Releases(c, e) then e.d else next,
              Spawns(p, c, closing, next, e), Releases(c, e));
  }

  lemma OwnersCounted<R(!new)>(p: Policy<R>, sh: Shards, s: System<R>, key: string, e: Event<R>)
    requires s.activeOwners == |Owners(s.cells)| && DC.Control(CellAt(sh, s, key), s.closing, s.next)
    requires Enabled(CellAt(sh, s, key), s.closing, e)
    ensures var s' := DoKey(p, sh, s, key, e);
            s'.activeOwners == |Owners(s'.cells)|
  {
    var c := CellAt(sh, s, key);
    EventOwnersSize(p, c, s.closing, s.next, e);
    OwnersSplit(s.cells, key, c);
    OwnersSplit(s.cells, key, Apply(p, c, s.closing, s.next, e));
    OwnersHere(sh, s, key);
  }

  lemma OwnersHere<R(!new)>(sh: Shards, s: System<R>, key: string)
    ensures Owners(s.cells[key := CellAt(sh, s, key)]) == Owners(s.cells)
  {
  }

  lemma SizeAfter(before: set<nat>, after: set<nat>, next: nat, gone: nat, adds: bool, drops: bool)
    requires next !in before && (drops ==> gone in before)
    requires after == before + (if adds then {next} else {}) - (if drops then {gone} else {})
    ensures |after| == |before| + (if adds then 1 else 0) - (if drops then 1 else 0)
  {
    var grown := before + if adds then {next} else {};
    assert |grown| == |before| + if adds then 1 else 0;
    if drops {
      assert after == grown - {gone};
    } else {
      assert after == grown;
    }
  }
}
