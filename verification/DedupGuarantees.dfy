/** What callers, workers and `close` are promised, in every state of every run. */
module DedupGuarantees {
  import opened Sequences
  import opened DedupQueue
  import opened DedupMachine
  import opened DedupCell
  import opened DedupConservation
  import opened DedupSystem
  import opened DedupRuns
  import DC = DedupControl
  import DR = DedupRounds
  import DF = DedupFates

  ghost function CellIn<R(!new)>(sh: Shards, run: Run<R>, i: nat, key: string): Cell<R>
    requires i < |run.states|
  {
    CellAt(sh, run.states[i], key)
  }

  // One key's view of a run ----------------------------------------------------------------

  /** The event a turn is for one key, if any: a sweep reaches every key of its shard. */
  ghost function EventFor<R(!new)>(sh: Shards, key: string, turn: Turn<R>): Option<Event<R>>
  {
    match turn
    case OnKey(k, e) => if k == key then Some(e) else None
    case SweepShard(_, shard) => if sh.of(key) == shard then Some(Sweep) else None
    case _ => None
  }

  lemma TurnMovesCell<R(!new)>(p: Policy<R>, sh: Shards, s: System<R>, key: string, a: Turn<R>)
    requires CloseInv(sh, s) && CanDo(sh, s, a) && !CellAt(sh, s, key).panicked
    ensures var c := CellAt(sh, s, key);
            var c' := CellAt(sh, Do(p, sh, s, a), key);
            match EventFor(sh, key, a)
            case None => c' == c
            case Some(e) => Enabled(c, s.closing, e) && c' == Apply(p, c, s.closing, s.next, e)
  {
  }

  lemma PanicStays<R(!new)>(p: Policy<R>, sh: Shards, s: System<R>, key: string, a: Turn<R>)
    requires CanDo(sh, s, a) && CellAt(sh, s, key).panicked
    ensures CellAt(sh, Do(p, sh, s, a), key).panicked
  {
  }

  /** Between two states of a run a key stays put or takes one enabled event. */
  lemma CellMoves<R(!new)>(p: Policy<R>, sh: Shards, run: Run<R>, i: nat, key: string)
    requires ValidRun(p, sh, run) && i < |run.turns| && !CellIn(sh, run, i + 1, key).panicked
    ensures var s, c := run.states[i], CellIn(sh, run, i, key);
            && !c.panicked && Sound(p, c, s.closing, s.next)
            && match EventFor(sh, key, run.turns[i])
               case None => CellIn(sh, run, i + 1, key) == c
               case Some(e) =>
                 Enabled(c, s.closing, e) && CellIn(sh, run, i + 1, key) == Apply(p, c, s.closing, s.next, e)
  {
    hide Sound, Enabled, Apply, CellsInv, SweptInv;
    assert Follows(p, sh, run, i);
    if CellIn(sh, run, i, key).panicked {
      PanicStays(p, sh, run.states[i], key, run.turns[i]);
    }
    AlwaysInv(p, sh, run, i);
    AlwaysSound(p, sh, run, i, key);
    TurnMovesCell(p, sh, run.states[i], key, run.turns[i]);
  }

  /** The same with panicked keys: nothing but a sweep reaches them. */
  lemma CellSteps<R(!new)>(p: Policy<R>, sh: Shards, run: Run<R>, i: nat, key: string)
    requires ValidRun(p, sh, run) && i < |run.turns|
    ensures var s, c := run.states[i], CellIn(sh, run, i, key);
            && Booked(p, c, s.next)
            && match EventFor(sh, key, run.turns[i])
               case None => CellIn(sh, run, i + 1, key) == c
               case Some(e) =>
                 if c.panicked then CellIn(sh, run, i + 1, key) == DoSweep(c)
                 else Enabled(c, s.closing, e) && CellIn(sh, run, i + 1, key) == Apply(p, c, s.closing, s.next, e)
  {
    hide Booked, Apply, CellsInv, SweptInv, DoSweep;
    assert Follows(p, sh, run, i);
    AlwaysInv(p, sh, run, i);
    AlwaysBooked(p, sh, run, i, key);
    if !CellIn(sh, run, i, key).panicked {
      TurnMovesCell(p, sh, run.states[i], key, run.turns[i]);
    }
  }

  // One entitled party ---------------------------------------------------------------------

  /** The task is the one the key's phase names, standing where that phase expects it. */
  ghost predicate EntitledTask<R(!new)>(c: Cell<R>, d: nat)
  {
    c.machine.Some? && d in c.tasks && DC.Matches(c.machine.value.phase, d, c.tasks[d])
  }

  lemma OneEntitledParty<R(!new)>(p: Policy<R>, sh: Shards, run: Run<R>, i: nat, key: string)
    requires ValidRun(p, sh, run) && i < |run.states| && !CellIn(sh, run, i, key).panicked
    ensures var c := CellIn(sh, run, i, key);
            && (c.machine.Some? ==> forall d :: EntitledTask(c, d) <==> d == Entitled(c.machine.value.phase))
            && (forall d :: d in c.tasks && !c.swept && !EntitledTask(c, d) ==> c.tasks[d].pc == Returning)
            && (forall d, e :: d in c.tasks && e in c.tasks && c.tasks[d].pc.InWorker? && c.tasks[e].pc.InWorker? ==> d == e)
  {
    AlwaysSound(p, sh, run, i, key);
    ControlNamesOne(CellIn(sh, run, i, key), run.states[i].closing, run.states[i].next);
  }

  lemma ControlNamesOne<R(!new)>(c: Cell<R>, closing: bool, next: nat)
    requires DC.Control(c, closing, next)
    ensures c.machine.Some? ==> forall d :: EntitledTask(c, d) <==> d == Entitled(c.machine.value.phase)
    ensures forall d :: d in c.tasks && !c.swept && !EntitledTask(c, d) ==> c.tasks[d].pc == Returning
  {
    if c.machine.Some? {
      assert EntitledTask(c, Entitled(c.machine.value.phase));
    }
  }

  /** The task an event belongs to. */
  function TaskOf<R>(e: Event<R>): Option<nat>
  {
    match e
    case Submit(_) => None
    case Kill(_) => None
    case Sweep => None
    case _ => Some(e.d)
  }

  /** A task the phase does not name cannot change the machine, whatever it does. */
  lemma StrangersLeaveTheMachine<R(!new)>(p: Policy<R>, c: Cell<R>, closing: bool, next: nat, e: Event<R>)
    requires Enabled(c, closing, e) && TaskOf(e).Some? && DC.Control(c, closing, next)
    requires !EntitledTask(c, TaskOf(e).value)
    ensures Apply(p, c, closing, next, e).machine == c.machine
  {
    if c.machine.Some? {
      var m := c.machine.value;
      StrangersChangeNothing(p, m, e.d, closing, next, c.dead, c.dead + Dying(e),
                             if e.FinishRound? then c.tasks[e.d].pc.outcome else Liveness);
    }
  }

  // Every member is in one place ------------------------------------------------------------

  ghost function PlacesOf<R(!new)>(c: Cell<R>, m: Member<R>): nat
  {
    (if c.machine.Some? then
       var q := c.machine.value.queue;
       multiset(q.batch)[m] + multiset(q.reorderable)[m] + multiset(q.fifo)[m]
     else 0)
    + multiset(c.log.pending)[m] + c.log.delivered[m] + c.log.discarded[m] + c.log.retired[m]
  }

  lemma ExactlyOnePlace<R(!new)>(p: Policy<R>, sh: Shards, run: Run<R>, i: nat, key: string, m: Member<R>)
    requires ValidRun(p, sh, run) && i < |run.states|
    ensures var c := CellIn(sh, run, i, key);
            PlacesOf(c, m) == if m in c.log.submitted then 1 else 0
  {
    AlwaysBooked(p, sh, run, i, key);
    CountPlaces(CellIn(sh, run, i, key), m);
  }

  lemma CountPlaces<R(!new)>(c: Cell<R>, m: Member<R>)
    requires Conserved(c)
    ensures PlacesOf(c, m) == if m in c.log.submitted then 1 else 0
  {
    assert PlacesOf(c, m) == Places(Queued(c.machine), c.log)[m];
  }

  /** The run has not begun to close, and no round start so far met a torn seed. */
  ghost predicate Undisturbed<R(!new)>(sh: Shards, run: Run<R>, n: nat)
    requires n < |run.states| && |run.states| == |run.turns| + 1
  {
    && (forall i :: 0 <= i < n ==> !run.turns[i].BeginClose?)
    && (forall i :: 0 <= i < n && run.turns[i].OnKey? ==>
          NotTorn(CellIn(sh, run, i, run.turns[i].key), run.turns[i].event))
  }

  lemma {:induction false} NotClosing<R(!new)>(p: Policy<R>, sh: Shards, run: Run<R>, i: nat)
    requires ValidRun(p, sh, run) && i < |run.states| && Undisturbed(sh, run, i)
    ensures !run.states[i].closing
  {
    if i > 0 {
      NotClosing(p, sh, run, i - 1);
      assert Follows(p, sh, run, i - 1);
    }
  }

  lemma TurnRetiresNobody<R(!new)>(p: Policy<R>, sh: Shards, run: Run<R>, i: nat, key: string)
    requires ValidRun(p, sh, run) && i < |run.turns| && !CellIn(sh, run, i + 1, key).panicked
    requires Undisturbed(sh, run, i + 1) && !run.states[i].closing
    ensures !CellIn(sh, run, i, key).panicked
    ensures CellIn(sh, run, i + 1, key).log.retired == CellIn(sh, run, i, key).log.retired
  {
    hide Follows, Apply, Enabled, NotTorn, CellAt;
    CellMoves(p, sh, run, i, key);
    var s := run.states[i];
    if e :| EventFor(sh, key, run.turns[i]) == Some(e) {
      if !e.Start? {
        OnlyStartsAreTorn(CellIn(sh, run, i, key), e);
      }
      DF.RetiredKept(p, CellIn(sh, run, i, key), s.closing, s.next, e);
    }
  }

  lemma OnlyStartsAreTorn<R(!new)>(c: Cell<R>, e: Event<R>)
    requires !e.Start?
    ensures NotTorn(c, e)
  {
  }

  lemma {:induction false} NothingRetired<R(!new)>(p: Policy<R>, sh: Shards, run: Run<R>, i: nat, key: string)
    requires ValidRun(p, sh, run) && i < |run.states| && !CellIn(sh, run, i, key).panicked
    requires Undisturbed(sh, run, i)
    ensures CellIn(sh, run, i, key).log.retired == multiset{}
  {
    hide NotTorn, Follows;
    if i > 0 {
      NotClosing(p, sh, run, i - 1);
      TurnRetiresNobody(p, sh, run, i - 1, key);
      NothingRetired(p, sh, run, i - 1, key);
    }
  }

  /**
   Short of a shutdown or a torn seed, a caller that still waits is never dropped: its
   member is queued, awaits its result, or has it.
   */
  lemma WaitersAreNeverDropped<R(!new)>(p: Policy<R>, sh: Shards, run: Run<R>, i: nat, key: string, m: Member<R>)
    requires ValidRun(p, sh, run) && i < |run.states| && !CellIn(sh, run, i, key).panicked
    requires Undisturbed(sh, run, i)
    requires m in CellIn(sh, run, i, key).log.submitted && m.id !in CellIn(sh, run, i, key).dead
    ensures var c := CellIn(sh, run, i, key);
            m in Queued(c.machine) || m in c.log.pending || m in c.log.delivered
  {
    AlwaysSound(p, sh, run, i, key);
    NothingRetired(p, sh, run, i, key);
    CountPlaces(CellIn(sh, run, i, key), m);
  }

  // Results ---------------------------------------------------------------------------------

  /** A member about to get its result has none yet. */
  lemma PendingHasNoResult<R(!new)>(c: Cell<R>, next: nat, m: Member<R>)
    requires Conserved(c) && Named(c, next) && DF.ResultsMatch(c.log) && m in c.log.pending
    ensures m.id !in c.log.results
  {
    CountPlaces(c, m);
    forall x | x in c.log.delivered ensures x.id != m.id {
      CountPlaces(c, x);
    }
  }

  lemma ResultKept<R(!new)>(p: Policy<R>, c: Cell<R>, closing: bool, next: nat, e: Event<R>, id: nat)
    requires Conserved(c) && Named(c, next) && DF.ResultsMatch(c.log)
    requires Enabled(c, closing, e) && id in c.log.results
    ensures var log := Apply(p, c, closing, next, e).log;
            id in log.results && log.results[id] == c.log.results[id]
  {
    if e.Deliver? && id in Ids(c.log.pending) {
      var m :| m in c.log.pending && m.id == id;
      PendingHasNoResult(c, next, m);
    }
  }

  lemma SweepSendsNothing<R(!new)>(c: Cell<R>)
    ensures DoSweep(c).log.results == c.log.results && DoSweep(c).machine == None
  {
  }

  /** No member is given two results: the first one stands for the rest of the run. */
  lemma {:induction false} FirstResultStands<R(!new)>(
    p: Policy<R>, sh: Shards, run: Run<R>, i: nat, j: nat, key: string, id: nat)
    requires ValidRun(p, sh, run) && i <= j < |run.states|
    requires id in CellIn(sh, run, i, key).log.results
    ensures id in CellIn(sh, run, j, key).log.results
    ensures CellIn(sh, run, j, key).log.results[id] == CellIn(sh, run, i, key).log.results[id]
    decreases j - i
  {
    hide Follows, Enabled, Apply, CellAt, DoSweep, DF.ResultsMatch, Conserved, Named;
    if i < j {
      CellSteps(p, sh, run, j - 1, key);
      FirstResultStands(p, sh, run, i, j - 1, key, id);
      var s, c := run.states[j - 1], CellIn(sh, run, j - 1, key);
      if e :| EventFor(sh, key, run.turns[j - 1]) == Some(e) {
        if c.panicked {
          SweepSendsNothing(c);
        } else {
          ResultKept(p, c, s.closing, s.next, e, id);
        }
      }
    }
  }

  /** An inline caller that returns has the result of its own submission, unless closing. */
  lemma InlineCallersGetTheirResult<R(!new)>(p: Policy<R>, sh: Shards, run: Run<R>, i: nat, key: string, d: nat)
    requires ValidRun(p, sh, run) && i < |run.turns| && run.turns[i] == OnKey(key, Return(d))
    requires d in CellIn(sh, run, i, key).tasks && CellIn(sh, run, i, key).tasks[d].kind == Inline
    ensures var c := CellIn(sh, run, i, key);
            run.states[i].closing || c.tasks[d].own in c.log.results
  {
    assert Follows(p, sh, run, i);
    AlwaysSound(p, sh, run, i, key);
    var c := CellIn(sh, run, i, key);
    assert DR.OwnResult(c.tasks[d], c.dead, c.log, run.states[i].closing, run.states[i].next);
  }

  // What the worker was told -------------------------------------------------------------------

  /**
   A `merged()` call that reports a request reports the left fold, in batch order, of the
   batch the task then holds; everybody in it still waits, and everybody live who was in
   the batch still leads it.
   */
  lemma MergedFoldsTheLiveBatch<R(!new)>(p: Policy<R>, m: Machine<R>, d: nat, dead: set<nat>)
    requires Refresh(p, m, d, dead).reply.Request?
    ensures var s := Refresh(p, m, d, dead);
            var batch := s.machine.queue.batch;
            && batch != [] && Some(s.reply.merged) == Fold(p, Requests(batch))
            && Live(m.queue.batch, dead) <= batch
            && forall x :: x in batch ==> x.id !in dead
  {
    var q := Prune(m.queue, dead);
    MergeFolds(p, q);
    MergeConserves(p, q);
    LiveMembers(m.queue.batch, dead);
    LiveMembers(m.queue.reorderable, dead);
    LiveMembers(m.queue.fifo, dead);
    var batch := Refresh(p, m, d, dead).machine.queue.batch;
    forall x | x in batch ensures x.id !in dead {
      assert x in Members(MergeCompatible(p, q).queue);
      assert x in Members(q);
    }
  }

  /**
   A round's result goes to exactly the members of the worker's last `merged()` call, and
   the request it worked on was the fold of exactly those members.
   */
  lemma RoundsSettleWhatTheWorkerSaw<R(!new)>(
    p: Policy<R>, sh: Shards, run: Run<R>, i: nat, key: string, d: nat, r: nat)
    requires ValidRun(p, sh, run) && i < |run.turns| && run.turns[i] == OnKey(key, Deliver(d))
    requires At(CellIn(sh, run, i, key), d, Delivering(Some(r)))
    ensures var c, c' := CellIn(sh, run, i, key), CellIn(sh, run, i + 1, key);
            var seen := c.tasks[d].seen;
            && c'.log.delivered == c.log.delivered + multiset(seen)
            && c'.log.pending == []
            && (forall m :: m in seen ==> m.id in c'.log.results && c'.log.results[m.id] == r)
            && (forall id :: id in c'.log.results && (forall m :: m in seen ==> m.id != id) ==>
                  id in c.log.results && c'.log.results[id] == c.log.results[id])
  {
    assert Follows(p, sh, run, i);
    AlwaysSound(p, sh, run, i, key);
    DeliveredAsSeen(p, CellIn(sh, run, i, key), run.states[i].next, d, r);
  }

  lemma DeliveredAsSeen<R(!new)>(p: Policy<R>, c: Cell<R>, next: nat, d: nat, r: nat)
    requires DR.Rounds(p, c, next) && d in c.tasks && c.tasks[d].pc == Delivering(Some(r))
    ensures var log := DoDeliver(c, d).log;
            var seen := c.tasks[d].seen;
            && log.delivered == c.log.delivered + multiset(seen)
            && log.pending == []
            && (forall m :: m in seen ==> m.id in log.results && log.results[m.id] == r)
            && (forall id :: id in log.results && (forall m :: m in seen ==> m.id != id) ==>
                  id in c.log.results && log.results[id] == c.log.results[id])
  {
    assert c.log.pending == c.tasks[d].seen;
  }

  /** While a round runs, its batch is what the worker saw and folds to the merged request. */
  lemma RunningRoundsFold<R(!new)>(p: Policy<R>, sh: Shards, run: Run<R>, i: nat, key: string)
    requires ValidRun(p, sh, run) && i < |run.states| && !CellIn(sh, run, i, key).panicked
    requires CellIn(sh, run, i, key).machine.Some? && CellIn(sh, run, i, key).machine.value.phase.Running?
    ensures var c := CellIn(sh, run, i, key);
            var m := c.machine.value;
            && m.phase.driver.id in c.tasks && c.tasks[m.phase.driver.id].seen == m.queue.batch
            && (m.queue.batch != [] ==> m.queue.merged == Fold(p, Requests(m.queue.batch)))
            && (m.phase.signal in c.fired ==> m.queue.batch == [])
  {
    AlwaysSound(p, sh, run, i, key);
  }

  // Strict order --------------------------------------------------------------------------------

  /**
   Whole-run FIFO: once a strict member has been served, every strict member submitted
   before it and still waited for has been served too.
   */
  lemma StrictMembersServedInOrder<R(!new)>(
    p: Policy<R>, sh: Shards, run: Run<R>, i: nat, key: string, x: Member<R>, y: Member<R>)
    requires ValidRun(p, sh, run) && i < |run.states| && !CellIn(sh, run, i, key).panicked
    requires Undisturbed(sh, run, i)
    requires var c := CellIn(sh, run, i, key);
             && x in c.log.submitted && x.id !in c.dead && !p.canReorder(x.request)
             && (y in c.log.delivered || y in c.log.pending) && !p.canReorder(y.request)
             && x.id < y.id
    ensures var c := CellIn(sh, run, i, key);
            x in c.log.delivered || x in c.log.pending
  {
    AlwaysSound(p, sh, run, i, key);
    WaitersAreNeverDropped(p, sh, run, i, key, x);
    var c := CellIn(sh, run, i, key);
    if x in Queued(c.machine) {
      QueuedStrict(p, c.machine.value.queue, x);
    }
  }

  lemma QueuedStrict<R(!new)>(p: Policy<R>, q: Queue<R>, x: Member<R>)
    requires Sorted(p, q) && x in Members(q) && !p.canReorder(x.request)
    ensures x in StrictLine(p, q)
  {
    FilterMembers(q.batch, IsStrict(p));
    if x in q.batch {
      assert x in Strict(p, q.batch);
    }
  }

  // Close ---------------------------------------------------------------------------------------

  /** Once closing, no event puts a task into a worker round it was not already in. */
  lemma NoRoundStartsWhileClosing<R(!new)>(p: Policy<R>, c: Cell<R>, next: nat, e: Event<R>, d: nat)
    requires Enabled(c, true, e)
    requires d in Apply(p, c, true, next, e).tasks && Apply(p, c, true, next, e).tasks[d].pc.InWorker?
    ensures d in c.tasks && c.tasks[d].pc == Apply(p, c, true, next, e).tasks[d].pc
  {
    hide Refresh, FinalizeCompletion, DriverDropped, OwnerStarted, Book;
  }

  lemma {:induction false} StaysClosed<R(!new)>(p: Policy<R>, sh: Shards, run: Run<R>, i: nat, j: nat)
    requires ValidRun(p, sh, run) && i <= j < |run.states| && run.states[i].closed
    ensures run.states[j].closed
    decreases j - i
  {
    if i < j {
      StaysClosed(p, sh, run, i, j - 1);
      assert Follows(p, sh, run, j - 1);
    }
  }

  /**
   After some close call has returned, under any further interleaving, no owner task is
   live, none is ever reserved, and no task enters a worker round.
   */
  lemma ClosedForGood<R(!new)>(p: Policy<R>, sh: Shards, run: Run<R>, i: nat, j: nat, key: string, e: Event<R>)
    requires ValidRun(p, sh, run) && i <= j < |run.turns| && run.states[i].closed
    requires run.turns[j] == OnKey(key, e)
    ensures run.states[j].activeOwners == 0 && Owners(run.states[j].cells) == {}
    ensures !Spawns(p, CellIn(sh, run, j, key), true, run.states[j].next, e)
    ensures forall d :: d in CellIn(sh, run, j + 1, key).tasks && CellIn(sh, run, j + 1, key).tasks[d].pc.InWorker? ==>
              d in CellIn(sh, run, j, key).tasks && CellIn(sh, run, j, key).tasks[d].pc.InWorker?
  {
    StaysClosed(p, sh, run, i, j);
    AlwaysInv(p, sh, run, j);
    assert Follows(p, sh, run, j);
    var s, c := run.states[j], CellIn(sh, run, j, key);
    AlwaysSound(p, sh, run, j, key);
    CellInvAt(p, sh, s, key);
    SweptNeverSpawns(p, c, true, s.next, e);
    forall d | d in CellIn(sh, run, j + 1, key).tasks && CellIn(sh, run, j + 1, key).tasks[d].pc.InWorker?
      ensures d in c.tasks && c.tasks[d].pc.InWorker?
    {
      NoRoundStartsWhileClosing(p, c, s.next, e, d);
    }
  }

  /** The owner count is the number of live owner tasks, so a release never goes below zero. */
  lemma OwnerCountIsExact<R(!new)>(p: Policy<R>, sh: Shards, run: Run<R>, i: nat)
    requires ValidRun(p, sh, run) && i < |run.states|
    ensures run.states[i].activeOwners == |Owners(run.states[i].cells)| >= 0
  {
    AlwaysInv(p, sh, run, i);
  }
}
