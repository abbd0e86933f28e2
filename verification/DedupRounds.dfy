/**
 What a round holds: the worker is told about exactly the batch it will settle, an aborted
 round has nobody left, and an inline caller's own submission stays with its round.
 */
module DedupRounds {
  import opened Sequences
  import opened DedupQueue
  import opened DedupMachine
  import opened DedupCell
  import opened DedupConservation
  import DC = DedupControl

  /** The batch as each phase leaves it. */
  ghost predicate RoundOf<R(!new)>(p: Policy<R>, m: Machine<R>, tasks: map<nat, Task<R>>, fired: set<nat>, next: nat)
  {
    var batch := m.queue.batch;
    match m.phase
    case Ready(driver) =>
      if driver.kind == Owner then batch == []
      else driver.id in tasks && |batch| == 1 && batch[0].id == tasks[driver.id].own
    case Running(driver, signal) =>
      && driver.id in tasks
      && signal < next
      && tasks[driver.id].seen == batch
      && (batch != [] ==> m.queue.merged == Fold(p, Requests(batch)) && m.queue.merged.Some?)
      && (signal in fired ==> batch == [])
      && (driver.kind == Inline ==> tasks[driver.id].own in Ids(batch))
    case Completing(_) => batch == []
    case Handoff(_) => batch == []
  }

  ghost predicate Signalled<R(!new)>(tasks: map<nat, Task<R>>, fired: set<nat>, next: nat)
  {
    && (forall s :: s in fired ==> s < next)
    && (forall d :: d in tasks && tasks[d].pc.RoundOver? && tasks[d].pc.outcome == Liveness ==> tasks[d].pc.signal in fired)
  }

  /** What awaits delivery is what the delivering task's worker last saw. */
  ghost predicate Awaiting<R(!new)>(tasks: map<nat, Task<R>>, pending: seq<Member<R>>)
  {
    && (forall d :: d in tasks && tasks[d].pc.Delivering? ==>
          pending == if tasks[d].pc.result.Some? then tasks[d].seen else [])
    && (pending != [] ==> exists d :: d in tasks && tasks[d].pc.Delivering?)
  }

  ghost predicate Rounds<R(!new)>(p: Policy<R>, c: Cell<R>, next: nat)
  {
    && (c.machine.Some? ==> RoundOf(p, c.machine.value, c.tasks, c.fired, next))
    && Signalled(c.tasks, c.fired, next)
    && Awaiting(c.tasks, c.log.pending)
  }

  /** An inline caller still holds its receiver, and its result arrives before it returns. */
  ghost predicate OwnResult<R(!new)>(t: Task<R>, dead: set<nat>, log: Log<R>, closing: bool, next: nat)
  {
    && (t.pc.RoundOver? && t.pc.outcome.Shutdown? ==> closing)
    && (t.kind == Inline ==>
      && t.own !in dead && t.own < next
      && match t.pc
         case Delivering(result) => result.Some? && t.own in Ids(log.pending)
         case Finalizing => t.own in log.results
         case Returning => closing || t.own in log.results
         case _ => true)
  }

  ghost predicate OwnResults<R(!new)>(c: Cell<R>, closing: bool, next: nat)
  {
    forall d :: d in c.tasks ==> OwnResult(c.tasks[d], c.dead, c.log, closing, next)
  }

  // Queue facts -----------------------------------------------------------------------------

  lemma LiveKeeps<R(!new)>(ms: seq<Member<R>>, dead: set<nat>, id: nat)
    requires id in Ids(ms) && id !in dead
    ensures id in Ids(Live(ms, dead))
  {
    var m :| m in ms && m.id == id;
    FilterMember(ms, Alive(dead), m);
  }

  lemma MergeKeeps<R(!new)>(p: Policy<R>, q: Queue<R>, id: nat)
    requires id in Ids(q.batch)
    ensures id in Ids(MergeCompatible(p, q).queue.batch)
    ensures MergeCompatible(p, q).queue.batch != []
  {
    var m :| m in q.batch && m.id == id;
    assert m in MergeCompatible(p, q).queue.batch;
  }

  lemma RefreshKeeps<R(!new)>(p: Policy<R>, q: Queue<R>, dead: set<nat>, id: nat)
    requires id in Ids(q.batch) && id !in dead
    ensures id in Ids(RefreshBatch(p, q, dead).queue.batch)
    ensures !RefreshBatch(p, q, dead).EmptyBatch?
  {
    LiveKeeps(q.batch, dead, id);
    MergeKeeps(p, Prune(q, dead), id);
  }

  lemma FormKeeps<R(!new)>(p: Policy<R>, q: Queue<R>, dead: set<nat>, later: set<nat>, id: nat)
    requires id in Ids(q.batch) && id !in dead && id !in later
    ensures id in Ids(FormBatch(p, q, dead, later).queue.batch)
    ensures !FormBatch(p, q, dead, later).EmptyBatch?
  {
    LiveKeeps(q.batch, dead, id);
    assert Prune(q, dead).batch != [];
    RefreshKeeps(p, Prune(q, dead), later, id);
  }

  // Rounds, event by event --------------------------------------------------------------------

  lemma StartOpensRound<R(!new)>(
    p: Policy<R>, m: Machine<R>, tasks: map<nat, Task<R>>, fired: set<nat>, next: nat,
    d: nat, closing: bool, dead: set<nat>, later: set<nat>)
    requires RoundOf(p, m, tasks, fired, next) && Signalled(tasks, fired, next)
    requires m.phase.Ready? && m.phase.driver.id == d && d in tasks
    requires m.phase.driver.kind == Inline ==> tasks[d].own !in dead && tasks[d].own !in later
    ensures var s := StartRound(p, m, d, closing, next, dead, later);
            s.reply.Started? ==> RoundOf(p, s.machine, tasks[d := StartTask(tasks[d], s)], fired, next + 1)
  {
    var s := StartRound(p, m, d, closing, next, dead, later);
    if s.reply.Started? {
      MergeFolds(p, Prune(Seed(Prune(m.queue, dead)), later));
      if m.phase.driver.kind == Inline {
        assert m.queue.batch[0] in m.queue.batch;
        FormKeeps(p, m.queue, dead, later, tasks[d].own);
      }
    }
  }

  lemma RefreshKeepsRound<R(!new)>(
    p: Policy<R>, m: Machine<R>, tasks: map<nat, Task<R>>, fired: set<nat>, next: nat, d: nat, dead: set<nat>)
    requires RoundOf(p, m, tasks, fired, next) && m.phase.Running? && m.phase.driver.id == d
    requires m.phase.driver.kind == Inline ==> tasks[d].own !in dead
    ensures var s := Refresh(p, m, d, dead);
            !s.reply.Panicked? ==>
              RoundOf(p, s.machine, tasks[d := tasks[d].(seen := Folded(s))], Cancel(fired, s.reply), next + 1)
  {
    var s := Refresh(p, m, d, dead);
    if m.phase.driver.kind == Inline {
      RefreshKeeps(p, m.queue, dead, tasks[d].own);
    }
    if s.reply.Request? || s.reply.Nothing? {
      MergeFolds(p, Prune(m.queue, dead));
    }
    if m.queue.batch == [] {
      assert Live(m.queue.batch, dead) == [];
    }
  }

  /** Tasks with nothing to deliver may come, move and go. */
  lemma AwaitingFrame<R(!new)>(tasks: map<nat, Task<R>>, tasks': map<nat, Task<R>>, pending: seq<Member<R>>)
    requires Awaiting(tasks, pending)
    requires forall d :: d in tasks && tasks[d].pc.Delivering? ==> d in tasks' && tasks'[d] == tasks[d]
    requires forall d :: d in tasks' && tasks'[d].pc.Delivering? ==> d in tasks && tasks'[d] == tasks[d]
    ensures Awaiting(tasks', pending)
  {
    if pending != [] {
      var d :| d in tasks && tasks[d].pc.Delivering?;
      assert d in tasks' && tasks'[d].pc.Delivering?;
    }
  }

  /** The phase's own task keeps its submission and what it saw, so the round is undisturbed. */
  lemma RoundFrame<R(!new)>(
    p: Policy<R>, m: Machine<R>, tasks: map<nat, Task<R>>, tasks': map<nat, Task<R>>, fired: set<nat>, next: nat)
    requires RoundOf(p, m, tasks, fired, next)
    requires var d := Entitled(m.phase);
             d in tasks ==> d in tasks' && tasks'[d].own == tasks[d].own && tasks'[d].seen == tasks[d].seen
    ensures RoundOf(p, m, tasks', fired, next + 1)
  {
  }

  // Committing a step whose effect on the round is known ---------------------------------------

  /** A step that delivers nothing, taken by a task with nothing to deliver. */
  lemma QuietCommit<R(!new)>(
    p: Policy<R>, c: Cell<R>, tasks: map<nat, Task<R>>, dead: set<nat>, s: Step<R>, next: nat)
    requires Rounds(p, c, next)
    requires s.delivery == []
    requires s.action.SpawnOwner? ==> s.action.owner == next && next !in c.tasks
    requires forall d :: d in c.tasks && c.tasks[d].pc.Delivering? ==> d in tasks && tasks[d] == c.tasks[d]
    requires forall d :: d in tasks && tasks[d].pc.Delivering? ==> d in c.tasks && tasks[d] == c.tasks[d]
    requires forall d :: d in tasks && tasks[d].pc.RoundOver? ==> d in c.tasks && tasks[d].pc == c.tasks[d].pc
    requires s.reply.Aborted? ==> s.reply.signal < next
    requires !s.action.Remove? ==> RoundOf(p, s.machine, Reserve(tasks, s.action), Cancel(c.fired, s.reply), next + 1)
    ensures Rounds(p, Commit(c, tasks, dead, s), next + 1)
  {
    AwaitingFrame(c.tasks, Reserve(tasks, s.action), c.log.pending);
    assert c.log.pending + s.delivery == c.log.pending;
  }

  /** A stranger's step leaves the machine alone. */
  lemma StrangerCommit<R(!new)>(p: Policy<R>, c: Cell<R>, tasks: map<nat, Task<R>>, dead: set<nat>, next: nat, d: nat)
    requires Rounds(p, c, next) && c.machine.Some? && d in c.tasks && !c.tasks[d].pc.Delivering?
    requires d != Entitled(c.machine.value.phase)
    requires tasks == c.tasks - {d} ||
             (d in tasks && tasks == c.tasks[d := tasks[d]] && (tasks[d].pc == Returning || tasks[d].pc == c.tasks[d].pc))
    ensures Rounds(p, Commit(c, tasks, dead, Unchanged(c.machine.value)), next + 1)
  {
    RoundFrame(p, c.machine.value, c.tasks, tasks, c.fired, next);
    QuietCommit(p, c, tasks, dead, Unchanged(c.machine.value), next);
  }

  lemma AbsentRounds<R(!new)>(p: Policy<R>, c: Cell<R>, tasks: map<nat, Task<R>>, dead: set<nat>, next: nat, d: nat)
    requires Rounds(p, c, next) && c.machine.None? && d in c.tasks && !c.tasks[d].pc.Delivering?
    requires tasks == c.tasks - {d} || tasks == SetPc(c.tasks, d, Returning)
    ensures Rounds(p, Absent(c, tasks, dead), next + 1)
  {
    AwaitingFrame(c.tasks, tasks, c.log.pending);
  }

  lemma SubmitRounds<R(!new)>(p: Policy<R>, c: Cell<R>, closing: bool, next: nat, r: R)
    requires Rounds(p, c, next) && DC.Control(c, closing, next)
    ensures Rounds(p, DoSubmit(p, c, next, r), next + 1)
  {
    hide Awaiting, Fold, Requests, RoundOf;
    var c' := DoSubmit(p, c, next, r);
    AwaitingFrame(c.tasks, c'.tasks, c.log.pending);
    match c.machine
    case None => SeedRound(p, c, next, r);
    case Some(m) => SubmitKeepsRound(p, m, Member(next, r), c.tasks, c.fired, next);
  }

  lemma SubmitKeepsRound<R(!new)>(
    p: Policy<R>, m: Machine<R>, member: Member<R>, tasks: map<nat, Task<R>>, fired: set<nat>, next: nat)
    requires RoundOf(p, m, tasks, fired, next)
    ensures RoundOf(p, DedupMachine.Submit(p, m, member), tasks, fired, next + 1)
  {
  }

  lemma SeedRound<R(!new)>(p: Policy<R>, c: Cell<R>, next: nat, r: R)
    requires c.machine.None?
    ensures var c' := DoSubmit(p, c, next, r);
            RoundOf(p, c'.machine.value, c'.tasks, c.fired, next + 1)
  {
  }

  lemma StartRounds<R(!new)>(p: Policy<R>, c: Cell<R>, closing: bool, next: nat, d: nat, dying: set<nat>)
    requires Rounds(p, c, next) && DC.Control(c, closing, next) && OwnResults(c, closing, next)
    requires Enabled(c, closing, Start(d, dying))
    ensures var c' := DoStart(p, c, closing, next, d, dying);
            c'.panicked || Rounds(p, c', next + 1)
  {
    hide StartRound;
    var later := c.dead + dying;
    if c.machine.None? {
      AbsentRounds(p, c, SetPc(c.tasks, d, Returning), later, next, d);
    } else {
      var m := c.machine.value;
      var s := StartRound(p, m, d, closing, next, c.dead, later);
      var tasks := c.tasks[d := StartTask(c.tasks[d], s)];
      if Entitled(m.phase) == d {
        assert c.tasks[d].kind == Inline ==> c.tasks[d].own in Held(c);
        StartShape(p, m, d, closing, next, c.dead, later);
        StartOpensRound(p, m, c.tasks, c.fired, next, d, closing, c.dead, later);
        if !s.reply.Panicked? {
          QuietCommit(p, c, tasks, later, s, next);
        }
      } else {
        StrangersChangeNothing(p, m, d, closing, next, c.dead, later, Shutdown);
        StrangerCommit(p, c, tasks, later, next, d);
      }
    }
  }

  lemma CallMergedRounds<R(!new)>(p: Policy<R>, c: Cell<R>, closing: bool, next: nat, d: nat)
    requires Rounds(p, c, next) && DC.Control(c, closing, next) && OwnResults(c, closing, next)
    requires Enabled(c, closing, CallMerged(d))
    ensures var c' := DoCallMerged(p, c, d);
            c'.panicked || Rounds(p, c', next + 1)
  {
    hide Refresh, Book, Awaiting;
    if c.machine.Some? {
      var m := c.machine.value;
      var s := Refresh(p, m, d, c.dead);
      var tasks := c.tasks[d := c.tasks[d].(seen := Folded(s))];
      if Entitled(m.phase) == d {
        RefreshShape(p, m, d, c.dead);
        RefreshKeepsRound(p, m, c.tasks, c.fired, next, d, c.dead);
        if !s.reply.Panicked? {
          QuietCommit(p, c, tasks, c.dead, s, next);
        }
      } else {
        StrangersChangeNothing(p, m, d, closing, next, c.dead, {}, Shutdown);
        StrangerCommit(p, c, tasks, c.dead, next, d);
      }
    }
  }

  /** Only one task can have results to deliver, so a finishing round finds none waiting. */
  lemma NothingAwaits<R(!new)>(c: Cell<R>, closing: bool, next: nat)
    requires DC.Control(c, closing, next) && Awaiting(c.tasks, c.log.pending)
    requires c.machine.Some? && c.machine.value.phase.Running?
    ensures c.log.pending == []
    ensures forall e :: e in c.tasks ==> !c.tasks[e].pc.Delivering?
  {
  }

  lemma NowAwaiting<R(!new)>(tasks: map<nat, Task<R>>, d: nat, pc: Pc, delivery: seq<Member<R>>)
    requires d in tasks && forall e :: e in tasks ==> !tasks[e].pc.Delivering?
    requires delivery == if pc.Delivering? && pc.result.Some? then tasks[d].seen else []
    ensures Awaiting(SetPc(tasks, d, pc), delivery)
  {
    if delivery != [] {
      assert SetPc(tasks, d, pc)[d].pc.Delivering?;
    }
  }

  lemma FinishOwnRound<R(!new)>(p: Policy<R>, c: Cell<R>, closing: bool, next: nat, d: nat)
    requires Rounds(p, c, next) && DC.Control(c, closing, next)
    requires Enabled(c, closing, FinishRound(d)) && c.machine.Some? && Entitled(c.machine.value.phase) == d
    ensures Rounds(p, DoFinishRound(c, d), next + 1)
  {
    hide Fold, Requests, Awaiting;
    var outcome := c.tasks[d].pc.outcome;
    var s := RoundFinished(c.machine.value, d, outcome);
    NothingAwaits(c, closing, next);
    assert c.log.pending + s.delivery == s.delivery;
    NowAwaiting(c.tasks, d, FinishPc(s, outcome), s.delivery);
  }

  lemma FinishRounds<R(!new)>(p: Policy<R>, c: Cell<R>, closing: bool, next: nat, d: nat)
    requires Rounds(p, c, next) && DC.Control(c, closing, next)
    requires Enabled(c, closing, FinishRound(d))
    ensures Rounds(p, DoFinishRound(c, d), next + 1)
  {
    var outcome := c.tasks[d].pc.outcome;
    if c.machine.None? {
      AbsentRounds(p, c, SetPc(c.tasks, d, Returning), c.dead, next, d);
    } else {
      var m := c.machine.value;
      if Entitled(m.phase) != d {
        StrangersChangeNothing(p, m, d, closing, next, c.dead, {}, outcome);
        StrangerCommit(p, c, SetPc(c.tasks, d, Returning), c.dead, next, d);
      } else {
        FinishOwnRound(p, c, closing, next, d);
      }
    }
  }

  lemma DeliverRounds<R(!new)>(p: Policy<R>, c: Cell<R>, closing: bool, next: nat, d: nat)
    requires Rounds(p, c, next) && DC.Control(c, closing, next)
    requires Enabled(c, closing, Deliver(d))
    ensures Rounds(p, DoDeliver(c, d), next + 1)
  {
  }

  lemma FinalizeOwnRound<R(!new)>(p: Policy<R>, c: Cell<R>, closing: bool, next: nat, d: nat)
    requires Rounds(p, c, next) && DC.Control(c, closing, next)
    requires Enabled(c, closing, Finalize(d)) && c.machine.Some? && Entitled(c.machine.value.phase) == d
    ensures Rounds(p, DoFinalize(c, next, d), next + 1)
  {
    hide Book, Fold, Requests, Awaiting, FinalizeCompletion, Signalled;
    var m := c.machine.value;
    var s := FinalizeCompletion(m, d, next, c.dead);
    FinalizeShape(m, d, next, c.dead);
    FinalizeParts(m, d, next, c.dead);
    assert Live(m.queue.batch, c.dead) == [];
    QuietCommit(p, c, SetPc(c.tasks, d, if s.reply.Again? then AtStart else Returning), c.dead, s, next);
  }

  lemma FinalizeRounds<R(!new)>(p: Policy<R>, c: Cell<R>, closing: bool, next: nat, d: nat)
    requires Rounds(p, c, next) && DC.Control(c, closing, next)
    requires Enabled(c, closing, Finalize(d))
    ensures Rounds(p, DoFinalize(c, next, d), next + 1)
  {
    hide Book, Fold, Requests, Awaiting;
    if c.machine.None? {
      AbsentRounds(p, c, SetPc(c.tasks, d, Returning), c.dead, next, d);
    } else {
      var m := c.machine.value;
      var s := FinalizeCompletion(m, d, next, c.dead);
      var tasks := SetPc(c.tasks, d, if s.reply.Again? then AtStart else Returning);
      if Entitled(m.phase) == d {
        FinalizeOwnRound(p, c, closing, next, d);
      } else {
        StrangersChangeNothing(p, m, d, closing, next, c.dead, {}, Shutdown);
        StrangerCommit(p, c, tasks, c.dead, next, d);
      }
    }
  }

  lemma OwnerStartRounds<R(!new)>(p: Policy<R>, c: Cell<R>, closing: bool, next: nat, d: nat)
    requires Rounds(p, c, next) && DC.Control(c, closing, next)
    requires Enabled(c, closing, OwnerStart(d))
    ensures Rounds(p, DoOwnerStart(c, d), next + 1)
  {
    if c.machine.None? {
      AbsentRounds(p, c, SetPc(c.tasks, d, Returning), c.dead, next, d);
    } else {
      var s := OwnerStarted(c.machine.value, d);
      var tasks := SetPc(c.tasks, d, if s.reply.Accepted? then AtStart else Returning);
      if Entitled(c.machine.value.phase) == d {
        QuietCommit(p, c, tasks, c.dead, s, next);
      } else {
        StrangerCommit(p, c, tasks, c.dead, next, d);
      }
    }
  }

  lemma DropEmptiesBatch<R(!new)>(
    p: Policy<R>, m: Machine<R>, d: nat, closing: bool, next: nat, dead: set<nat>, later: set<nat>)
    requires Entitled(m.phase) == d && !m.phase.Handoff?
    ensures var s := DriverDropped(p, m, d, closing, next, dead, later);
            && s.machine.queue.batch == []
            && (s.reply.Aborted? ==> m.phase.Running? && s.reply.signal == m.phase.signal)
  {
  }

  lemma DropRounds<R(!new)>(p: Policy<R>, c: Cell<R>, closing: bool, next: nat, d: nat, dying: set<nat>)
    requires Rounds(p, c, next) && DC.Control(c, closing, next)
    requires Enabled(c, closing, Drop(d, dying))
    ensures Rounds(p, DoDrop(p, c, closing, next, d, dying), next + 1)
  {
    hide DriverDropped, Book, Fold, Requests, Awaiting;
    var later := c.dead + dying;
    if c.machine.None? {
      AbsentRounds(p, c, c.tasks - {d}, later, next, d);
    } else {
      var m := c.machine.value;
      var s := DriverDropped(p, m, d, closing, next, c.dead, later);
      if Entitled(m.phase) == d {
        DropShape(p, m, d, closing, next, c.dead, later);
        DropEmptiesBatch(p, m, d, closing, next, c.dead, later);
        QuietCommit(p, c, c.tasks - {d}, later, s, next);
      } else {
        StrangersChangeNothing(p, m, d, closing, next, c.dead, later, Shutdown);
        StrangerCommit(p, c, c.tasks - {d}, later, next, d);
      }
    }
  }

  lemma SweepRounds<R(!new)>(p: Policy<R>, c: Cell<R>, next: nat)
    requires Rounds(p, c, next)
    ensures Rounds(p, DoSweep(c), next + 1)
  {
    assert c.log.pending + [] == c.log.pending;
  }

  lemma QuietTasks<R(!new)>(p: Policy<R>, c: Cell<R>, next: nat, d: nat, tasks: map<nat, Task<R>>)
    requires Rounds(p, c, next) && d in c.tasks && !c.tasks[d].pc.Delivering?
    requires
      || (tasks == c.tasks - {d} && (c.machine.Some? ==> Entitled(c.machine.value.phase) != d))
      || (d in tasks && tasks == SetPc(c.tasks, d, tasks[d].pc) && tasks[d].pc.RoundOver?
          && (tasks[d].pc.outcome.Liveness? ==> tasks[d].pc.signal in c.fired))
    ensures Rounds(p, c.(tasks := tasks), next + 1)
  {
    AwaitingFrame(c.tasks, tasks, c.log.pending);
    if c.machine.Some? {
      RoundFrame(p, c.machine.value, c.tasks, tasks, c.fired, next);
    }
  }

  lemma RoundsKept<R(!new)>(p: Policy<R>, c: Cell<R>, closing: bool, next: nat, e: Event<R>)
    requires Rounds(p, c, next) && DC.Control(c, closing, next) && OwnResults(c, closing, next)
    requires Enabled(c, closing, e)
    ensures var c' := Apply(p, c, closing, next, e);
            c'.panicked || Rounds(p, c', next + 1)
  {
    hide DoSubmit, DoStart, DoCallMerged, DoFinishRound, DoDeliver, DoFinalize, DoOwnerStart, DoDrop, DoSweep;
    match e
    case Submit(r) => SubmitRounds(p, c, closing, next, r);
    case Start(d, dying) => StartRounds(p, c, closing, next, d, dying);
    case CallMerged(d) => CallMergedRounds(p, c, closing, next, d);
    case WorkerEnds(d, o) => QuietTasks(p, c, next, d, SetPc(c.tasks, d, RoundOver(c.tasks[d].pc.signal, o)));
    case FinishRound(d) => FinishRounds(p, c, closing, next, d);
    case Deliver(d) => DeliverRounds(p, c, closing, next, d);
    case Finalize(d) => FinalizeRounds(p, c, closing, next, d);
    case OwnerStart(d) => OwnerStartRounds(p, c, closing, next, d);
    case Drop(d, dying) => DropRounds(p, c, closing, next, d, dying);
    case Return(d) => QuietTasks(p, c, next, d, c.tasks - {d});
    case Kill(_) =>
    case Sweep => SweepRounds(p, c, next);
  }

  // The inline caller's own result -----------------------------------------------------------

  /** Tasks that stand still keep their claim while receivers die and results arrive. */
  lemma OwnFrame<R(!new)>(
    c: Cell<R>, closing: bool, next: nat, dying: set<nat>, tasks: map<nat, Task<R>>, log: Log<R>, d: nat)
    requires OwnResults(c, closing, next) && Killable(c, dying)
    requires Ids(c.log.pending) <= Ids(log.pending) || forall e :: e in c.tasks && c.tasks[e].pc.Delivering? ==> e == d
    requires c.log.results.Keys <= log.results.Keys
    requires forall e :: e in tasks && e != d && e in c.tasks ==> tasks[e] == c.tasks[e]
    requires forall e :: e in tasks && (e == d || e !in c.tasks) ==> OwnResult(tasks[e], c.dead + dying, log, closing, next + 1)
    ensures forall e :: e in tasks ==> OwnResult(tasks[e], c.dead + dying, log, closing, next + 1)
  {
    forall e | e in tasks && e != d && e in c.tasks ensures OwnResult(tasks[e], c.dead + dying, log, closing, next + 1) {
      assert c.tasks[e].kind == Inline ==> c.tasks[e].own in Held(c);
    }
  }

  lemma BookKeeps<R(!new)>(log: Log<R>, s: Step<R>)
    ensures Ids(log.pending) <= Ids(Book(log, s).pending) && Book(log, s).results == log.results
  {
  }

  /** A committed step keeps every claim when it keeps the acting task's. */
  lemma OwnCommit<R(!new)>(
    c: Cell<R>, closing: bool, next: nat, dying: set<nat>, tasks: map<nat, Task<R>>, s: Step<R>, d: nat)
    requires OwnResults(c, closing, next) && Killable(c, dying)
    requires forall e :: e in tasks ==> e in c.tasks && (e == d || tasks[e] == c.tasks[e])
    requires d in tasks ==> OwnResult(tasks[d], c.dead + dying, Book(c.log, s), closing, next + 1)
    requires s.action.SpawnOwner? ==> s.action.owner == next && next !in c.tasks
    ensures OwnResults(Commit(c, tasks, c.dead + dying, s), closing, next + 1)
  {
    BookKeeps(c.log, s);
    OwnFrame(c, closing, next, dying, Reserve(tasks, s.action), Book(c.log, s), d);
  }

  lemma OwnAbsent<R(!new)>(c: Cell<R>, closing: bool, next: nat, dying: set<nat>, tasks: map<nat, Task<R>>, d: nat)
    requires OwnResults(c, closing, next) && Killable(c, dying) && DC.Control(c, closing, next)
    requires c.machine.None? && d in c.tasks && c.tasks[d].pc != Returning
    requires tasks == c.tasks - {d} || tasks == SetPc(c.tasks, d, Returning)
    ensures OwnResults(Absent(c, tasks, c.dead + dying), closing, next + 1)
  {
    assert c.swept;
    assert c.tasks[d].kind == Inline ==> c.tasks[d].own in Held(c);
    OwnFrame(c, closing, next, dying, tasks, c.log, d);
  }

  /** A round whose driver's own member still waits starts, or meets a batch that does not fold. */
  lemma InlineStarts<R(!new)>(
    p: Policy<R>, m: Machine<R>, d: nat, next: nat, dead: set<nat>, later: set<nat>, own: nat)
    requires m.phase.Ready? && m.phase.driver.id == d && own in Ids(m.queue.batch) && own !in later && dead <= later
    ensures var s := StartRound(p, m, d, false, next, dead, later);
            s.reply.Started? || s.reply.Panicked?
  {
    hide FormBatch;
    FormKeeps(p, m.queue, dead, later, own);
  }

  lemma OwnStart<R(!new)>(p: Policy<R>, c: Cell<R>, closing: bool, next: nat, d: nat, dying: set<nat>)
    requires Rounds(p, c, next) && DC.Control(c, closing, next) && OwnResults(c, closing, next)
    requires Enabled(c, closing, Start(d, dying))
    ensures var c' := DoStart(p, c, closing, next, d, dying);
            c'.panicked || OwnResults(c', closing, next + 1)
  {
    hide StartRound;
    var later := c.dead + dying;
    assert c.tasks[d].kind == Inline ==> c.tasks[d].own in Held(c);
    if c.machine.None? {
      OwnAbsent(c, closing, next, dying, SetPc(c.tasks, d, Returning), d);
    } else {
      var m := c.machine.value;
      var s := StartRound(p, m, d, closing, next, c.dead, later);
      var tasks := c.tasks[d := StartTask(c.tasks[d], s)];
      if Entitled(m.phase) == d {
        StartShape(p, m, d, closing, next, c.dead, later);
        if m.phase.driver.kind == Inline && !closing {
          assert m.queue.batch[0] in m.queue.batch;
          InlineStarts(p, m, d, next, c.dead, later, c.tasks[d].own);
        }
        if !s.reply.Panicked? {
          OwnCommit(c, closing, next, dying, tasks, s, d);
        }
      } else {
        StrangersChangeNothing(p, m, d, closing, next, c.dead, later, Shutdown);
        OwnCommit(c, closing, next, dying, tasks, s, d);
      }
    }
  }

  lemma OwnCallMerged<R(!new)>(p: Policy<R>, c: Cell<R>, closing: bool, next: nat, d: nat)
    requires OwnResults(c, closing, next) && Enabled(c, closing, CallMerged(d))
    ensures OwnResults(DoCallMerged(p, c, d), closing, next + 1)
  {
    assert c.dead + {} == c.dead;
    if c.machine.Some? {
      var s := Refresh(p, c.machine.value, d, c.dead);
      RefreshShape(p, c.machine.value, d, c.dead);
      OwnCommit(c, closing, next, {}, c.tasks[d := c.tasks[d].(seen := Folded(s))], s, d);
    }
  }

  /** An inline driver's round never ends for want of live callers: it is one itself. */
  lemma InlineNeverAborted<R(!new)>(p: Policy<R>, c: Cell<R>, closing: bool, next: nat, d: nat)
    requires Rounds(p, c, next) && DC.Control(c, closing, next)
    requires d in c.tasks && c.tasks[d].kind == Inline && c.tasks[d].pc.RoundOver?
    requires c.machine.Some? && Entitled(c.machine.value.phase) == d
    ensures c.tasks[d].pc.outcome != Liveness
    ensures c.tasks[d].own in Ids(c.machine.value.queue.batch)
  {
  }

  lemma FinishOwnResult<R(!new)>(p: Policy<R>, c: Cell<R>, closing: bool, next: nat, d: nat)
    requires Rounds(p, c, next) && DC.Control(c, closing, next) && OwnResults(c, closing, next)
    requires Enabled(c, closing, FinishRound(d)) && c.machine.Some? && Entitled(c.machine.value.phase) == d
    ensures var outcome := c.tasks[d].pc.outcome;
            var s := RoundFinished(c.machine.value, d, outcome);
            OwnResult(c.tasks[d].(pc := FinishPc(s, outcome)), c.dead, Book(c.log, s), closing, next + 1)
  {
    hide Rounds;
    assert OwnResult(c.tasks[d], c.dead, c.log, closing, next);
    if c.tasks[d].kind == Inline {
      InlineNeverAborted(p, c, closing, next, d);
      var s := RoundFinished(c.machine.value, d, c.tasks[d].pc.outcome);
      var m :| m in c.machine.value.queue.batch && m.id == c.tasks[d].own;
      if s.reply.Finished? {
        assert m in c.log.pending + s.delivery;
      }
    }
  }

  lemma OwnFinishRound<R(!new)>(p: Policy<R>, c: Cell<R>, closing: bool, next: nat, d: nat)
    requires Rounds(p, c, next) && DC.Control(c, closing, next) && OwnResults(c, closing, next)
    requires Enabled(c, closing, FinishRound(d))
    ensures OwnResults(DoFinishRound(c, d), closing, next + 1)
  {
    assert c.dead + {} == c.dead;
    var outcome := c.tasks[d].pc.outcome;
    if c.machine.None? {
      OwnAbsent(c, closing, next, {}, SetPc(c.tasks, d, Returning), d);
    } else {
      var m := c.machine.value;
      var s := RoundFinished(m, d, outcome);
      var tasks := SetPc(c.tasks, d, FinishPc(s, outcome));
      if Entitled(m.phase) == d {
        FinishOwnResult(p, c, closing, next, d);
      } else {
        StrangersChangeNothing(p, m, d, closing, next, c.dead, {}, outcome);
      }
      OwnCommit(c, closing, next, {}, tasks, s, d);
    }
  }

  lemma OwnDeliver<R(!new)>(c: Cell<R>, closing: bool, next: nat, d: nat)
    requires DC.Control(c, closing, next) && OwnResults(c, closing, next)
    requires Enabled(c, closing, Deliver(d))
    ensures OwnResults(DoDeliver(c, d), closing, next + 1)
  {
    assert c.dead + {} == c.dead;
    var c' := DoDeliver(c, d);
    OwnFrame(c, closing, next, {}, c'.tasks, c'.log, d);
  }

  lemma OwnFinalize<R(!new)>(c: Cell<R>, closing: bool, next: nat, d: nat)
    requires DC.Control(c, closing, next) && OwnResults(c, closing, next)
    requires Enabled(c, closing, Finalize(d))
    ensures OwnResults(DoFinalize(c, next, d), closing, next + 1)
  {
    hide Prune, Pruned;
    assert c.dead + {} == c.dead;
    if c.machine.None? {
      OwnAbsent(c, closing, next, {}, SetPc(c.tasks, d, Returning), d);
    } else {
      var m := c.machine.value;
      var s := FinalizeCompletion(m, d, next, c.dead);
      if m.phase.Completing? && m.phase.driver.id == d {
        FinalizeShape(m, d, next, c.dead);
      }
      OwnCommit(c, closing, next, {}, SetPc(c.tasks, d, if s.reply.Again? then AtStart else Returning), s, d);
    }
  }

  lemma OwnOwnerStart<R(!new)>(c: Cell<R>, closing: bool, next: nat, d: nat)
    requires DC.Control(c, closing, next) && OwnResults(c, closing, next)
    requires Enabled(c, closing, OwnerStart(d))
    ensures OwnResults(DoOwnerStart(c, d), closing, next + 1)
  {
    assert c.dead + {} == c.dead;
    if c.machine.None? {
      OwnAbsent(c, closing, next, {}, SetPc(c.tasks, d, Returning), d);
    } else {
      var s := OwnerStarted(c.machine.value, d);
      OwnCommit(c, closing, next, {}, SetPc(c.tasks, d, if s.reply.Accepted? then AtStart else Returning), s, d);
    }
  }

  lemma OwnDrop<R(!new)>(p: Policy<R>, c: Cell<R>, closing: bool, next: nat, d: nat, dying: set<nat>)
    requires DC.Control(c, closing, next) && OwnResults(c, closing, next)
    requires Enabled(c, closing, Drop(d, dying))
    ensures OwnResults(DoDrop(p, c, closing, next, d, dying), closing, next + 1)
  {
    var later := c.dead + dying;
    if c.machine.None? {
      OwnAbsent(c, closing, next, dying, c.tasks - {d}, d);
    } else {
      var s := DriverDropped(p, c.machine.value, d, closing, next, c.dead, later);
      DropShape(p, c.machine.value, d, closing, next, c.dead, later);
      OwnCommit(c, closing, next, dying, c.tasks - {d}, s, d);
    }
  }

  lemma OwnSubmit<R(!new)>(p: Policy<R>, c: Cell<R>, closing: bool, next: nat, r: R)
    requires OwnResults(c, closing, next) && Named(c, next)
    ensures OwnResults(DoSubmit(p, c, next, r), closing, next + 1)
  {
  }

  lemma OwnSweep<R(!new)>(c: Cell<R>, closing: bool, next: nat)
    requires OwnResults(c, closing, next)
    ensures OwnResults(DoSweep(c), closing, next + 1)
  {
    assert c.dead + {} == c.dead;
    if c.machine.Some? {
      OwnCommit(c, closing, next, {}, c.tasks, Close(c.machine.value), next);
    }
  }

  lemma OwnQuiet<R(!new)>(p: Policy<R>, c: Cell<R>, closing: bool, next: nat, e: Event<R>)
    requires OwnResults(c, closing, next) && Enabled(c, closing, e)
    requires e.WorkerEnds? || e.Return? || e.Kill?
    ensures OwnResults(Apply(p, c, closing, next, e), closing, next + 1)
  {
    var c' := Apply(p, c, closing, next, e);
    assert c.dead + {} == c.dead;
    if e.Kill? {
      OwnFrame(c, closing, next, {e.id}, c.tasks, c.log, next);
    } else {
      OwnFrame(c, closing, next, {}, c'.tasks, c.log, e.d);
    }
  }

  lemma OwnKept<R(!new)>(p: Policy<R>, c: Cell<R>, closing: bool, next: nat, e: Event<R>)
    requires Rounds(p, c, next) && DC.Control(c, closing, next) && OwnResults(c, closing, next) && Named(c, next)
    requires Enabled(c, closing, e)
    ensures var c' := Apply(p, c, closing, next, e);
            c'.panicked || OwnResults(c', closing, next + 1)
  {
    hide OwnResults, Rounds, DoSubmit, DoStart, DoCallMerged, DoFinishRound, DoDeliver, DoFinalize, DoOwnerStart, DoDrop, DoSweep;
    match e
    case Submit(r) => OwnSubmit(p, c, closing, next, r);
    case Start(d, dying) => OwnStart(p, c, closing, next, d, dying);
    case CallMerged(d) => OwnCallMerged(p, c, closing, next, d);
    case WorkerEnds(_, _) => OwnQuiet(p, c, closing, next, e);
    case FinishRound(d) => OwnFinishRound(p, c, closing, next, d);
    case Deliver(d) => OwnDeliver(c, closing, next, d);
    case Finalize(d) => OwnFinalize(c, closing, next, d);
    case OwnerStart(d) => OwnOwnerStart(c, closing, next, d);
    case Drop(d, dying) => OwnDrop(p, c, closing, next, d, dying);
    case Return(_) => OwnQuiet(p, c, closing, next, e);
    case Kill(_) => OwnQuiet(p, c, closing, next, e);
    case Sweep => OwnSweep(c, closing, next);
  }
}
