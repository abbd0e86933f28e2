/**
 How members leave: a result is sent once, only callers that stopped waiting are pruned,
 and a key is removed only when nobody is queued on it.
 */
module DedupFates {
  import opened Sequences
  import opened DedupQueue
  import opened DedupMachine
  import opened DedupCell
  import opened DedupConservation
  import DC = DedupControl
  import DR = DedupRounds

  ghost predicate ResultsMatch<R(!new)>(log: Log<R>)
  {
    log.results.Keys == set m | m in log.delivered :: m.id
  }

  ghost predicate OnlyDead<R(!new)>(dropped: multiset<Member<R>>, dead: set<nat>)
  {
    forall m :: m in dropped ==> m.id in dead
  }

  // Pruned members are dead ------------------------------------------------------------------

  lemma FormDiscardsDead<R(!new)>(q: Queue<R>, dead: set<nat>, later: set<nat>)
    requires dead <= later
    ensures forall m :: m in FormDiscards(q, dead, later) ==> m.id in later
  {
    PrunedAreDead(q, dead);
    PrunedAreDead(Seed(Prune(q, dead)), later);
  }

  lemma StartDiscards<R(!new)>(
    p: Policy<R>, m: Machine<R>, d: nat, closing: bool, next: nat, dead: set<nat>, later: set<nat>)
    requires dead <= later
    ensures forall x :: x in StartRound(p, m, d, closing, next, dead, later).discarded ==> x.id in later
  {
    FormDiscardsDead(m.queue, dead, later);
    var s := StartRound(p, m, d, closing, next, dead, later);
    assert s.discarded == [] || s.discarded == FormDiscards(m.queue, dead, later);
  }

  lemma RefreshDiscards<R(!new)>(p: Policy<R>, m: Machine<R>, d: nat, dead: set<nat>)
    ensures forall x :: x in Refresh(p, m, d, dead).discarded ==> x.id in dead
  {
    PrunedAreDead(m.queue, dead);
    var s := Refresh(p, m, d, dead);
    assert s.discarded == [] || s.discarded == Pruned(m.queue, dead);
  }

  lemma FinalizeDiscards<R(!new)>(m: Machine<R>, d: nat, next: nat, dead: set<nat>)
    ensures forall x :: x in FinalizeCompletion(m, d, next, dead).discarded ==> x.id in dead
  {
    PrunedAreDead(m.queue, dead);
    if m.phase.Completing? && m.phase.driver.id == d {
      FinalizeParts(m, d, next, dead);
    }
  }

  lemma DropDiscards<R(!new)>(
    p: Policy<R>, m: Machine<R>, d: nat, closing: bool, next: nat, dead: set<nat>, later: set<nat>)
    requires dead <= later
    ensures forall x :: x in DriverDropped(p, m, d, closing, next, dead, later).discarded ==> x.id in later
  {
    GoneAreDead(m.queue.batch, dead);
    PrunedAreDead(Requeue(p, m.queue, dead), later);
    var s := DriverDropped(p, m, d, closing, next, dead, later);
    assert s.discarded == [] || s.discarded == Gone(m.queue.batch, dead)
        || s.discarded == Gone(m.queue.batch, dead) + Pruned(Requeue(p, m.queue, dead), later);
  }

  /** A round that ends for want of live callers has nobody left to abandon. */
  lemma AbandonsNobody<R(!new)>(p: Policy<R>, c: Cell<R>, closing: bool, next: nat, d: nat)
    requires DR.Rounds(p, c, next) && DC.Control(c, closing, next)
    requires c.machine.Some? && d in c.tasks && c.tasks[d].pc.RoundOver?
    ensures RoundFinished(c.machine.value, d, c.tasks[d].pc.outcome).discarded == []
  {
  }

  lemma DeadKept<R(!new)>(p: Policy<R>, c: Cell<R>, closing: bool, next: nat, e: Event<R>)
    requires OnlyDead(c.log.discarded, c.dead) && DR.Rounds(p, c, next) && DC.Control(c, closing, next)
    requires Enabled(c, closing, e)
    ensures var c' := Apply(p, c, closing, next, e);
            OnlyDead(c'.log.discarded, c'.dead)
  {
    hide StartRound, Refresh, FinalizeCompletion, DriverDropped, DR.Rounds, DC.Control;
    if c.machine.Some? {
      var m := c.machine.value;
      match e {
        case Start(d, dying) => StartDiscards(p, m, d, closing, next, c.dead, c.dead + dying);
        case CallMerged(d) => RefreshDiscards(p, m, d, c.dead);
        case FinishRound(d) => AbandonsNobody(p, c, closing, next, d);
        case Finalize(d) => FinalizeDiscards(m, d, next, c.dead);
        case Drop(d, dying) => DropDiscards(p, m, d, closing, next, c.dead, c.dead + dying);
        case _ =>
      }
    }
  }

  // Removal finds nobody queued ------------------------------------------------------------------

  lemma NobodyQueued<R(!new)>(q: Queue<R>)
    requires q.batch == [] && !HasIncoming(q)
    ensures Members(q) == multiset{}
  {
  }

  lemma StartRemovesNobody<R(!new)>(
    p: Policy<R>, m: Machine<R>, d: nat, next: nat, dead: set<nat>, later: set<nat>)
    requires m.phase.Ready? && m.phase.driver.id == d && !TornSeed(m.queue, dead, later)
    ensures var s := StartRound(p, m, d, false, next, dead, later);
            s.action.Remove? ==> Members(s.machine.queue) == multiset{}
  {
    var s := StartRound(p, m, d, false, next, dead, later);
    if s.action.Remove? {
      StartLosesLiveOnlyWhenTorn(p, m, d, next, dead, later);
      var seeded := Seed(Prune(m.queue, dead));
      assert s.machine.queue == Prune(seeded, later);
      WaitersLeft(seeded, later);
      forall x ensures x !in Members(s.machine.queue) {
      }
    }
  }

  lemma FinalizeRemovesNobody<R(!new)>(m: Machine<R>, d: nat, next: nat, dead: set<nat>)
    requires m.phase.Completing? ==> m.queue.batch == []
    ensures var s := FinalizeCompletion(m, d, next, dead);
            s.action.Remove? ==> Members(s.machine.queue) == multiset{}
  {
    var s := FinalizeCompletion(m, d, next, dead);
    if s.action.Remove? {
      assert Live(m.queue.batch, dead) == [];
      NobodyQueued(s.machine.queue);
    }
  }

  lemma DropRemovesNobody<R(!new)>(
    p: Policy<R>, m: Machine<R>, d: nat, next: nat, dead: set<nat>, later: set<nat>)
    ensures var s := DriverDropped(p, m, d, false, next, dead, later);
            s.action.Remove? ==> Members(s.machine.queue) == multiset{}
  {
    var s := DriverDropped(p, m, d, false, next, dead, later);
    if s.action.Remove? {
      NobodyQueued(s.machine.queue);
    }
  }

  /** Without a shutdown and without a torn seed, no event drops a queued member with its key. */
  lemma RetiredKept<R(!new)>(p: Policy<R>, c: Cell<R>, closing: bool, next: nat, e: Event<R>)
    requires DR.Rounds(p, c, next) && DC.Control(c, closing, next) && DR.OwnResults(c, closing, next)
    requires Enabled(c, closing, e) && !closing && NotTorn(c, e)
    ensures Apply(p, c, closing, next, e).log.retired == c.log.retired
  {
    hide FormBatch, Refresh, FinalizeCompletion, DriverDropped, Members, DR.Awaiting;
    if c.machine.Some? {
      var m := c.machine.value;
      match e {
        case Start(d, dying) =>
          if m.phase.Ready? && m.phase.driver.id == d {
            StartRemovesNobody(p, m, d, next, c.dead, c.dead + dying);
          }
        case CallMerged(d) => RefreshShape(p, m, d, c.dead);
        case Finalize(d) => FinalizeRemovesNobody(m, d, next, c.dead);
        case Drop(d, dying) => DropRemovesNobody(p, m, d, next, c.dead, c.dead + dying);
        case _ =>
      }
    }
  }

  lemma ResultsKept<R(!new)>(p: Policy<R>, c: Cell<R>, closing: bool, next: nat, e: Event<R>)
    requires ResultsMatch(c.log) && Enabled(c, closing, e)
    ensures ResultsMatch(Apply(p, c, closing, next, e).log)
  {
    if e.Deliver? && c.tasks[e.d].pc.result.Some? {
      SendMatches(c.log, c.tasks[e.d].pc.result);
    }
  }

  lemma SendMatches<R(!new)>(log: Log<R>, result: Option<nat>)
    requires ResultsMatch(log)
    ensures ResultsMatch(Send(log, result))
  {
    if result.Some? {
      var sent := Send(log, result);
      forall id ensures id in sent.results <==> id in (set m | m in sent.delivered :: m.id) {
        if id in sent.results {
          if id in Ids(log.pending) {
            var m :| m in log.pending && m.id == id;
            assert m in sent.delivered;
          } else {
            var m :| m in log.delivered && m.id == id;
            assert m in sent.delivered;
          }
        }
      }
    }
  }

  // A foldable batch keeps every transition from panicking ----------------------------------------

  lemma NeverPanics<R(!new)>(p: Policy<R>, c: Cell<R>, closing: bool, next: nat, e: Event<R>)
    requires ClosedUnderDeletion(p)
    requires DR.Rounds(p, c, next) && Enabled(c, closing, e)
    ensures !Apply(p, c, closing, next, e).panicked
  {
    hide ClosedUnderDeletion, DoStart, DoCallMerged;
    match e
    case Start(d, dying) => StartNeverPanics(p, c, closing, next, d, dying);
    case CallMerged(d) => CallNeverPanics(p, c, next, d);
    case _ => OthersNeverPanic(p, c, closing, next, e);
  }

  lemma StartNeverPanics<R(!new)>(p: Policy<R>, c: Cell<R>, closing: bool, next: nat, d: nat, dying: set<nat>)
    requires ClosedUnderDeletion(p) && DR.Rounds(p, c, next) && d in c.tasks && !c.panicked
    ensures !DoStart(p, c, closing, next, d, dying).panicked
  {
    hide FormBatch, ClosedUnderDeletion, Book;
    if c.machine.Some? && c.machine.value.phase.Ready? {
      FormNeverPanics(p, c.machine.value.queue, c.dead, c.dead + dying);
    }
  }

  lemma CallNeverPanics<R(!new)>(p: Policy<R>, c: Cell<R>, next: nat, d: nat)
    requires ClosedUnderDeletion(p) && DR.Rounds(p, c, next) && d in c.tasks && !c.panicked
    ensures !DoCallMerged(p, c, d).panicked
  {
    hide RefreshBatch, ClosedUnderDeletion, Book;
    if c.machine.Some? && c.machine.value.phase.Running? {
      RefreshNeverPanics(p, c.machine.value.queue, c.dead);
    }
  }

  lemma OthersNeverPanic<R(!new)>(p: Policy<R>, c: Cell<R>, closing: bool, next: nat, e: Event<R>)
    requires Enabled(c, closing, e) && !e.Start? && !e.CallMerged?
    ensures !Apply(p, c, closing, next, e).panicked
  {
    hide Book, DriverDropped, FinalizeCompletion, RoundFinished, OwnerStarted, Reserve, Cancel, Members;
    if c.machine.Some? {
      var m := c.machine.value;
      match e {
        case Drop(d, dying) => DropShape(p, m, d, closing, next, c.dead, c.dead + dying);
        case Finalize(d) => QuietReplies(m, d, next, c.dead, Liveness);
        case FinishRound(d) => QuietReplies(m, d, next, c.dead, c.tasks[d].pc.outcome);
        case OwnerStart(d) => QuietReplies(m, d, next, c.dead, Liveness);
        case _ =>
      }
    }
  }

  lemma QuietReplies<R(!new)>(m: Machine<R>, d: nat, next: nat, dead: set<nat>, outcome: Outcome)
    ensures !FinalizeCompletion(m, d, next, dead).reply.Panicked?
    ensures !RoundFinished(m, d, outcome).reply.Panicked?
    ensures !OwnerStarted(m, d).reply.Panicked?
  {
    hide Prune, Pruned;
  }
}
