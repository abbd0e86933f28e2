/** A strict waiter's rank: how many strict members are owed service before it. */
module DedupRank {
  import opened Sequences
  import opened DedupQueue
  import opened DedupMachine
  import opened DedupCell
  import opened DedupConservation
  import opened DedupSystem
  import opened DedupRuns
  import opened DedupGuarantees
  import DO = DedupOrder

  ghost function Line<R(!new)>(p: Policy<R>, c: Cell<R>): seq<Member<R>>
  {
    match c.machine case None => [] case Some(m) => StrictLine(p, m.queue)
  }

  ghost function Before<R(!new)>(line: seq<Member<R>>, id: nat): set<Member<R>>
  {
    set m | m in line && m.id < id
  }

  ghost function Rank<R(!new)>(p: Policy<R>, c: Cell<R>, y: Member<R>): nat
  {
    |Before(Line(p, c), y.id)|
  }

  // The line only loses members, apart from newcomers at its end ------------------------------

  lemma FinishShrinks<R(!new)>(p: Policy<R>, m: Machine<R>, d: nat, outcome: Outcome)
    ensures DO.Within(StrictLine(p, RoundFinished(m, d, outcome).machine.queue), StrictLine(p, m.queue))
  {
  }

  lemma SubmitShrinks<R(!new)>(p: Policy<R>, c: Cell<R>, next: nat, r: R, x: Member<R>)
    requires x in Line(p, DoSubmit(p, c, next, r)) && x.id < next
    ensures x in Line(p, c)
  {
    if c.machine.None? {
      FilterMembers([Member(next, r)], IsStrict(p));
    }
  }

  lemma LineShrinks<R(!new)>(p: Policy<R>, c: Cell<R>, closing: bool, next: nat, e: Event<R>, x: Member<R>)
    requires DO.Ordered(p, c) && Enabled(c, closing, e)
    requires x in Line(p, Apply(p, c, closing, next, e)) && x.id < next
    ensures x in Line(p, c)
  {
    hide StrictLine, FormBatch, RefreshBatch, Prune, Requeue, Book;
    if e.Submit? {
      SubmitShrinks(p, c, next, e.request, x);
    } else if c.machine.Some? {
      var m := c.machine.value;
      match e {
        case Start(d, dying) => DO.ThinnedForm(p, m.queue, c.dead, c.dead + dying);
        case CallMerged(d) => DO.ThinnedRefresh(p, m.queue, c.dead);
        case FinishRound(d) => FinishShrinks(p, m, d, c.tasks[d].pc.outcome);
        case Finalize(d) => DO.ThinnedPrune(p, m.queue, c.dead);
        case Drop(d, dying) => DO.ThinnedDrop(p, m, d, closing, next, c.dead, c.dead + dying);
        case _ =>
      }
    }
  }

  lemma SweepShrinks<R(!new)>(p: Policy<R>, c: Cell<R>, x: Member<R>)
    ensures x in Line(p, DoSweep(c)) ==> x in Line(p, c)
  {
    SweepSendsNothing(c);
  }

  lemma {:induction false} NextGrows<R(!new)>(p: Policy<R>, sh: Shards, run: Run<R>, i: nat, j: nat)
    requires ValidRun(p, sh, run) && i <= j < |run.states|
    ensures run.states[i].next <= run.states[j].next
    decreases j - i
  {
    if i < j {
      NextGrows(p, sh, run, i, j - 1);
      assert Follows(p, sh, run, j - 1);
    }
  }

  lemma {:induction false} LineShrinksOverRun<R(!new)>(
    p: Policy<R>, sh: Shards, run: Run<R>, i: nat, j: nat, key: string, x: Member<R>)
    requires ValidRun(p, sh, run) && i <= j < |run.states|
    requires x in Line(p, CellIn(sh, run, j, key)) && x.id < run.states[i].next
    ensures x in Line(p, CellIn(sh, run, i, key))
    decreases j - i
  {
    hide Line, Follows, Enabled, Apply, CellAt, DoSweep;
    if i < j {
      CellSteps(p, sh, run, j - 1, key);
      NextGrows(p, sh, run, i, j - 1);
      var s, c := run.states[j - 1], CellIn(sh, run, j - 1, key);
      if e :| EventFor(sh, key, run.turns[j - 1]) == Some(e) {
        if c.panicked {
          SweepShrinks(p, c, x);
        } else {
          LineShrinks(p, c, s.closing, s.next, e, x);
        }
      }
      LineShrinksOverRun(p, sh, run, i, j - 1, key, x);
    }
  }

  lemma LineNamed<R(!new)>(p: Policy<R>, c: Cell<R>, next: nat, y: Member<R>)
    requires Conserved(c) && Named(c, next) && y in Line(p, c)
    ensures y.id < next
  {
    var q := c.machine.value.queue;
    FilterMembers(q.batch, IsStrict(p));
    assert y in Members(q);
    CountPlaces(c, y);
  }

  /** A waiting strict member's rank never rises. */
  lemma RankNeverRises<R(!new)>(p: Policy<R>, sh: Shards, run: Run<R>, i: nat, j: nat, key: string, y: Member<R>)
    requires ValidRun(p, sh, run) && i <= j < |run.states| && y in Line(p, CellIn(sh, run, i, key))
    ensures Rank(p, CellIn(sh, run, j, key), y) <= Rank(p, CellIn(sh, run, i, key), y)
  {
    hide Line, Follows;
    AlwaysBooked(p, sh, run, i, key);
    LineNamed(p, CellIn(sh, run, i, key), run.states[i].next, y);
    RankByInclusion(p, sh, run, i, j, key, y);
  }

  lemma RankByInclusion<R(!new)>(p: Policy<R>, sh: Shards, run: Run<R>, i: nat, j: nat, key: string, y: Member<R>)
    requires ValidRun(p, sh, run) && i <= j < |run.states| && y.id < run.states[i].next
    ensures Before(Line(p, CellIn(sh, run, j, key)), y.id) <= Before(Line(p, CellIn(sh, run, i, key)), y.id)
    ensures Rank(p, CellIn(sh, run, j, key), y) <= Rank(p, CellIn(sh, run, i, key), y)
  {
    hide Line, Follows, CellAt;
    var late, early := Before(Line(p, CellIn(sh, run, j, key)), y.id), Before(Line(p, CellIn(sh, run, i, key)), y.id);
    forall x | x in late ensures x in early {
      LineShrinksOverRun(p, sh, run, i, j, key, x);
    }
    SubsetSize(late, early);
  }

  lemma SubsetSize<T(!new)>(a: set<T>, b: set<T>)
    requires a <= b
    ensures |a| <= |b| && (|a| == |b| ==> a == b)
  {
    assert b == a + (b - a);
  }

  // A finished round moves the line forward -----------------------------------------------------

  /** The member is not waiting in the FIFO while the round named by `signal` runs. */
  ghost predicate Seeded<R(!new)>(c: Cell<R>, signal: nat, head: Member<R>)
  {
    c.machine.Some? && c.machine.value.phase.Running? && c.machine.value.phase.signal == signal ==>
      head !in c.machine.value.queue.fifo
  }

  lemma RefreshShrinksFifo<R(!new)>(p: Policy<R>, m: Machine<R>, d: nat, dead: set<nat>, x: Member<R>)
    requires x in Refresh(p, m, d, dead).machine.queue.fifo
    ensures x in m.queue.fifo
  {
    var q := Prune(m.queue, dead);
    LiveMembers(m.queue.fifo, dead);
    if q.batch != [] && Fold(p, Requests(q.batch)).Some? {
      var r := ScanReorderable(p, Fold(p, Requests(q.batch)).value, q.reorderable);
      ScanFifoFacts(p, r.merged, q.fifo);
    }
  }

  lemma SeedStaysOut<R(!new)>(
    p: Policy<R>, c: Cell<R>, closing: bool, next: nat, e: Event<R>, signal: nat, head: Member<R>)
    requires Enabled(c, closing, e) && Seeded(c, signal, head) && signal < next && head.id < next
    ensures Seeded(Apply(p, c, closing, next, e), signal, head)
  {
    hide FormBatch, Refresh, DriverDropped, Book;
    if c.machine.Some? {
      var m := c.machine.value;
      match e {
        case Start(d, dying) =>
          if m.phase.Ready? && m.phase.driver.id == d {
            StartShape(p, m, d, closing, next, c.dead, c.dead + dying);
          }
        case CallMerged(d) =>
          RefreshShape(p, m, d, c.dead);
          if head in Refresh(p, m, d, c.dead).machine.queue.fifo {
            RefreshShrinksFifo(p, m, d, c.dead, head);
          }
        case Drop(d, dying) => DropShape(p, m, d, closing, next, c.dead, c.dead + dying);
        case _ =>
      }
    }
  }

  lemma {:induction false} SeedStaysOutOverRun<R(!new)>(
    p: Policy<R>, sh: Shards, run: Run<R>, i: nat, j: nat, key: string, signal: nat, head: Member<R>)
    requires ValidRun(p, sh, run) && i <= j < |run.states| && !CellIn(sh, run, j, key).panicked
    requires signal < run.states[i].next && head.id < run.states[i].next
    requires Seeded(CellIn(sh, run, i, key), signal, head)
    ensures Seeded(CellIn(sh, run, j, key), signal, head)
    decreases j - i
  {
    hide Seeded, Follows, Enabled, Apply, CellAt;
    if i < j {
      CellMoves(p, sh, run, j - 1, key);
      SeedStaysOutOverRun(p, sh, run, i, j - 1, key, signal, head);
      NextGrows(p, sh, run, i, j - 1);
      var s := run.states[j - 1];
      if e :| EventFor(sh, key, run.turns[j - 1]) == Some(e) {
        SeedStaysOut(p, CellIn(sh, run, j - 1, key), s.closing, s.next, e, signal, head);
      }
    }
  }

  /** A round formed from an empty batch takes the first live FIFO member out of the FIFO. */
  lemma StartTakesHead<R(!new)>(
    p: Policy<R>, q: Queue<R>, dead: set<nat>, later: set<nat>, y: Member<R>) returns (head: Member<R>)
    requires q.batch == [] && Sorted(p, q) && DO.Increasing(q.fifo) && y in q.fifo && y.id !in dead
    ensures head in q.fifo && head.id <= y.id
    ensures head !in FormBatch(p, q, dead, later).queue.fifo
  {
    var first := Prune(q, dead);
    LiveMembers(q.fifo, dead);
    DO.FilterThins(q.fifo, Alive(dead));
    assert y in first.fifo;
    head := first.fifo[0];
    assert head in first.fifo;
    var seeded := Seed(first);
    assert first.batch == [];
    assert seeded.fifo == first.fifo[1..];
    assert head !in seeded.fifo;
    var second := Prune(seeded, later);
    LiveMembers(seeded.fifo, later);
    assert FormBatch(p, q, dead, later) == MergeCompatible(p, second);
    if second.batch != [] && Fold(p, Requests(second.batch)).Some? {
      var r := ScanReorderable(p, Fold(p, Requests(second.batch)).value, second.reorderable);
      ScanFifoFacts(p, r.merged, second.fifo);
    }
  }

  /** The turn starts a worker round from an empty batch for the task. */
  ghost predicate OpensRound<R(!new)>(sh: Shards, run: Run<R>, i: nat, key: string, d: nat, dying: set<nat>)
    requires i < |run.turns| && |run.states| == |run.turns| + 1
  {
    var c := CellIn(sh, run, i, key);
    && run.turns[i] == OnKey(key, Start(d, dying))
    && c.machine.Some? && c.machine.value.phase.Ready? && c.machine.value.phase.driver.id == d
    && c.machine.value.queue.batch == []
  }

  /** The turn finishes, with the worker's result or without one, the round that turn `i` started. */
  ghost predicate FinishesRound<R(!new)>(sh: Shards, run: Run<R>, i: nat, j: nat, key: string, d: nat)
    requires i < j < |run.turns| && |run.states| == |run.turns| + 1
  {
    var c := CellIn(sh, run, j, key);
    && run.turns[j] == OnKey(key, FinishRound(d))
    && c.machine.Some? && c.machine.value.phase.Running?
    && c.machine.value.phase.driver.id == d && c.machine.value.phase.signal == run.states[i].next
    && d in c.tasks && c.tasks[d].pc.RoundOver? && !c.tasks[d].pc.outcome.Shutdown?
  }

  lemma OpeningSeeds<R(!new)>(
    p: Policy<R>, sh: Shards, run: Run<R>, i: nat, key: string, d: nat, dying: set<nat>, y: Member<R>)
    returns (head: Member<R>)
    requires ValidRun(p, sh, run) && i < |run.turns| && OpensRound(sh, run, i, key, d, dying)
    requires !CellIn(sh, run, i + 1, key).panicked
    requires y in Line(p, CellIn(sh, run, i, key)) && y in Line(p, CellIn(sh, run, i + 1, key))
    ensures head in Line(p, CellIn(sh, run, i, key)) && head.id <= y.id < run.states[i].next < run.states[i + 1].next
    ensures Seeded(CellIn(sh, run, i + 1, key), run.states[i].next, head)
  {
    hide Line, Seeded, Apply, Enabled;
    CellMoves(p, sh, run, i, key);
    var s, c := run.states[i], CellIn(sh, run, i, key);
    assert Follows(p, sh, run, i);
    LineNamed(p, c, s.next, y);
    head := StartSeeds(p, c, s.closing, s.next, d, dying, y);
  }

  lemma SurvivorsLive<R(!new)>(p: Policy<R>, q: Queue<R>, dead: set<nat>, later: set<nat>, y: Member<R>)
    requires Sorted(p, q) && q.batch == [] && y in StrictLine(p, FormBatch(p, q, dead, later).queue)
    ensures y in q.fifo && y.id !in dead
  {
    hide FormBatch;
    StrictLineForm(p, q, dead, later);
    assert StrictLine(p, q) == q.fifo;
    LiveMembers(Live(q.fifo, dead), later);
    LiveMembers(q.fifo, dead);
  }

  lemma StartQueue<R(!new)>(
    p: Policy<R>, m: Machine<R>, d: nat, closing: bool, next: nat, dead: set<nat>, later: set<nat>)
    requires m.phase.Ready? && m.phase.driver.id == d
    ensures var s := StartRound(p, m, d, closing, next, dead, later);
            if closing then s.action.Remove? else s.machine.queue == FormBatch(p, m.queue, dead, later).queue
  {
    hide FormBatch;
  }

  lemma StartSeeds<R(!new)>(
    p: Policy<R>, c: Cell<R>, closing: bool, next: nat, d: nat, dying: set<nat>, y: Member<R>) returns (head: Member<R>)
    requires DO.Ordered(p, c) && Enabled(c, closing, Start(d, dying))
    requires c.machine.Some? && c.machine.value.phase.Ready? && c.machine.value.phase.driver.id == d
    requires c.machine.value.queue.batch == []
    requires y in Line(p, c) && y in Line(p, Apply(p, c, closing, next, Start(d, dying)))
    ensures head in Line(p, c) && head.id <= y.id
    ensures Seeded(Apply(p, c, closing, next, Start(d, dying)), next, head)
  {
    hide Enabled, DO.Served, StartRound, FormBatch, Book;
    var q := c.machine.value.queue;
    assert StrictLine(p, q) == q.fifo;
    StartQueue(p, c.machine.value, d, closing, next, c.dead, c.dead + dying);
    SurvivorsLive(p, q, c.dead, c.dead + dying, y);
    head := StartTakesHead(p, q, c.dead, c.dead + dying, y);
  }

  /**
   A finished round that began with an empty batch strictly lowers the rank of every
   strict member that was waiting when it began and is still waiting when it ends.
   */
  lemma FinishedRoundLowersRank<R(!new)>(
    p: Policy<R>, sh: Shards, run: Run<R>, i: nat, j: nat, key: string, d: nat, dying: set<nat>, y: Member<R>)
    requires ValidRun(p, sh, run) && i < j < |run.turns|
    requires OpensRound(sh, run, i, key, d, dying) && FinishesRound(sh, run, i, j, key, d)
    requires y in Line(p, CellIn(sh, run, i, key)) && y in Line(p, CellIn(sh, run, j + 1, key))
    ensures Rank(p, CellIn(sh, run, j + 1, key), y) < Rank(p, CellIn(sh, run, i, key), y)
  {
    hide Line, OpensRound, FinishesRound, Follows, CellAt, Seeded;
    FinishedHealthy(p, sh, run, i, j, key, d);
    StillWaiting(p, sh, run, i, j, key, y);
    var head := OpeningSeeds(p, sh, run, i, key, d, dying, y);
    FinishTakesSeed(p, sh, run, i, j, key, d, head);
    RankByInclusion(p, sh, run, i, j + 1, key, y);
    var late, early := Before(Line(p, CellIn(sh, run, j + 1, key)), y.id), Before(Line(p, CellIn(sh, run, i, key)), y.id);
    assert head.id != y.id by {
      SameMember(p, sh, run, i, key, head, y);
    }
    assert head in early && head !in late;
    SubsetSize(late, early);
  }

  lemma StillWaiting<R(!new)>(p: Policy<R>, sh: Shards, run: Run<R>, i: nat, j: nat, key: string, y: Member<R>)
    requires ValidRun(p, sh, run) && i < j < |run.turns| && !CellIn(sh, run, j + 1, key).panicked
    requires !CellIn(sh, run, i, key).panicked
    requires y in Line(p, CellIn(sh, run, i, key)) && y in Line(p, CellIn(sh, run, j + 1, key))
    ensures y in Line(p, CellIn(sh, run, i + 1, key))
  {
    hide Line, Follows, CellAt;
    AlwaysSound(p, sh, run, i, key);
    LineNamed(p, CellIn(sh, run, i, key), run.states[i].next, y);
    NextGrows(p, sh, run, i, i + 1);
    LineShrinksOverRun(p, sh, run, i + 1, j + 1, key, y);
  }

  lemma SameMember<R(!new)>(p: Policy<R>, sh: Shards, run: Run<R>, i: nat, key: string, x: Member<R>, y: Member<R>)
    requires ValidRun(p, sh, run) && i < |run.states| && !CellIn(sh, run, i, key).panicked
    requires x in Line(p, CellIn(sh, run, i, key)) && y in Line(p, CellIn(sh, run, i, key))
    ensures x.id == y.id ==> x == y
  {
    AlwaysSound(p, sh, run, i, key);
    assert DO.Increasing(Line(p, CellIn(sh, run, i, key)));
  }

  lemma {:induction false} HealthyBefore<R(!new)>(p: Policy<R>, sh: Shards, run: Run<R>, i: nat, j: nat, key: string)
    requires ValidRun(p, sh, run) && i <= j < |run.states| && !CellIn(sh, run, j, key).panicked
    ensures !CellIn(sh, run, i, key).panicked
    decreases j - i
  {
    if i < j {
      CellMoves(p, sh, run, j - 1, key);
      HealthyBefore(p, sh, run, i, j - 1, key);
    }
  }

  lemma FinishedHealthy<R(!new)>(p: Policy<R>, sh: Shards, run: Run<R>, i: nat, j: nat, key: string, d: nat)
    requires ValidRun(p, sh, run) && i < j < |run.turns| && FinishesRound(sh, run, i, j, key, d)
    ensures !CellIn(sh, run, j + 1, key).panicked && !CellIn(sh, run, j, key).panicked
    ensures !CellIn(sh, run, i + 1, key).panicked && !CellIn(sh, run, i, key).panicked
  {
    assert Follows(p, sh, run, j);
    HealthyBefore(p, sh, run, i + 1, j, key);
    HealthyBefore(p, sh, run, i, j, key);
  }

  lemma FinishTakesSeed<R(!new)>(
    p: Policy<R>, sh: Shards, run: Run<R>, i: nat, j: nat, key: string, d: nat, head: Member<R>)
    requires ValidRun(p, sh, run) && i < j < |run.turns| && FinishesRound(sh, run, i, j, key, d)
    requires !CellIn(sh, run, j, key).panicked
    requires Seeded(CellIn(sh, run, i + 1, key), run.states[i].next, head) && head.id < run.states[i].next
    requires run.states[i].next < run.states[i + 1].next
    ensures head !in Line(p, CellIn(sh, run, j + 1, key))
  {
    SeedStaysOutOverRun(p, sh, run, i + 1, j, key, run.states[i].next, head);
    assert Follows(p, sh, run, j);
    var m := CellIn(sh, run, j, key).machine.value;
    assert Line(p, CellIn(sh, run, j + 1, key)) == [] + m.queue.fifo;
  }
}
