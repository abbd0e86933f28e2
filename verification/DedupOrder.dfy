/** Strict members are served in the order they arrived, and no waiter ever falls back. */
module DedupOrder {
  import opened Sequences
  import opened DedupQueue
  import opened DedupMachine
  import opened DedupCell
  import opened DedupConservation

  ghost predicate Increasing<R(!new)>(ms: seq<Member<R>>)
  {
    forall i, j :: 0 <= i < j < |ms| ==> ms[i].id < ms[j].id
  }

  ghost predicate Within<R(!new)>(a: seq<Member<R>>, b: seq<Member<R>>)
  {
    forall m :: m in a ==> m in b
  }

  lemma {:induction false} FilterThins<R(!new)>(ms: seq<Member<R>>, keep: Member<R> -> bool)
    ensures Within(Filter(ms, keep), ms)
    ensures Increasing(ms) ==> Increasing(Filter(ms, keep))
  {
    if ms != [] {
      FilterThins(ms[1..], keep);
      var rest := Filter(ms[1..], keep);
      forall m | m in Filter(ms, keep) ensures m in ms {
        FilterMember(ms, keep, m);
      }
      if Increasing(ms) {
        forall m | m in rest ensures ms[0].id < m.id {
          assert m in ms[1..];
        }
      }
    }
  }

  /** The queue after a transition keeps a thinned-out strict line, in its original order. */
  ghost predicate Thinned<R(!new)>(p: Policy<R>, q': Queue<R>, q: Queue<R>)
  {
    && Sorted(p, q')
    && Within(StrictLine(p, q'), StrictLine(p, q))
    && (Increasing(StrictLine(p, q)) ==> Increasing(StrictLine(p, q')))
  }

  lemma ThinnedPrune<R(!new)>(p: Policy<R>, q: Queue<R>, dead: set<nat>)
    requires Sorted(p, q)
    ensures Thinned(p, Prune(q, dead), q)
  {
    SortedPrune(p, q, dead);
    StrictLinePrune(p, q, dead);
    FilterThins(StrictLine(p, q), Alive(dead));
  }

  lemma ThinnedRefresh<R(!new)>(p: Policy<R>, q: Queue<R>, dead: set<nat>)
    requires Sorted(p, q)
    ensures Thinned(p, RefreshBatch(p, q, dead).queue, q)
  {
    StrictLineRefresh(p, q, dead);
    FilterThins(StrictLine(p, q), Alive(dead));
  }

  lemma ThinnedForm<R(!new)>(p: Policy<R>, q: Queue<R>, dead: set<nat>, later: set<nat>)
    requires Sorted(p, q)
    ensures Thinned(p, FormBatch(p, q, dead, later).queue, q)
  {
    StrictLineForm(p, q, dead, later);
    FilterThins(StrictLine(p, q), Alive(dead));
    FilterThins(Live(StrictLine(p, q), dead), Alive(later));
  }

  lemma IncreasingParts<R(!new)>(a: seq<Member<R>>, b: seq<Member<R>>)
    ensures Increasing(a + b) <==> Increasing(a) && Increasing(b) && forall x, y :: x in a && y in b ==> x.id < y.id
  {
    if Increasing(a + b) {
      forall i, j | 0 <= i < j < |a| ensures a[i].id < a[j].id {
        assert (a + b)[i] == a[i] && (a + b)[j] == a[j];
      }
      forall i, j | 0 <= i < j < |b| ensures b[i].id < b[j].id {
        assert (a + b)[|a| + i] == b[i] && (a + b)[|a| + j] == b[j];
      }
      forall x, y | x in a && y in b ensures x.id < y.id {
        var i :| 0 <= i < |a| && a[i] == x;
        var j :| 0 <= j < |b| && b[j] == y;
        assert (a + b)[i] == x && (a + b)[|a| + j] == y;
      }
    }
  }

  lemma ThinnedRequeue<R(!new)>(p: Policy<R>, q: Queue<R>, dead: set<nat>)
    requires Sorted(p, q)
    ensures Thinned(p, Requeue(p, q, dead), q)
  {
    StrictLineRequeue(p, q, dead);
    var strict := Strict(p, q.batch);
    FilterThins(strict, Alive(dead));
    IncreasingParts(strict, q.fifo);
    IncreasingParts(Live(strict, dead), q.fifo);
  }

  lemma ThinnedTwice<R(!new)>(p: Policy<R>, a: Queue<R>, b: Queue<R>, c: Queue<R>)
    requires Thinned(p, a, b) && Thinned(p, b, c)
    ensures Thinned(p, a, c)
  {
  }

  lemma ThinnedDrop<R(!new)>(
    p: Policy<R>, m: Machine<R>, d: nat, closing: bool, next: nat, dead: set<nat>, later: set<nat>)
    requires Sorted(p, m.queue)
    ensures Thinned(p, DriverDropped(p, m, d, closing, next, dead, later).machine.queue, m.queue)
  {
    var requeued := Requeue(p, m.queue, dead);
    ThinnedRequeue(p, m.queue, dead);
    ThinnedPrune(p, requeued, later);
    ThinnedTwice(p, Prune(requeued, later), requeued, m.queue);
    var q' := DriverDropped(p, m, d, closing, next, dead, later).machine.queue;
    assert q' == m.queue || q' == requeued || q' == Prune(requeued, later);
  }

  // The order invariant -------------------------------------------------------------------

  /** Everything strict that was already served arrived before everything strict still waiting. */
  ghost predicate Served<R(!new)>(p: Policy<R>, log: Log<R>, line: seq<Member<R>>)
  {
    forall x, y :: (x in log.delivered || x in log.pending) && !p.canReorder(x.request) && y in line ==> x.id < y.id
  }

  ghost predicate InOrder<R(!new)>(p: Policy<R>, q: Queue<R>, log: Log<R>)
  {
    && Sorted(p, q)
    && Increasing(StrictLine(p, q))
    && Served(p, log, StrictLine(p, q))
  }

  ghost predicate Ordered<R(!new)>(p: Policy<R>, c: Cell<R>)
  {
    c.machine.Some? ==> InOrder(p, c.machine.value.queue, c.log)
  }

  lemma ThinnedInOrder<R(!new)>(p: Policy<R>, q': Queue<R>, q: Queue<R>, log: Log<R>, s: Step<R>)
    requires InOrder(p, q, log) && Thinned(p, q', q) && s.delivery == []
    ensures InOrder(p, q', Book(log, s))
  {
  }

  lemma MembersBelow<R(!new)>(c: Cell<R>, next: nat)
    requires Conserved(c) && Named(c, next)
    ensures forall m :: m in Queued(c.machine) || m in c.log.pending || m in c.log.delivered ==> m.id < next
  {
    forall m | m in Queued(c.machine) || m in c.log.pending || m in c.log.delivered ensures m.id < next {
      assert m in Places(Queued(c.machine), c.log);
      assert m in multiset(c.log.submitted);
    }
  }

  lemma EnqueueInOrder<R(!new)>(p: Policy<R>, q: Queue<R>, log: Log<R>, member: Member<R>)
    requires InOrder(p, q, log)
    requires forall m :: m in Members(q) || m in log.pending || m in log.delivered ==> m.id < member.id
    ensures InOrder(p, Enqueue(p, q, member), log)
  {
    hide Increasing;
    LineMembers(p, q);
    EnqueueLine(p, q, member);
    if !p.canReorder(member.request) {
      AlwaysIncreasing(member);
      IncreasingParts(StrictLine(p, q), [member]);
    }
  }

  lemma EnqueueLine<R(!new)>(p: Policy<R>, q: Queue<R>, member: Member<R>)
    ensures StrictLine(p, Enqueue(p, q, member)) ==
            if p.canReorder(member.request) then StrictLine(p, q) else StrictLine(p, q) + [member]
  {
  }

  lemma AlwaysIncreasing<R(!new)>(member: Member<R>)
    ensures Increasing([member])
  {
  }

  lemma NewInOrder<R(!new)>(p: Policy<R>, log: Log<R>, member: Member<R>)
    requires forall m :: m in log.pending || m in log.delivered ==> m.id < member.id
    ensures InOrder(p, NewQueue(member), log)
  {
    if p.canReorder(member.request) {
      FilterNone([member], IsStrict(p));
    } else {
      FilterAll([member], IsStrict(p));
    }
  }

  lemma OrderedSubmit<R(!new)>(p: Policy<R>, c: Cell<R>, next: nat, r: R)
    requires Ordered(p, c) && Conserved(c) && Named(c, next)
    ensures Ordered(p, DoSubmit(p, c, next, r))
  {
    MembersBelow(c, next);
    var member := Member(next, r);
    if c.machine.Some? {
      EnqueueInOrder(p, c.machine.value.queue, c.log, member);
    } else {
      NewInOrder(p, c.log, member);
    }
  }

  lemma LineMembers<R(!new)>(p: Policy<R>, q: Queue<R>)
    ensures forall m :: m in StrictLine(p, q) ==> m in Members(q)
  {
    forall m | m in StrictLine(p, q) ensures m in Members(q) {
      FilterMember(q.batch, IsStrict(p), m);
    }
  }

  lemma OrderedStart<R(!new)>(p: Policy<R>, c: Cell<R>, closing: bool, next: nat, d: nat, dying: set<nat>)
    requires Ordered(p, c) && d in c.tasks
    ensures Ordered(p, DoStart(p, c, closing, next, d, dying))
  {
    hide FormBatch, Thinned, Served, Increasing;
    if c.machine.Some? {
      var m, later := c.machine.value, c.dead + dying;
      ThinnedForm(p, m.queue, c.dead, later);
      var s := StartRound(p, m, d, closing, next, c.dead, later);
      assert s.machine.queue == m.queue || s.machine.queue == FormBatch(p, m.queue, c.dead, later).queue;
      ThinnedInOrder(p, s.machine.queue, m.queue, c.log, s);
    }
  }

  lemma OrderedCallMerged<R(!new)>(p: Policy<R>, c: Cell<R>, d: nat)
    requires Ordered(p, c) && d in c.tasks
    ensures Ordered(p, DoCallMerged(p, c, d))
  {
    hide RefreshBatch, Thinned, Served, Increasing;
    if c.machine.Some? {
      var m := c.machine.value;
      ThinnedRefresh(p, m.queue, c.dead);
      var s := Refresh(p, m, d, c.dead);
      assert s.machine.queue == m.queue || s.machine.queue == RefreshBatch(p, m.queue, c.dead).queue;
      ThinnedInOrder(p, s.machine.queue, m.queue, c.log, s);
    }
  }

  /** Taking the batch serves a prefix of the strict line. */
  lemma OrderedTake<R(!new)>(p: Policy<R>, q: Queue<R>, log: Log<R>, s: Step<R>)
    requires InOrder(p, q, log) && (s.delivery == q.batch || s.delivery == [])
    ensures InOrder(p, q.(batch := []), Book(log, s))
  {
    IncreasingParts(Strict(p, q.batch), q.fifo);
    var q' := q.(batch := []);
    assert StrictLine(p, q') == q.fifo;
    FilterMembers(q.batch, IsStrict(p));
  }

  lemma OrderedFinishRound<R(!new)>(p: Policy<R>, c: Cell<R>, d: nat)
    requires Ordered(p, c) && d in c.tasks && c.tasks[d].pc.RoundOver?
    ensures Ordered(p, DoFinishRound(c, d))
  {
    if c.machine.Some? {
      var m := c.machine.value;
      var s := RoundFinished(m, d, c.tasks[d].pc.outcome);
      if s.reply.Finished? {
        OrderedTake(p, m.queue, c.log, s);
      }
    }
  }

  lemma OrderedSend<R(!new)>(p: Policy<R>, q: Queue<R>, log: Log<R>, result: Option<nat>)
    requires InOrder(p, q, log)
    ensures InOrder(p, q, Send(log, result))
  {
  }

  lemma OrderedFinalize<R(!new)>(p: Policy<R>, c: Cell<R>, next: nat, d: nat)
    requires Ordered(p, c) && d in c.tasks
    ensures Ordered(p, DoFinalize(c, next, d))
  {
    if c.machine.Some? {
      var m := c.machine.value;
      ThinnedPrune(p, m.queue, c.dead);
      var s := FinalizeCompletion(m, d, next, c.dead);
      if m.phase.Completing? && m.phase.driver.id == d {
        FinalizeParts(m, d, next, c.dead);
        ThinnedInOrder(p, s.machine.queue, m.queue, c.log, s);
      } else {
        assert s == Unchanged(m);
      }
    }
  }

  lemma OrderedDrop<R(!new)>(p: Policy<R>, c: Cell<R>, closing: bool, next: nat, d: nat, dying: set<nat>)
    requires Ordered(p, c)
    ensures Ordered(p, DoDrop(p, c, closing, next, d, dying))
  {
    if c.machine.Some? {
      var m, later := c.machine.value, c.dead + dying;
      ThinnedDrop(p, m, d, closing, next, c.dead, later);
      DropShape(p, m, d, closing, next, c.dead, later);
      var s := DriverDropped(p, m, d, closing, next, c.dead, later);
      ThinnedInOrder(p, s.machine.queue, m.queue, c.log, s);
    }
  }

  lemma OrderedOwnerStart<R(!new)>(p: Policy<R>, c: Cell<R>, d: nat)
    requires Ordered(p, c) && d in c.tasks
    ensures Ordered(p, DoOwnerStart(c, d))
  {
  }

  lemma OrderedKept<R(!new)>(p: Policy<R>, c: Cell<R>, closing: bool, next: nat, e: Event<R>)
    requires Ordered(p, c) && Conserved(c) && Named(c, next) && Enabled(c, closing, e)
    ensures Ordered(p, Apply(p, c, closing, next, e))
  {
    hide InOrder, DoSubmit, DoStart, DoCallMerged, DoFinishRound, DoFinalize, DoOwnerStart, DoDrop;
    match e
    case Submit(r) => OrderedSubmit(p, c, next, r);
    case Start(d, dying) => OrderedStart(p, c, closing, next, d, dying);
    case CallMerged(d) => OrderedCallMerged(p, c, d);
    case WorkerEnds(_, _) =>
    case FinishRound(d) => OrderedFinishRound(p, c, d);
    case Deliver(d) => if c.machine.Some? { OrderedSend(p, c.machine.value.queue, c.log, c.tasks[d].pc.result); }
    case Finalize(d) => OrderedFinalize(p, c, next, d);
    case OwnerStart(d) => OrderedOwnerStart(p, c, d);
    case Drop(d, dying) => OrderedDrop(p, c, closing, next, d, dying);
    case Return(_) =>
    case Kill(_) =>
    case Sweep =>
  }
}
