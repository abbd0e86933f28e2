/** Every submitted member is always in exactly one place. */
module DedupConservation {
  import opened Sequences
  import opened DedupQueue
  import opened DedupMachine
  import opened DedupCell

  ghost function Queued<R(!new)>(m: Option<Machine<R>>): multiset<Member<R>>
  {
    match m case None => multiset{} case Some(x) => Members(x.queue)
  }

  /** All places a member can be: queued, awaiting its result, or settled in one of three ways. */
  ghost function Places<R(!new)>(queued: multiset<Member<R>>, log: Log<R>): multiset<Member<R>>
  {
    Total(queued, multiset(log.pending), log.delivered, log.discarded, log.retired)
  }

  ghost function Total<T(!new)>(
    queued: multiset<T>, pending: multiset<T>, delivered: multiset<T>, discarded: multiset<T>, retired: multiset<T>): multiset<T>
  {
    queued + pending + delivered + discarded + retired
  }

  ghost predicate Conserved<R(!new)>(c: Cell<R>)
  {
    Places(Queued(c.machine), c.log) == multiset(c.log.submitted)
  }

  /** A transition accounts for everything that was queued. */
  ghost predicate Balanced<R(!new)>(m: Machine<R>, s: Step<R>)
  {
    Members(m.queue) == Members(s.machine.queue) + multiset(s.discarded) + multiset(s.delivery)
  }

  lemma BookConserves<R(!new)>(m: Machine<R>, log: Log<R>, s: Step<R>)
    requires Balanced(m, s)
    ensures Places(Queued(Kept(s)), Book(log, s)) == Places(Members(m.queue), log)
  {
    var q, a := Members(m.queue), Members(s.machine.queue);
    var b, d := multiset(s.discarded), multiset(s.delivery);
    assert multiset(log.pending + s.delivery) == multiset(log.pending) + d;
    Regroup(q, a, b, d, multiset(log.pending), log.delivered, log.discarded, log.retired);
  }

  lemma Regroup<T(!new)>(
    q: multiset<T>, a: multiset<T>, b: multiset<T>, d: multiset<T>,
    p: multiset<T>, v: multiset<T>, x: multiset<T>, t: multiset<T>)
    requires q == a + b + d
    ensures Total(q, p, v, x, t) == Total(a, p + d, v, x + b, t + multiset{})
    ensures Total(q, p, v, x, t) == Total(multiset{}, p + d, v, x + b, t + a)
  {
  }

  lemma StartBalanced<R(!new)>(
    p: Policy<R>, m: Machine<R>, d: nat, closing: bool, next: nat, dead: set<nat>, later: set<nat>)
    ensures Balanced(m, StartRound(p, m, d, closing, next, dead, later))
  {
    FormConserves(p, m.queue, dead, later);
  }

  lemma RefreshBalanced<R(!new)>(p: Policy<R>, m: Machine<R>, d: nat, dead: set<nat>)
    ensures Balanced(m, Refresh(p, m, d, dead))
  {
    RefreshConserves(p, m.queue, dead);
  }

  lemma FinishBalanced<R(!new)>(m: Machine<R>, d: nat, o: Outcome)
    ensures Balanced(m, RoundFinished(m, d, o))
  {
  }

  lemma FinalizeBalanced<R(!new)>(m: Machine<R>, d: nat, next: nat, dead: set<nat>)
    ensures Balanced(m, FinalizeCompletion(m, d, next, dead))
  {
    if m.phase.Completing? && m.phase.driver.id == d {
      PruneConserves(m.queue, dead);
      FinalizeParts(m, d, next, dead);
    }
  }

  lemma FinalizeParts<R(!new)>(m: Machine<R>, d: nat, next: nat, dead: set<nat>)
    requires m.phase.Completing? && m.phase.driver.id == d
    ensures var s := FinalizeCompletion(m, d, next, dead);
            s.machine.queue == Prune(m.queue, dead) && s.discarded == Pruned(m.queue, dead) && s.delivery == []
  {
  }

  lemma DropBalanced<R(!new)>(
    p: Policy<R>, m: Machine<R>, d: nat, closing: bool, next: nat, dead: set<nat>, later: set<nat>)
    ensures Balanced(m, DriverDropped(p, m, d, closing, next, dead, later))
  {
    var s := DriverDropped(p, m, d, closing, next, dead, later);
    var requeued := Requeue(p, m.queue, dead);
    if !Drives(m.phase, d) {
      assert s == Unchanged(m);
    } else {
      RequeueConserves(p, m.queue, dead);
      assert s.delivery == [];
      if closing {
        assert s.machine.queue == requeued && s.discarded == Gone(m.queue.batch, dead);
      } else {
        PruneConserves(requeued, later);
        assert s.machine.queue == Prune(requeued, later);
        assert s.discarded == Gone(m.queue.batch, dead) + Pruned(requeued, later);
        Reassociate(Members(m.queue), Members(requeued), multiset(Gone(m.queue.batch, dead)),
                    Members(s.machine.queue), multiset(Pruned(requeued, later)));
      }
    }
  }

  lemma Reassociate<T(!new)>(q: multiset<T>, r: multiset<T>, g: multiset<T>, a: multiset<T>, b: multiset<T>)
    requires q == r + g && r == a + b
    ensures q == a + (g + b) + multiset{}
  {
  }

  lemma SubmitConserves<R(!new)>(p: Policy<R>, c: Cell<R>, next: nat, r: R)
    requires Conserved(c)
    requires forall m :: m in c.log.submitted ==> m.id < next
    ensures Conserved(DoSubmit(p, c, next, r))
  {
    var member := Member(next, r);
    assert member !in c.log.submitted;
    assert multiset(c.log.submitted + {member}) == multiset(c.log.submitted) + multiset{member};
    SubmitQueues(p, c.machine, next, r);
    AddOne(Queued(c.machine), multiset{member}, multiset(c.log.pending), c.log.delivered, c.log.discarded, c.log.retired);
  }

  lemma SubmitQueues<R(!new)>(p: Policy<R>, m: Option<Machine<R>>, next: nat, r: R)
    ensures var member := Member(next, r);
            && (m.Some? ==> Members(DedupMachine.Submit(p, m.value, member).queue) == Queued(m) + multiset{member})
            && Members(NewMachine(member, next).queue) == multiset{member}
  {
  }

  lemma AddOne<T(!new)>(q: multiset<T>, a: multiset<T>, p: multiset<T>, v: multiset<T>, x: multiset<T>, t: multiset<T>)
    ensures Total(q + a, p, v, x, t) == Total(q, p, v, x, t) + a
    ensures Total(a, p, v, x, t) == Total(multiset{}, p, v, x, t) + a
  {
  }

  lemma SendConserves<R(!new)>(queued: multiset<Member<R>>, log: Log<R>, result: Option<nat>)
    ensures Places(queued, Send(log, result)) == Places(queued, log)
  {
    if result.Some? {
      Swap(queued, multiset(log.pending), log.delivered, log.discarded, log.retired);
    }
  }

  lemma Swap<T(!new)>(q: multiset<T>, p: multiset<T>, v: multiset<T>, x: multiset<T>, t: multiset<T>)
    ensures Total(q, p, v, x, t) == Total(q, multiset{}, v + p, x, t)
  {
  }

  lemma CommitConserves<R(!new)>(c: Cell<R>, tasks: map<nat, Task<R>>, dead: set<nat>, s: Step<R>)
    requires Conserved(c) && c.machine.Some? && Balanced(c.machine.value, s)
    ensures Conserved(Commit(c, tasks, dead, s))
  {
    BookConserves(c.machine.value, c.log, s);
  }

  lemma RoundConserves<R(!new)>(p: Policy<R>, c: Cell<R>, closing: bool, next: nat, d: nat, dying: set<nat>)
    requires Conserved(c) && d in c.tasks
    ensures Conserved(DoStart(p, c, closing, next, d, dying))
    ensures Conserved(DoCallMerged(p, c, d))
  {
    if c.machine.Some? {
      var m, later := c.machine.value, c.dead + dying;
      var s := StartRound(p, m, d, closing, next, c.dead, later);
      StartBalanced(p, m, d, closing, next, c.dead, later);
      CommitConserves(c, c.tasks[d := StartTask(c.tasks[d], s)], later, s);
      var r := Refresh(p, m, d, c.dead);
      RefreshBalanced(p, m, d, c.dead);
      CommitConserves(c, c.tasks[d := c.tasks[d].(seen := Folded(r))], c.dead, r);
    }
  }

  lemma FinishConserves<R(!new)>(c: Cell<R>, next: nat, d: nat)
    requires Conserved(c) && d in c.tasks
    ensures c.tasks[d].pc.RoundOver? ==> Conserved(DoFinishRound(c, d))
    ensures Conserved(DoFinalize(c, next, d))
  {
    if c.machine.Some? {
      var m := c.machine.value;
      if c.tasks[d].pc.RoundOver? {
        var outcome := c.tasks[d].pc.outcome;
        var s := RoundFinished(m, d, outcome);
        FinishBalanced(m, d, outcome);
        CommitConserves(c, SetPc(c.tasks, d, FinishPc(s, outcome)), c.dead, s);
      }
      var f := FinalizeCompletion(m, d, next, c.dead);
      FinalizeBalanced(m, d, next, c.dead);
      CommitConserves(c, SetPc(c.tasks, d, if f.reply.Again? then AtStart else Returning), c.dead, f);
    }
  }

  lemma HandoverConserves<R(!new)>(p: Policy<R>, c: Cell<R>, closing: bool, next: nat, d: nat, dying: set<nat>)
    requires Conserved(c) && d in c.tasks
    ensures Conserved(DoDrop(p, c, closing, next, d, dying))
    ensures Conserved(DoOwnerStart(c, d))
  {
    hide DriverDropped, Places, Reserve, Cancel;
    if c.machine.Some? {
      var m, later := c.machine.value, c.dead + dying;
      DropBalanced(p, m, d, closing, next, c.dead, later);
      CommitConserves(c, c.tasks - {d}, later, DriverDropped(p, m, d, closing, next, c.dead, later));
      var s := OwnerStarted(m, d);
      CommitConserves(c, SetPc(c.tasks, d, if s.reply.Accepted? then AtStart else Returning), c.dead, s);
    }
  }

  lemma SweepConserves<R(!new)>(c: Cell<R>)
    requires Conserved(c)
    ensures Conserved(DoSweep(c))
  {
    if c.machine.Some? {
      CommitConserves(c, c.tasks, c.dead, Close(c.machine.value));
    }
  }

  /** Over every event, the places still hold exactly the submitted members, once each. */
  lemma ConservedKept<R(!new)>(p: Policy<R>, c: Cell<R>, closing: bool, next: nat, e: Event<R>)
    requires Conserved(c) && Enabled(c, closing, e)
    requires forall m :: m in c.log.submitted ==> m.id < next
    ensures Conserved(Apply(p, c, closing, next, e))
  {
    match e
    case Submit(r) => SubmitConserves(p, c, next, r);
    case Start(d, dying) => RoundConserves(p, c, closing, next, d, dying);
    case CallMerged(d) => RoundConserves(p, c, closing, next, d, {});
    case WorkerEnds(_, _) =>
    case FinishRound(d) => FinishConserves(c, next, d);
    case Deliver(d) => SendConserves(Queued(c.machine), c.log, c.tasks[d].pc.result);
    case Finalize(d) => FinishConserves(c, next, d);
    case OwnerStart(d) => HandoverConserves(p, c, closing, next, d, {});
    case Drop(d, dying) => HandoverConserves(p, c, closing, next, d, dying);
    case Return(_) =>
    case Kill(_) =>
    case Sweep => SweepConserves(c);
  }

  // Which members are dead, and which ids are taken ----------------------------------------

  ghost function Dying<R(!new)>(e: Event<R>): set<nat>
  {
    match e
    case Start(_, dying) => dying
    case Drop(_, dying) => dying
    case Kill(id) => {id}
    case _ => {}
  }

  ghost predicate Named<R(!new)>(c: Cell<R>, next: nat)
  {
    && (forall m :: m in c.log.submitted ==> m.id < next)
    && (forall m, n :: m in c.log.submitted && n in c.log.submitted && m.id == n.id ==> m == n)
    && (forall id :: id in c.dead ==> id < next)
  }

  /** No event revives a receiver or drops one that a running inline driver holds. */
  lemma DeadGrows<R(!new)>(p: Policy<R>, c: Cell<R>, closing: bool, next: nat, e: Event<R>)
    requires Enabled(c, closing, e)
    ensures Apply(p, c, closing, next, e).dead == c.dead + Dying(e)
    ensures Apply(p, c, closing, next, e).log.submitted ==
            if e.Submit? then c.log.submitted + {Member(next, e.request)} else c.log.submitted
  {
    hide StartRound, Refresh, RoundFinished, FinalizeCompletion, DriverDropped, OwnerStarted, Members;
  }

  lemma NamedKept<R(!new)>(p: Policy<R>, c: Cell<R>, closing: bool, next: nat, e: Event<R>)
    requires Named(c, next) && Enabled(c, closing, e)
    ensures Named(Apply(p, c, closing, next, e), next + 1)
  {
    DeadGrows(p, c, closing, next, e);
    assert Killable(c, Dying(e));
  }
}
