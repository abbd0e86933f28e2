/** When a round's signal is cancelled: exactly when nobody is left, its driver goes or the key is cleared. */
module DedupSignals {
  import opened Sequences
  import opened DedupQueue
  import opened DedupMachine
  import opened DedupCell
  import opened DedupSystem
  import opened DedupRuns
  import opened DedupGuarantees

  /** The event ends the round in progress from outside. */
  ghost predicate Cancels<R(!new)>(c: Cell<R>, e: Event<R>)
    requires c.machine.Some? && c.machine.value.phase.Running?
  {
    var m := c.machine.value;
    match e
    case Sweep => true
    case Drop(d, _) => d == m.phase.driver.id
    case CallMerged(d) =>
      d == m.phase.driver.id && forall i :: 0 <= i < |m.queue.batch| ==> m.queue.batch[i].id in c.dead
    case _ => false
  }

  lemma FiresExactly<R(!new)>(p: Policy<R>, c: Cell<R>, closing: bool, next: nat, e: Event<R>, x: nat)
    requires Enabled(c, closing, e)
    ensures x in Apply(p, c, closing, next, e).fired <==>
              || x in c.fired
              || (c.machine.Some? && c.machine.value.phase.Running? && c.machine.value.phase.signal == x && Cancels(c, e))
  {
    hide Enabled, Cancels, Apply;
    match e
    case CallMerged(d) => MergedFires(p, c, closing, next, d, x);
    case Drop(d, dying) => DropFires(p, c, closing, next, d, dying, x);
    case Sweep => SweepFires(p, c, closing, next, x);
    case _ => OthersFireNothing(p, c, closing, next, e, x);
  }

  lemma MergedFires<R(!new)>(p: Policy<R>, c: Cell<R>, closing: bool, next: nat, d: nat, x: nat)
    requires Enabled(c, closing, CallMerged(d))
    ensures x in Apply(p, c, closing, next, CallMerged(d)).fired <==>
              || x in c.fired
              || (c.machine.Some? && c.machine.value.phase.Running? && c.machine.value.phase.signal == x && Cancels(c, CallMerged(d)))
  {
    hide Book, Folded, Fold, ScanReorderable, ScanFifo, Live, Killable;
    if c.machine.Some? {
      LiveEmpty(c.machine.value.queue.batch, c.dead);
    }
  }

  lemma DropFires<R(!new)>(p: Policy<R>, c: Cell<R>, closing: bool, next: nat, d: nat, dying: set<nat>, x: nat)
    requires Enabled(c, closing, Drop(d, dying))
    ensures x in Apply(p, c, closing, next, Drop(d, dying)).fired <==>
              || x in c.fired
              || (c.machine.Some? && c.machine.value.phase.Running? && c.machine.value.phase.signal == x && Cancels(c, Drop(d, dying)))
  {
    hide Book, Requeue, Prune, Pruned, Gone, Killable, HasIncoming;
  }

  lemma SweepFires<R(!new)>(p: Policy<R>, c: Cell<R>, closing: bool, next: nat, x: nat)
    requires Enabled(c, closing, Sweep)
    ensures x in Apply(p, c, closing, next, Sweep).fired <==>
              || x in c.fired
              || (c.machine.Some? && c.machine.value.phase.Running? && c.machine.value.phase.signal == x && Cancels(c, Sweep))
  {
    hide Book;
  }

  lemma OthersFireNothing<R(!new)>(p: Policy<R>, c: Cell<R>, closing: bool, next: nat, e: Event<R>, x: nat)
    requires Enabled(c, closing, e) && !e.CallMerged? && !e.Drop? && !e.Sweep?
    ensures Apply(p, c, closing, next, e).fired == c.fired
    ensures c.machine.Some? && c.machine.value.phase.Running? ==> !Cancels(c, e)
  {
    hide Book, Fold, FormBatch, FormDiscards, Prune, Pruned, Enqueue, Killable, HasIncoming;
  }

  /** A `merged()` call that finds nobody left cancels its round, which can then end for want of callers. */
  lemma AbandonedRoundsCanEnd<R(!new)>(p: Policy<R>, sh: Shards, run: Run<R>, i: nat, key: string, d: nat)
    requires ValidRun(p, sh, run) && i < |run.turns| && run.turns[i] == OnKey(key, CallMerged(d))
    requires var c := CellIn(sh, run, i, key);
             && c.machine.Some? && c.machine.value.phase.Running? && c.machine.value.phase.driver.id == d
             && forall k :: 0 <= k < |c.machine.value.queue.batch| ==> c.machine.value.queue.batch[k].id in c.dead
    ensures var c, c' := CellIn(sh, run, i, key), CellIn(sh, run, i + 1, key);
            && c.machine.value.phase.signal in c'.fired
            && Enabled(c', run.states[i + 1].closing, WorkerEnds(d, Liveness))
  {
    assert Follows(p, sh, run, i);
    AlwaysSound(p, sh, run, i, key);
    var s, c := run.states[i], CellIn(sh, run, i, key);
    FiresExactly(p, c, s.closing, s.next, CallMerged(d), c.machine.value.phase.signal);
    LiveEmpty(c.machine.value.queue.batch, c.dead);
  }
}
