/**
 The per-key queue as it is stored: three member lists and the last merged request, all
 changed in place. Every method is proved against the functions of `DedupQueue`.
 */
module KeyQueues {
  import opened Sequences
  import opened DedupQueue

  datatype MergeStatus = NothingToRun | BatchReady | NonMergeable

  class KeyQueue<R(!new)> {
    const policy: Policy<R>
    var batch: seq<Member<R>>
    var reorderable: seq<Member<R>>
    var fifo: seq<Member<R>>
    var merged: Option<R>

    function View(): Queue<R>
      reads this
    {
      Queue(batch, reorderable, fifo, merged)
    }

    static ghost predicate Reports(status: MergeStatus, m: Merge<R>)
    {
      match status
      case NothingToRun => m.EmptyBatch?
      case BatchReady => m.Merged?
      case NonMergeable => m.Panic?
    }

    /** One member waits: the one that found no queue and so made this one. */
    constructor (policy: Policy<R>, seed: Member<R>)
      ensures this.policy == policy && View() == NewQueue(seed)
    {
      this.policy := policy;
      batch, reorderable, fifo, merged := [seed], [], [], Some(seed.request);
    }

    method Enqueue(m: Member<R>)
      modifies this
      ensures View() == DedupQueue.Enqueue(policy, old(View()), m)
    {
      if policy.canReorder(m.request) {
        reorderable := reorderable + [m];
      } else {
        fifo := fifo + [m];
      }
    }

    /** Rotates the queue once, returning the survivors in order and the dropped members. */
    static method PruneQueue(queue: seq<Member<R>>, dead: set<nat>)
      returns (kept: seq<Member<R>>, discarded: seq<Member<R>>)
      ensures kept == Live(queue, dead) && discarded == Gone(queue, dead)
    {
      kept, discarded := queue, [];
      var done := 0;
      while done < |queue|
        invariant 0 <= done <= |queue|
        invariant kept == queue[done..] + Live(queue[..done], dead)
        invariant discarded == Gone(queue[..done], dead)
      {
        var m := kept[0];
        assert queue[..done + 1] == queue[..done] + [m];
        FilterAppend(queue[..done], [m], Alive(dead));
        FilterAppend(queue[..done], [m], Negate(Alive(dead)));
        kept := kept[1..];
        if m.id !in dead {
          kept := kept + [m];
        } else {
          discarded := discarded + [m];
        }
        done := done + 1;
      }
      assert queue[..done] == queue;
    }

    method Prune(dead: set<nat>) returns (discarded: seq<Member<R>>)
      modifies this
      ensures View() == DedupQueue.Prune(old(View()), dead)
      ensures discarded == Pruned(old(View()), dead)
    {
      var b, r, f;
      batch, b := PruneQueue(batch, dead);
      reorderable, r := PruneQueue(reorderable, dead);
      fifo, f := PruneQueue(fifo, dead);
      discarded := b + r + f;
    }

    method HasIncomingLive(dead: set<nat>) returns (more: bool, discarded: seq<Member<R>>)
      modifies this
      ensures View() == DedupQueue.Prune(old(View()), dead)
      ensures discarded == Pruned(old(View()), dead)
      ensures more <==> reorderable != [] || fifo != []
    {
      discarded := Prune(dead);
      more := reorderable != [] || fifo != [];
    }

    /** Folds the requests of the batch, or reports that two of them do not merge. */
    method FoldBatch() returns (folded: Option<R>)
      requires batch != []
      ensures folded == Fold(policy, Requests(batch))
    {
      var rs := Requests(batch);
      folded := Some(rs[0]);
      var i := 1;
      while i < |rs| && folded.Some?
        invariant 1 <= i <= |rs|
        invariant folded.Some? ==> Fold(policy, rs) == FoldFrom(policy, folded.value, rs[i..])
        invariant folded.None? ==> Fold(policy, rs).None?
      {
        folded := policy.merge(folded.value, rs[i]);
        assert rs[i..][0] == rs[i] && rs[i..][1..] == rs[i + 1..];
        i := i + 1;
      }
    }

    /** Gives every waiting reorderable member one chance to join the batch. */
    method AbsorbReorderable(start: R) returns (result: R)
      modifies this
      ensures var s := ScanReorderable(policy, start, old(reorderable));
              && result == s.merged
              && View() == old(View()).(batch := old(batch) + s.taken, reorderable := s.left)
    {
      hide ScanReorderable;
      result := start;
      ghost var was := reorderable;
      ghost var base := batch;
      ghost var taken := [];
      ghost var left := [];
      var bound := |reorderable|;
      var i := 0;
      while i < bound
        invariant 0 <= i <= bound == |was|
        invariant reorderable == was[i..] + left
        invariant batch == base + taken
        invariant fifo == old(fifo) && merged == old(merged)
        invariant Resumes(policy, ScanReorderable(policy, start, was), taken, left,
                          ScanReorderable(policy, result, was[i..]))
      {
        var m := reorderable[0];
        assert m == was[i] && was[i..][1..] == was[i + 1..];
        ScanResumes(policy, ScanReorderable(policy, start, was), taken, left, result, was[i..]);
        reorderable := reorderable[1..];
        match policy.merge(result, m.request) {
          case Some(next) =>
            result := next;
            batch := batch + [m];
            taken := taken + [m];
          case None =>
            reorderable := reorderable + [m];
            left := left + [m];
        }
        i := i + 1;
      }
      ScanNothing(policy, result);
    }

    /** Absorbs the FIFO front while it merges; the first refusal stops the scan. */
    method AbsorbFifo(start: R) returns (result: R)
      modifies this
      ensures var s := ScanFifo(policy, start, old(fifo));
              && result == s.merged
              && View() == old(View()).(batch := old(batch) + s.taken, fifo := s.left)
    {
      hide ScanFifo;
      result := start;
      ghost var taken := [];
      var blocked := false;
      while !blocked && fifo != []
        invariant batch == old(batch) + taken
        invariant reorderable == old(reorderable) && merged == old(merged)
        invariant blocked ==> fifo != [] && policy.merge(result, fifo[0].request).None?
        invariant Resumes(policy, ScanFifo(policy, start, old(fifo)), taken, [], ScanFifo(policy, result, fifo))
        decreases !blocked, |fifo|
      {
        FifoResumes(policy, ScanFifo(policy, start, old(fifo)), taken, result, fifo);
        match policy.merge(result, fifo[0].request) {
          case Some(next) =>
            result := next;
            batch := batch + [fifo[0]];
            taken := taken + [fifo[0]];
            fifo := fifo[1..];
          case None =>
            blocked := true;
        }
      }
      FifoStops(policy, result, fifo);
    }

    method MergeCompatible() returns (status: MergeStatus)
      modifies this
      ensures View() == DedupQueue.MergeCompatible(policy, old(View())).queue
      ensures Reports(status, DedupQueue.MergeCompatible(policy, old(View())))
    {
      if batch == [] {
        return NothingToRun;
      }
      var folded := FoldBatch();
      if folded.None? {
        return NonMergeable;
      }
      var next := AbsorbReorderable(folded.value);
      next := AbsorbFifo(next);
      merged := Some(next);
      status := BatchReady;
    }

    method RefreshBatch(dead: set<nat>) returns (status: MergeStatus, discarded: seq<Member<R>>)
      modifies this
      ensures View() == DedupQueue.RefreshBatch(policy, old(View()), dead).queue
      ensures Reports(status, DedupQueue.RefreshBatch(policy, old(View()), dead))
      ensures discarded == Pruned(old(View()), dead)
    {
      discarded := Prune(dead);
      status := MergeCompatible();
    }

    method FormBatch(dead: set<nat>, later: set<nat>) returns (status: MergeStatus, discarded: seq<Member<R>>)
      modifies this
      ensures View() == DedupQueue.FormBatch(policy, old(View()), dead, later).queue
      ensures Reports(status, DedupQueue.FormBatch(policy, old(View()), dead, later))
      ensures discarded == FormDiscards(old(View()), dead, later)
    {
      discarded := Prune(dead);
      if batch == [] {
        if fifo != [] {
          batch, fifo := [fifo[0]], fifo[1..];
        } else if reorderable != [] {
          batch, reorderable := [reorderable[0]], reorderable[1..];
        }
      }
      var more;
      status, more := RefreshBatch(later);
      discarded := discarded + more;
    }

    method TakeBatch() returns (taken: seq<Member<R>>)
      modifies this
      ensures taken == old(batch) && View() == old(View()).(batch := [])
    {
      taken, batch := batch, [];
    }

    /** Splits the batch's survivors back into the two waiting lines, strict ones first. */
    method RequeueBatch(dead: set<nat>) returns (discarded: seq<Member<R>>)
      modifies this
      ensures View() == Requeue(policy, old(View()), dead)
      ensures discarded == Gone(old(batch), dead)
    {
      hide Gone, Strict, Loose, Live;
      ghost var was := batch;
      ghost var loose := [];
      discarded := [];
      var strict := [];
      while batch != []
        invariant fifo == old(fifo) && merged == old(merged)
        invariant reorderable == old(reorderable) + loose
        invariant discarded + Gone(batch, dead) == Gone(was, dead)
        invariant strict + Strict(policy, Live(batch, dead)) == Strict(policy, Live(was, dead))
        invariant loose + Loose(policy, Live(batch, dead)) == Loose(policy, Live(was, dead))
        decreases |batch|
      {
        var m := batch[0];
        RequeueHead(policy, batch, dead);
        batch := batch[1..];
        if m.id in dead {
          discarded := discarded + [m];
        } else {
          if policy.canReorder(m.request) {
            reorderable := reorderable + [m];
            loose := loose + [m];
          } else {
            strict := strict + [m];
          }
        }
      }
      RequeueNobody(policy, dead);
      fifo := strict + fifo;
    }
  }
}
