/**
 Which waiters a batch takes and which it leaves, and what each locked move decides, said by
 position and liveness alone.
 */
module DedupMerge {
  import opened Sequences
  import opened DedupQueue
  import opened DedupMachine

  // Merging --------------------------------------------------------------------------------------

  /** Whether a request merges onto the fold of the members before it. */
  ghost predicate Joins<R(!new)>(p: Policy<R>, before: seq<Member<R>>, m: Member<R>)
  {
    && before != [] && Fold(p, Requests(before)).Some?
    && p.merge(Fold(p, Requests(before)).value, m.request).Some?
  }

  /**
   The batch grows by the marked reorderable members, in order, and then by the first `n` of
   the FIFO. A reorderable member is marked exactly if it joins the batch with those marked
   before it, so each gets one chance and none is passed over; the FIFO is taken up to the
   first member that does not join. Whoever is left keeps its order.
   */
  ghost predicate Absorbs<R(!new)>(p: Policy<R>, q: Queue<R>, q': Queue<R>, mask: seq<bool>, n: nat)
  {
    && |mask| == |q.reorderable| && n <= |q.fifo|
    && q'.batch == q.batch + Pick(q.reorderable, mask) + q.fifo[..n]
    && q'.reorderable == Pick(q.reorderable, Flip(mask))
    && q'.fifo == q.fifo[n..]
    && (forall j :: 0 <= j < |mask| ==>
          (mask[j] <==> Joins(p, q.batch + Pick(q.reorderable[..j], mask[..j]), q.reorderable[j])))
    && (forall j :: 0 <= j < n ==>
          Joins(p, q.batch + Pick(q.reorderable, mask) + q.fifo[..j], q.fifo[j]))
    && (n < |q.fifo| ==> !Joins(p, q'.batch, q.fifo[n]))
    && q'.batch != [] && q'.merged == Fold(p, Requests(q'.batch))
  }

  /** The decisions of the reorderable scan, member by member. */
  function Chances<R>(p: Policy<R>, merged: R, ms: seq<Member<R>>): (mask: seq<bool>)
    ensures |mask| == |ms|
  {
    if ms == [] then []
    else
      match p.merge(merged, ms[0].request)
      case Some(next) => [true] + Chances(p, next, ms[1..])
      case None => [false] + Chances(p, merged, ms[1..])
  }

  lemma {:induction false} ScanPicks<R(!new)>(p: Policy<R>, merged: R, ms: seq<Member<R>>)
    ensures var s, mask := ScanReorderable(p, merged, ms), Chances(p, merged, ms);
            s.taken == Pick(ms, mask) && s.left == Pick(ms, Flip(mask))
  {
    if ms != [] {
      var mask := Chances(p, merged, ms);
      assert Flip(mask)[1..] == Flip(mask[1..]);
      match p.merge(merged, ms[0].request)
      case Some(next) => ScanPicks(p, next, ms[1..]);
      case None => ScanPicks(p, merged, ms[1..]);
    }
  }

  /** Each chance is decided on what was merged before it. */
  lemma {:induction false} ChanceDecided<R(!new)>(p: Policy<R>, merged: R, ms: seq<Member<R>>, j: nat)
    requires j < |ms|
    ensures var mask := Chances(p, merged, ms);
            var so := FoldFrom(p, merged, Requests(Pick(ms[..j], mask[..j])));
            so.Some? && (mask[j] <==> p.merge(so.value, ms[j].request).Some?)
    decreases |ms|
  {
    hide Requests;
    NoRequests<R>();
    var mask := Chances(p, merged, ms);
    if j > 0 {
      var rest := ms[1..];
      assert ms[..j][1..] == rest[..j - 1] && mask[..j][1..] == mask[1..][..j - 1];
      match p.merge(merged, ms[0].request) {
        case Some(next) =>
          ChanceDecided(p, next, rest, j - 1);
          FoldFromHead(p, merged, ms[0], Pick(rest[..j - 1], mask[1..][..j - 1]));
        case None =>
          ChanceDecided(p, merged, rest, j - 1);
          assert [] + Pick(rest[..j - 1], mask[1..][..j - 1]) == Pick(rest[..j - 1], mask[1..][..j - 1]);
      }
    }
  }

  lemma {:induction false} FifoDecided<R(!new)>(p: Policy<R>, merged: R, ms: seq<Member<R>>, j: nat)
    requires j < |ScanFifo(p, merged, ms).taken| <= |ms|
    ensures var so := FoldFrom(p, merged, Requests(ms[..j]));
            so.Some? && p.merge(so.value, ms[j].request).Some?
    decreases |ms|
  {
    hide Requests;
    NoRequests<R>();
    if j > 0 {
      var next := p.merge(merged, ms[0].request).value;
      ScanFifoSplits(p, next, ms[1..]);
      FifoDecided(p, next, ms[1..], j - 1);
      FoldFromHead(p, merged, ms[0], ms[1..][..j - 1]);
      assert [ms[0]] + ms[1..][..j - 1] == ms[..j];
    }
  }

  lemma {:induction false} JoinsAfter<R(!new)>(p: Policy<R>, batch: seq<Member<R>>, more: seq<Member<R>>, m: Member<R>)
    requires batch != [] && Fold(p, Requests(batch)).Some?
    requires FoldFrom(p, Fold(p, Requests(batch)).value, Requests(more)).Some?
    ensures Joins(p, batch + more, m) <==>
            p.merge(FoldFrom(p, Fold(p, Requests(batch)).value, Requests(more)).value, m.request).Some?
  {
    RequestsAppend(batch, more);
    FoldAppend(p, Requests(batch), Requests(more));
  }

  lemma {:induction false} ReorderableDecided<R(!new)>(p: Policy<R>, q: Queue<R>, mask: seq<bool>, j: nat)
    requires q.batch != [] && Fold(p, Requests(q.batch)).Some? && j < |q.reorderable|
    requires mask == Chances(p, Fold(p, Requests(q.batch)).value, q.reorderable)
    ensures mask[j] <==> Joins(p, q.batch + Pick(q.reorderable[..j], mask[..j]), q.reorderable[j])
  {
    hide Joins, Fold, FoldFrom, Chances, Requests;
    var folded := Fold(p, Requests(q.batch)).value;
    ChanceDecided(p, folded, q.reorderable, j);
    JoinsAfter(p, q.batch, Pick(q.reorderable[..j], mask[..j]), q.reorderable[j]);
  }

  /** A merge absorbs exactly the waiters that join. */
  lemma MergeAbsorbs<R(!new)>(p: Policy<R>, q: Queue<R>)
    ensures match MergeCompatible(p, q)
            case EmptyBatch(q') => q.batch == [] && q' == q
            case Panic(q') => q.batch != [] && Fold(p, Requests(q.batch)).None? && q' == q
            case Merged(q') =>
              && q.batch != [] && Fold(p, Requests(q.batch)).Some?
              && exists mask, n :: Absorbs(p, q, q', mask, n)
  {
    if MergeCompatible(p, q).Merged? {
      MergedAbsorbs(p, q);
    }
  }

  lemma MergedAbsorbs<R(!new)>(p: Policy<R>, q: Queue<R>)
    requires MergeCompatible(p, q).Merged?
    ensures exists mask, n :: Absorbs(p, q, MergeCompatible(p, q).queue, mask, n)
  {
    hide Joins, Fold, FoldFrom, Chances, ScanReorderable, ScanFifo, Requests, Pick;
    var q' := MergeCompatible(p, q).queue;
    var folded := Fold(p, Requests(q.batch)).value;
    var mask := Chances(p, folded, q.reorderable);
    var r := ScanReorderable(p, folded, q.reorderable);
    var f := ScanFifo(p, r.merged, q.fifo);
    var n := |f.taken|;
    ScanPicks(p, folded, q.reorderable);
    ScanReorderableFacts(p, folded, q.reorderable);
    ScanFifoFacts(p, r.merged, q.fifo);
    assert f.taken == q.fifo[..n] && f.left == q.fifo[n..];
    MergeFolds(p, q);
    forall j | 0 <= j < |mask|
      ensures mask[j] <==> Joins(p, q.batch + Pick(q.reorderable[..j], mask[..j]), q.reorderable[j])
    {
      ReorderableDecided(p, q, mask, j);
    }
    TakenFolds(p, q.batch, r.taken);
    forall j | 0 <= j < n ensures Joins(p, q.batch + r.taken + q.fifo[..j], q.fifo[j]) {
      FifoDecided(p, r.merged, q.fifo, j);
      JoinsAfter(p, q.batch + r.taken, q.fifo[..j], q.fifo[j]);
    }
    if n < |q.fifo| {
      JoinsAfter(p, q.batch + r.taken, f.taken, q.fifo[n]);
      assert q.fifo[n] == f.left[0];
    }
    assert Absorbs(p, q, q', mask, n);
  }

  lemma {:induction false} TakenFolds<R(!new)>(p: Policy<R>, batch: seq<Member<R>>, more: seq<Member<R>>)
    requires batch != [] && Fold(p, Requests(batch)).Some?
    requires FoldFrom(p, Fold(p, Requests(batch)).value, Requests(more)).Some?
    ensures Fold(p, Requests(batch + more)) == FoldFrom(p, Fold(p, Requests(batch)).value, Requests(more))
  {
    RequestsAppend(batch, more);
    FoldAppend(p, Requests(batch), Requests(more));
  }

  // Who survives a look at liveness -----------------------------------------------------------------

  ghost function AliveAt<R(!new)>(ms: seq<Member<R>>, dead: set<nat>): (mask: seq<bool>)
    ensures |mask| == |ms| && forall i :: 0 <= i < |ms| ==> (mask[i] <==> ms[i].id !in dead)
  {
    seq(|ms|, i requires 0 <= i < |ms| => ms[i].id !in dead)
  }

  ghost function Survivors<R(!new)>(ms: seq<Member<R>>, dead: set<nat>): seq<Member<R>>
  {
    Pick(ms, AliveAt(ms, dead))
  }

  ghost function Casualties<R(!new)>(ms: seq<Member<R>>, dead: set<nat>): seq<Member<R>>
  {
    Pick(ms, Flip(AliveAt(ms, dead)))
  }

  ghost function Surviving<R(!new)>(q: Queue<R>, dead: set<nat>): Queue<R>
  {
    Queue(Survivors(q.batch, dead), Survivors(q.reorderable, dead), Survivors(q.fifo, dead), q.merged)
  }

  lemma LiveSurvive<R(!new)>(ms: seq<Member<R>>, dead: set<nat>)
    ensures Live(ms, dead) == Survivors(ms, dead) && Gone(ms, dead) == Casualties(ms, dead)
  {
    FilterPicks(ms, Alive(dead), AliveAt(ms, dead));
    FilterPicks(ms, Negate(Alive(dead)), Flip(AliveAt(ms, dead)));
  }

  /** Pruning keeps exactly the members still waited for, each line in its order. */
  lemma PruneSurvive<R(!new)>(q: Queue<R>, dead: set<nat>)
    ensures Prune(q, dead) == Surviving(q, dead)
    ensures Pruned(q, dead) == Casualties(q.batch, dead) + Casualties(q.reorderable, dead) + Casualties(q.fifo, dead)
  {
    LiveSurvive(q.batch, dead);
    LiveSurvive(q.reorderable, dead);
    LiveSurvive(q.fifo, dead);
  }

  /** Somebody waits in one of the two lines. */
  ghost predicate Awaited<R(!new)>(q: Queue<R>, dead: set<nat>)
  {
    exists m :: (m in q.reorderable || m in q.fifo) && m.id !in dead
  }

  lemma IncomingIsAwaited<R(!new)>(q: Queue<R>, dead: set<nat>)
    ensures HasIncoming(Prune(q, dead)) <==> Awaited(q, dead)
  {
    LiveMembers(q.reorderable, dead);
    LiveMembers(q.fifo, dead);
    var q' := Prune(q, dead);
    if HasIncoming(q') {
      var m := if q'.reorderable != [] then q'.reorderable[0] else q'.fifo[0];
      assert m in q'.reorderable || m in q'.fifo;
    }
  }

  // What the locked moves decide -----------------------------------------------------------------------

  /** The reply to a merge: the request of the grown batch, or the panic of one that does not fold. */
  ghost predicate Grown<R(!new)>(p: Policy<R>, q: Queue<R>, s: Step<R>)
  {
    if q.batch != [] && Fold(p, Requests(q.batch)).Some? then exists mask, n :: Absorbs(p, q, s.machine.queue, mask, n)
    else s.machine.queue == q
  }

  /**
   A `merged()` call of the running driver: with nobody left it cancels the round and reports
   no request; otherwise the survivors absorb whoever joins, and their fold is reported.
   */
  lemma RefreshDecides<R(!new)>(p: Policy<R>, m: Machine<R>, id: nat, dead: set<nat>)
    requires m.phase.Running? && m.phase.driver.id == id
    ensures var s, q := Refresh(p, m, id, dead), Surviving(m.queue, dead);
            && s.machine.phase == m.phase && s.action == Keep && Grown(p, q, s)
            && s.discarded == Casualties(m.queue.batch, dead) + Casualties(m.queue.reorderable, dead) + Casualties(m.queue.fifo, dead)
            && s.reply ==
                 if q.batch == [] then Aborted(m.phase.signal)
                 else if Fold(p, Requests(q.batch)).None? then Panicked
                 else if s.machine.queue.merged.Some? then Request(s.machine.queue.merged.value) else Nothing
  {
    hide MergeCompatible, Surviving, Casualties, Prune, Pruned, Fold;
    PruneSurvive(m.queue, dead);
    MergeAbsorbs(p, Surviving(m.queue, dead));
  }

  /** An empty batch is given one seed: the front of the FIFO, or else of the reorderable line. */
  ghost predicate Seeds<R(!new)>(q: Queue<R>, q': Queue<R>)
  {
    && q'.merged == q.merged
    && if q.batch != [] then q' == q
       else if q.fifo != [] then |q'.batch| == 1 && q'.batch + q'.fifo == q.fifo && q'.reorderable == q.reorderable
       else q'.batch + q'.reorderable == q.reorderable && q'.fifo == [] && (|q'.batch| == 1 <==> q.reorderable != []) && |q'.batch| <= 1
  }

  lemma SeedSeeds<R(!new)>(q: Queue<R>, q': Queue<R>)
    ensures Seeds(q, q') <==> q' == Seed(q)
  {
    if Seeds(q, q') && q.batch == [] {
      if q.fifo != [] {
        assert q'.batch == q.fifo[..1] && q'.fifo == q.fifo[1..];
      } else if q.reorderable != [] {
        assert q'.batch == q.reorderable[..1] && q'.reorderable == q.reorderable[1..];
      } else {
        assert q'.batch + q'.reorderable == [];
      }
    }
  }

  /**
   A ready driver's round start: under shutdown the key goes; otherwise the survivors of the
   first look are seeded, the survivors of the second absorb whoever joins, and the key goes
   exactly if nobody survived in the batch.
   */
  lemma StartDecides<R(!new)>(
    p: Policy<R>, m: Machine<R>, id: nat, closing: bool, signal: nat, dead: set<nat>, later: set<nat>)
    returns (seeded: Queue<R>)
    requires m.phase.Ready? && m.phase.driver.id == id
    ensures Seeds(Surviving(m.queue, dead), seeded)
    ensures var s, q := StartRound(p, m, id, closing, signal, dead, later), Surviving(seeded, later);
            if closing then s.action == Remove && s.reply == Nothing && s.machine == m
            else
              && Grown(p, q, s)
              && (if q.batch == [] then s.action == Remove && s.reply == Nothing
                  else if Fold(p, Requests(q.batch)).None? then s.action == Keep && s.reply == Panicked
                  else s.action == Keep && s.reply == Started(signal) && s.machine.phase == Running(m.phase.driver, signal))
  {
    hide MergeCompatible, Surviving, Casualties, Prune, Pruned, Fold, Seed, Seeds, FormDiscards;
    seeded := Seed(Prune(m.queue, dead));
    PruneSurvive(m.queue, dead);
    SeedSeeds(Prune(m.queue, dead), seeded);
    PruneSurvive(seeded, later);
    MergeAbsorbs(p, Surviving(seeded, later));
  }

  /** A finished round: its batch is delivered, given up as nobody waits, or goes with the key. */
  lemma FinishDecides<R(!new)>(m: Machine<R>, id: nat, outcome: Outcome)
    requires m.phase.Running? && m.phase.driver.id == id
    ensures var s := RoundFinished(m, id, outcome);
            if outcome.Shutdown? then s.action == Remove && s.machine.queue == m.queue && s.delivery == [] && s.discarded == []
            else
              && s.action == Keep && s.reply == Finished && s.machine.phase == Completing(m.phase.driver)
              && s.machine.queue.batch == [] && StayInLine(m.queue, s.machine.queue)
              && s.delivery + s.discarded == m.queue.batch && (outcome.Done? ==> s.discarded == [])
              && (outcome.Liveness? ==> s.delivery == [])
  {
  }

  predicate StayInLine<R(==)>(q: Queue<R>, q': Queue<R>)
  {
    q'.reorderable == q.reorderable && q'.fifo == q.fifo && q'.merged == q.merged
  }

  /**
   A finished driver: with somebody waiting an owner goes on and an inline driver hands over to
   a new owner; with nobody the key goes.
   */
  lemma FinalizeDecides<R(!new)>(m: Machine<R>, id: nat, successor: nat, dead: set<nat>)
    requires m.phase.Completing? && m.phase.driver.id == id
    ensures var s := FinalizeCompletion(m, id, successor, dead);
            && s.machine.queue == Surviving(m.queue, dead)
            && if !Awaited(m.queue, dead) then s.action == Remove && s.reply == Nothing
               else if m.phase.driver.kind == Owner then
                 s.action == Keep && s.reply == Again && s.machine.phase == Ready(m.phase.driver)
               else s.action == SpawnOwner(successor) && s.reply == Nothing && s.machine.phase == Handoff(successor)
  {
    hide Surviving, Prune, Pruned;
    PruneSurvive(m.queue, dead);
    IncomingIsAwaited(m.queue, dead);
  }

  ghost function SurvivorsBy<R(!new)>(p: Policy<R>, ms: seq<Member<R>>, dead: set<nat>, loose: bool): seq<Member<R>>
  {
    Pick(ms, seq(|ms|, i requires 0 <= i < |ms| => ms[i].id !in dead && p.canReorder(ms[i].request) == loose))
  }

  /** The batch's survivors go back: strict ones ahead of the FIFO, the others behind the reorderable line. */
  lemma RequeueSplits<R(!new)>(p: Policy<R>, q: Queue<R>, dead: set<nat>)
    ensures Requeue(p, q, dead) ==
            Queue([], q.reorderable + SurvivorsBy(p, q.batch, dead, true),
                  SurvivorsBy(p, q.batch, dead, false) + q.fifo, q.merged)
  {
    var strict := (m: Member<R>) => m.id !in dead && !p.canReorder(m.request);
    var loose := (m: Member<R>) => m.id !in dead && p.canReorder(m.request);
    FilterTwice(q.batch, Alive(dead), IsStrict(p), strict);
    FilterTwice(q.batch, Alive(dead), Negate(IsStrict(p)), loose);
    var ms := q.batch;
    FilterPicks(ms, strict, seq(|ms|, i requires 0 <= i < |ms| => ms[i].id !in dead && p.canReorder(ms[i].request) == false));
    FilterPicks(ms, loose, seq(|ms|, i requires 0 <= i < |ms| => ms[i].id !in dead && p.canReorder(ms[i].request) == true));
  }

  /**
   A dropped driver: its round, if any, is cancelled and its batch's survivors go back; with
   somebody waiting a new owner is reserved, and with nobody, or under shutdown, the key goes.
   */
  lemma DropDecides<R(!new)>(
    p: Policy<R>, m: Machine<R>, id: nat, closing: bool, successor: nat, dead: set<nat>, later: set<nat>)
    requires !m.phase.Handoff? && m.phase.driver.id == id
    ensures var s := DriverDropped(p, m, id, closing, successor, dead, later);
            var back := Queue([], m.queue.reorderable + SurvivorsBy(p, m.queue.batch, dead, true),
                              SurvivorsBy(p, m.queue.batch, dead, false) + m.queue.fifo, m.queue.merged);
            && s.reply == (if m.phase.Running? then Aborted(m.phase.signal) else Nothing)
            && if closing then s.action == Remove && s.machine.queue == back
               else
                 && s.machine.queue == Surviving(back, later)
                 && (if Awaited(back, later) then s.action == SpawnOwner(successor) && s.machine.phase == Handoff(successor)
                     else s.action == Remove)
  {
    hide Surviving, Prune, Pruned, Requeue, SurvivorsBy;
    RequeueSplits(p, m.queue, dead);
    PruneSurvive(Requeue(p, m.queue, dead), later);
    IncomingIsAwaited(Requeue(p, m.queue, dead), later);
  }
}
