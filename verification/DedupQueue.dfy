/**
 Who waits for a key and in which order: the members of the round in progress, members that
 may be served in any order, and members that must be served in order of arrival.

 The functions here are the specification; `KeyQueue` is the structure that is changed in
 place. Whether a caller still waits is read through `dead`, the set of members whose
 result receiver has been dropped when the queue looks at them.
 */
module DedupQueue {
  import opened Sequences

  /** What a request type supplies: a partial merge and whether it may be reordered. */
  datatype Policy<!R> = Policy(merge: (R, R) -> Option<R>, canReorder: R -> bool)

  /** One submitted request. `id` names its result channel and is its arrival stamp. */
  datatype Member<R> = Member(id: nat, request: R)

  datatype Queue<R> = Queue(
    batch: seq<Member<R>>,
    reorderable: seq<Member<R>>,
    fifo: seq<Member<R>>,
    merged: Option<R>)

  function Requests<R>(ms: seq<Member<R>>): (rs: seq<R>)
    ensures |rs| == |ms|
    ensures forall i :: 0 <= i < |ms| ==> rs[i] == ms[i].request
  {
    seq(|ms|, i requires 0 <= i < |ms| => ms[i].request)
  }

  // Liveness ---------------------------------------------------------------------------

  function Alive<R>(dead: set<nat>): Member<R> -> bool
  {
    (m: Member<R>) => m.id !in dead
  }

  function Live<R>(ms: seq<Member<R>>, dead: set<nat>): seq<Member<R>>
  {
    Filter(ms, Alive(dead))
  }

  function Gone<R>(ms: seq<Member<R>>, dead: set<nat>): seq<Member<R>>
  {
    Filter(ms, Negate(Alive(dead)))
  }

  function Prune<R>(q: Queue<R>, dead: set<nat>): Queue<R>
  {
    q.(batch := Live(q.batch, dead), reorderable := Live(q.reorderable, dead), fifo := Live(q.fifo, dead))
  }

  function Pruned<R>(q: Queue<R>, dead: set<nat>): seq<Member<R>>
  {
    Gone(q.batch, dead) + Gone(q.reorderable, dead) + Gone(q.fifo, dead)
  }

  // Merging ----------------------------------------------------------------------------

  /** Left fold of the requests into an accumulated request; None when some merge is refused. */
  function FoldFrom<R>(p: Policy<R>, acc: R, rs: seq<R>): Option<R>
  {
    if rs == [] then Some(acc)
    else
      match p.merge(acc, rs[0])
      case None => None
      case Some(next) => FoldFrom(p, next, rs[1..])
  }

  function Fold<R>(p: Policy<R>, rs: seq<R>): Option<R>
    requires rs != []
  {
    FoldFrom(p, rs[0], rs[1..])
  }

  predicate Foldable<R>(p: Policy<R>, rs: seq<R>)
  {
    rs == [] || Fold(p, rs).Some?
  }

  datatype Scan<R> = Scan(merged: R, taken: seq<Member<R>>, left: seq<Member<R>>)

  /** Every candidate gets one chance; refused candidates keep their relative order. */
  function ScanReorderable<R>(p: Policy<R>, merged: R, ms: seq<Member<R>>): Scan<R>
  {
    if ms == [] then Scan(merged, [], [])
    else
      match p.merge(merged, ms[0].request)
      case Some(next) =>
        var r := ScanReorderable(p, next, ms[1..]);
        Scan(r.merged, [ms[0]] + r.taken, r.left)
      case None =>
        var r := ScanReorderable(p, merged, ms[1..]);
        Scan(r.merged, r.taken, [ms[0]] + r.left)
  }

  /** The first refused member is a barrier for everything behind it. */
  function ScanFifo<R>(p: Policy<R>, merged: R, ms: seq<Member<R>>): Scan<R>
  {
    if ms == [] then Scan(merged, [], [])
    else
      match p.merge(merged, ms[0].request)
      case Some(next) =>
        var r := ScanFifo(p, next, ms[1..]);
        Scan(r.merged, [ms[0]] + r.taken, r.left)
      case None => Scan(merged, [], ms)
  }

  /** The result of looking for work to run: nothing, a batch, or a batch that does not fold. */
  datatype Merge<R> = EmptyBatch(queue: Queue<R>) | Merged(queue: Queue<R>) | Panic(queue: Queue<R>)

  function MergeCompatible<R>(p: Policy<R>, q: Queue<R>): Merge<R>
  {
    if q.batch == [] then EmptyBatch(q)
    else
      match Fold(p, Requests(q.batch))
      case None => Panic(q)
      case Some(folded) =>
        var r := ScanReorderable(p, folded, q.reorderable);
        var f := ScanFifo(p, r.merged, q.fifo);
        Merged(Queue(q.batch + r.taken + f.taken, r.left, f.left, Some(f.merged)))
  }

  function RefreshBatch<R>(p: Policy<R>, q: Queue<R>, dead: set<nat>): Merge<R>
  {
    MergeCompatible(p, Prune(q, dead))
  }

  /** Seeds an empty batch from the FIFO front, else from the reorderable front. */
  function Seed<R>(q: Queue<R>): Queue<R>
  {
    if q.batch != [] then q
    else if q.fifo != [] then q.(batch := [q.fifo[0]], fifo := q.fifo[1..])
    else if q.reorderable != [] then q.(batch := [q.reorderable[0]], reorderable := q.reorderable[1..])
    else q
  }

  /** The queue looks at liveness twice: `dead` at the first look, `later` at the second. */
  function FormBatch<R>(p: Policy<R>, q: Queue<R>, dead: set<nat>, later: set<nat>): Merge<R>
  {
    RefreshBatch(p, Seed(Prune(q, dead)), later)
  }

  function FormDiscards<R>(q: Queue<R>, dead: set<nat>, later: set<nat>): seq<Member<R>>
  {
    Pruned(q, dead) + Pruned(Seed(Prune(q, dead)), later)
  }

  function Enqueue<R>(p: Policy<R>, q: Queue<R>, m: Member<R>): Queue<R>
  {
    if p.canReorder(m.request) then q.(reorderable := q.reorderable + [m]) else q.(fifo := q.fifo + [m])
  }

  function NewQueue<R>(seed: Member<R>): Queue<R>
  {
    Queue([seed], [], [], Some(seed.request))
  }

  // Order ------------------------------------------------------------------------------

  function IsStrict<R>(p: Policy<R>): Member<R> -> bool
  {
    (m: Member<R>) => !p.canReorder(m.request)
  }

  function Strict<R>(p: Policy<R>, ms: seq<Member<R>>): seq<Member<R>>
  {
    Filter(ms, IsStrict(p))
  }

  function Loose<R>(p: Policy<R>, ms: seq<Member<R>>): seq<Member<R>>
  {
    Filter(ms, Negate(IsStrict(p)))
  }

  /** Live members of an abandoned batch go back: strict ones in front of the FIFO. */
  function Requeue<R>(p: Policy<R>, q: Queue<R>, dead: set<nat>): Queue<R>
  {
    var live := Live(q.batch, dead);
    q.(batch := [], reorderable := q.reorderable + Loose(p, live), fifo := Strict(p, live) + q.fifo)
  }

  /** The strict members still owed service: those in the batch, then those in the FIFO. */
  function StrictLine<R>(p: Policy<R>, q: Queue<R>): seq<Member<R>>
  {
    Strict(p, q.batch) + q.fifo
  }

  /** Reorderable work waits only in `reorderable`, strict work only in `fifo`. */
  ghost predicate Sorted<R(!new)>(p: Policy<R>, q: Queue<R>)
  {
    && (forall m :: m in q.reorderable ==> p.canReorder(m.request))
    && (forall m :: m in q.fifo ==> !p.canReorder(m.request))
  }

  ghost function Members<R>(q: Queue<R>): multiset<Member<R>>
  {
    multiset(q.batch) + multiset(q.reorderable) + multiset(q.fifo)
  }

  // Lemmas: conservation ---------------------------------------------------------------

  lemma PruneConserves<R(!new)>(q: Queue<R>, dead: set<nat>)
    ensures Members(q) == Members(Prune(q, dead)) + multiset(Pruned(q, dead))
  {
    FilterConserves(q.batch, Alive(dead));
    FilterConserves(q.reorderable, Alive(dead));
    FilterConserves(q.fifo, Alive(dead));
  }

  lemma {:induction false} ScanReorderableSplits<R(!new)>(p: Policy<R>, merged: R, ms: seq<Member<R>>)
    ensures var s := ScanReorderable(p, merged, ms);
            multiset(ms) == multiset(s.taken) + multiset(s.left)
  {
    if ms != [] {
      assert ms == [ms[0]] + ms[1..];
      match p.merge(merged, ms[0].request)
      case Some(next) => ScanReorderableSplits(p, next, ms[1..]);
      case None => ScanReorderableSplits(p, merged, ms[1..]);
    }
  }

  lemma {:induction false} ScanReorderableFolds<R(!new)>(p: Policy<R>, merged: R, ms: seq<Member<R>>)
    ensures var s := ScanReorderable(p, merged, ms);
            FoldFrom(p, merged, Requests(s.taken)) == Some(s.merged)
  {
    hide Requests;
    NoRequests<R>();
    if ms != [] {
      match p.merge(merged, ms[0].request)
      case Some(next) =>
        ScanReorderableFolds(p, next, ms[1..]);
        FoldFromHead(p, merged, ms[0], ScanReorderable(p, next, ms[1..]).taken);
      case None => ScanReorderableFolds(p, merged, ms[1..]);
    }
  }

  lemma {:induction false} ScanReorderableFacts<R(!new)>(p: Policy<R>, merged: R, ms: seq<Member<R>>)
    ensures var s := ScanReorderable(p, merged, ms);
            && multiset(ms) == multiset(s.taken) + multiset(s.left)
            && FoldFrom(p, merged, Requests(s.taken)) == Some(s.merged)
  {
    hide ScanReorderable, FoldFrom, Requests;
    ScanReorderableSplits(p, merged, ms);
    ScanReorderableFolds(p, merged, ms);
  }

  /** A scan that has already sorted some members goes on as `rest`. */
  ghost predicate Resumes<R(!new)>(
    p: Policy<R>, whole: Scan<R>, taken: seq<Member<R>>, left: seq<Member<R>>, rest: Scan<R>)
  {
    whole.merged == rest.merged && whole.taken == taken + rest.taken && whole.left == left + rest.left
  }

  lemma {:induction false} ScanResumes<R(!new)>(
    p: Policy<R>, whole: Scan<R>, taken: seq<Member<R>>, left: seq<Member<R>>, merged: R, ms: seq<Member<R>>)
    requires ms != [] && Resumes(p, whole, taken, left, ScanReorderable(p, merged, ms))
    ensures match p.merge(merged, ms[0].request)
            case Some(next) => Resumes(p, whole, taken + [ms[0]], left, ScanReorderable(p, next, ms[1..]))
            case None => Resumes(p, whole, taken, left + [ms[0]], ScanReorderable(p, merged, ms[1..]))
  {
  }

  lemma {:induction false} ScanNothing<R(!new)>(p: Policy<R>, merged: R)
    ensures ScanReorderable(p, merged, []) == Scan(merged, [], [])
  {
  }

  lemma {:induction false} FifoResumes<R(!new)>(
    p: Policy<R>, whole: Scan<R>, taken: seq<Member<R>>, merged: R, ms: seq<Member<R>>)
    requires ms != [] && Resumes(p, whole, taken, [], ScanFifo(p, merged, ms))
    ensures p.merge(merged, ms[0].request).Some? ==>
              Resumes(p, whole, taken + [ms[0]], [], ScanFifo(p, p.merge(merged, ms[0].request).value, ms[1..]))
  {
  }

  lemma {:induction false} FifoStops<R(!new)>(p: Policy<R>, merged: R, ms: seq<Member<R>>)
    requires ms != [] ==> p.merge(merged, ms[0].request).None?
    ensures ScanFifo(p, merged, ms) == Scan(merged, [], ms)
  {
  }

  lemma {:induction false} FoldFromHead<R(!new)>(p: Policy<R>, acc: R, m: Member<R>, ms: seq<Member<R>>)
    ensures FoldFrom(p, acc, Requests([m] + ms)) ==
            match p.merge(acc, m.request) case None => None case Some(next) => FoldFrom(p, next, Requests(ms))
  {
    var rs := Requests([m] + ms);
    assert rs[0] == m.request && rs[1..] == Requests(ms);
  }

  /** The FIFO scan absorbs a prefix, up to the first member it cannot merge. */
  lemma {:induction false} ScanFifoSplits<R(!new)>(p: Policy<R>, merged: R, ms: seq<Member<R>>)
    ensures var s := ScanFifo(p, merged, ms);
            && ms == s.taken + s.left
            && (s.left != [] ==> p.merge(s.merged, s.left[0].request).None?)
  {
    if ms != [] {
      match p.merge(merged, ms[0].request)
      case Some(next) =>
        ScanFifoSplits(p, next, ms[1..]);
        assert [ms[0]] + ms[1..] == ms;
      case None =>
    }
  }

  lemma {:induction false} ScanFifoFolds<R(!new)>(p: Policy<R>, merged: R, ms: seq<Member<R>>)
    ensures var s := ScanFifo(p, merged, ms);
            FoldFrom(p, merged, Requests(s.taken)) == Some(s.merged)
  {
    hide Requests;
    NoRequests<R>();
    if ms != [] {
      match p.merge(merged, ms[0].request)
      case Some(next) =>
        ScanFifoFolds(p, next, ms[1..]);
        FoldFromHead(p, merged, ms[0], ScanFifo(p, next, ms[1..]).taken);
      case None =>
    }
  }

  lemma NoRequests<R(!new)>()
    ensures Requests<R>([]) == []
  {
  }

  lemma {:induction false} ScanFifoFacts<R(!new)>(p: Policy<R>, merged: R, ms: seq<Member<R>>)
    ensures var s := ScanFifo(p, merged, ms);
            && ms == s.taken + s.left
            && FoldFrom(p, merged, Requests(s.taken)) == Some(s.merged)
            && (s.left != [] ==> p.merge(s.merged, s.left[0].request).None?)
  {
    hide ScanFifo, FoldFrom, Requests;
    ScanFifoSplits(p, merged, ms);
    ScanFifoFolds(p, merged, ms);
  }

  lemma {:induction false} FoldFromAppend<R(!new)>(p: Policy<R>, acc: R, a: seq<R>, b: seq<R>)
    ensures FoldFrom(p, acc, a + b) ==
            match FoldFrom(p, acc, a) case None => None case Some(x) => FoldFrom(p, x, b)
  {
    if a == [] {
      assert a + b == b;
    } else {
      assert (a + b)[1..] == a[1..] + b;
      match p.merge(acc, a[0])
      case None =>
      case Some(next) => FoldFromAppend(p, next, a[1..], b);
    }
  }

  lemma RequestsAppend<R(!new)>(a: seq<Member<R>>, b: seq<Member<R>>)
    ensures Requests(a + b) == Requests(a) + Requests(b)
  {
  }

  lemma {:induction false} FoldAppend<R(!new)>(p: Policy<R>, a: seq<R>, b: seq<R>)
    requires a != []
    ensures Fold(p, a + b) == match Fold(p, a) case None => None case Some(x) => FoldFrom(p, x, b)
  {
    assert (a + b)[1..] == a[1..] + b;
    FoldFromAppend(p, a[0], a[1..], b);
  }

  /** A merged batch is the left fold, in batch order, of exactly the members it holds. */
  lemma MergeFolds<R(!new)>(p: Policy<R>, q: Queue<R>)
    requires MergeCompatible(p, q).Merged?
    ensures var q' := MergeCompatible(p, q).queue;
            && q'.batch != []
            && q.batch <= q'.batch
            && q'.merged == Fold(p, Requests(q'.batch))
            && q'.merged.Some?
  {
    var folded := Fold(p, Requests(q.batch)).value;
    var r := ScanReorderable(p, folded, q.reorderable);
    var f := ScanFifo(p, r.merged, q.fifo);
    ScanReorderableFacts(p, folded, q.reorderable);
    ScanFifoFacts(p, r.merged, q.fifo);
    FoldTwoMore(p, q.batch, r.taken, f.taken);
  }

  lemma {:induction false} FoldTwoMore<R(!new)>(p: Policy<R>, a: seq<Member<R>>, b: seq<Member<R>>, c: seq<Member<R>>)
    requires a != [] && Fold(p, Requests(a)).Some?
    requires FoldFrom(p, Fold(p, Requests(a)).value, Requests(b)).Some?
    ensures Fold(p, Requests(a + b + c)) ==
            FoldFrom(p, FoldFrom(p, Fold(p, Requests(a)).value, Requests(b)).value, Requests(c))
  {
    RequestsAppend(a, b);
    FoldAppend(p, Requests(a), Requests(b));
    RequestsAppend(a + b, c);
    FoldAppend(p, Requests(a + b), Requests(c));
  }

  lemma MergeConserves<R(!new)>(p: Policy<R>, q: Queue<R>)
    ensures Members(MergeCompatible(p, q).queue) == Members(q)
  {
    if q.batch != [] && Fold(p, Requests(q.batch)).Some? {
      var folded := Fold(p, Requests(q.batch)).value;
      var r := ScanReorderable(p, folded, q.reorderable);
      ScanReorderableFacts(p, folded, q.reorderable);
      ScanFifoFacts(p, r.merged, q.fifo);
    }
  }

  lemma RefreshConserves<R(!new)>(p: Policy<R>, q: Queue<R>, dead: set<nat>)
    ensures Members(q) == Members(RefreshBatch(p, q, dead).queue) + multiset(Pruned(q, dead))
  {
    PruneConserves(q, dead);
    MergeConserves(p, Prune(q, dead));
  }

  lemma SeedConserves<R(!new)>(q: Queue<R>)
    ensures Members(Seed(q)) == Members(q)
  {
    if q.batch == [] && q.fifo != [] {
      assert q.fifo == [q.fifo[0]] + q.fifo[1..];
    } else if q.batch == [] && q.reorderable != [] {
      assert q.reorderable == [q.reorderable[0]] + q.reorderable[1..];
    }
  }

  lemma FormConserves<R(!new)>(p: Policy<R>, q: Queue<R>, dead: set<nat>, later: set<nat>)
    ensures Members(q) == Members(FormBatch(p, q, dead, later).queue) + multiset(FormDiscards(q, dead, later))
  {
    PruneConserves(q, dead);
    SeedConserves(Prune(q, dead));
    RefreshConserves(p, Seed(Prune(q, dead)), later);
  }

  lemma RequeueConserves<R(!new)>(p: Policy<R>, q: Queue<R>, dead: set<nat>)
    ensures Members(q) == Members(Requeue(p, q, dead)) + multiset(Gone(q.batch, dead))
  {
    FilterConserves(q.batch, Alive(dead));
    FilterConserves(Live(q.batch, dead), IsStrict(p));
  }

  /** What requeuing the first batch member contributes to each of the three destinations. */
  lemma RequeueHead<R(!new)>(p: Policy<R>, ms: seq<Member<R>>, dead: set<nat>)
    requires ms != []
    ensures var m, rest := ms[0], ms[1..];
            var live, dropped := Live(rest, dead), Gone(rest, dead);
            if m.id in dead then Gone(ms, dead) == [m] + dropped && Live(ms, dead) == live
            else
              && Gone(ms, dead) == dropped
              && Strict(p, Live(ms, dead)) == (if p.canReorder(m.request) then [] else [m]) + Strict(p, live)
              && Loose(p, Live(ms, dead)) == (if p.canReorder(m.request) then [m] else []) + Loose(p, live)
  {
    var m, live := ms[0], Live(ms[1..], dead);
    if m.id !in dead {
      assert Live(ms, dead) == [m] + live;
      assert ([m] + live)[1..] == live;
    }
  }

  lemma RequeueNobody<R(!new)>(p: Policy<R>, dead: set<nat>)
    ensures Live<R>([], dead) == [] && Gone<R>([], dead) == [] && Strict(p, []) == [] && Loose(p, []) == []
  {
  }

  // Lemmas: only dead members are discarded --------------------------------------------

  lemma GoneAreDead<R(!new)>(ms: seq<Member<R>>, dead: set<nat>)
    ensures forall m :: m in Gone(ms, dead) ==> m.id in dead
  {
    forall m | m in Gone(ms, dead) ensures m.id in dead {
      FilterMember(ms, Negate(Alive(dead)), m);
    }
  }

  lemma LiveMembers<R(!new)>(ms: seq<Member<R>>, dead: set<nat>)
    ensures forall m :: m in Live(ms, dead) <==> m in ms && m.id !in dead
  {
    forall m ensures m in Live(ms, dead) <==> m in ms && m.id !in dead {
      FilterMember(ms, Alive(dead), m);
    }
  }

  lemma PrunedAreDead<R(!new)>(q: Queue<R>, dead: set<nat>)
    ensures forall m :: m in Pruned(q, dead) ==> m.id in dead
  {
    GoneAreDead(q.batch, dead);
    GoneAreDead(q.reorderable, dead);
    GoneAreDead(q.fifo, dead);
  }

  // Lemmas: a batch keeps folding when callers leave ------------------------------------

  /** Dropping any one request from a foldable sequence leaves a foldable sequence. */
  ghost predicate ClosedUnderDeletion<R(!new)>(p: Policy<R>)
  {
    forall rs: seq<R>, i: nat | i < |rs| && Foldable(p, rs) :: Foldable(p, RemoveAt(rs, i))
  }

  lemma RequestsDrop<R(!new)>(kept: seq<Member<R>>, ms: seq<Member<R>>)
    requires ms != []
    ensures Requests(kept + ms[1..]) == RemoveAt(Requests(kept + ms), |kept|)
  {
  }

  lemma FoldableAfterOne<R(!new)>(p: Policy<R>, rs: seq<R>, i: nat)
    requires ClosedUnderDeletion(p) && i < |rs| && Foldable(p, rs)
    ensures Foldable(p, RemoveAt(rs, i))
  {
    hide Foldable;
  }

  lemma {:induction false} FoldableAfterDeletions<R(!new)>(
    p: Policy<R>, kept: seq<Member<R>>, ms: seq<Member<R>>, keep: Member<R> -> bool)
    requires ClosedUnderDeletion(p)
    requires Foldable(p, Requests(kept + ms))
    ensures Foldable(p, Requests(kept + Filter(ms, keep)))
    decreases |ms|
  {
    hide ClosedUnderDeletion, Foldable, Requests, Filter, RemoveAt;
    FilterStep(ms, keep);
    if ms == [] {
    } else if keep(ms[0]) {
      Regrouped(kept, ms);
      FoldableAfterDeletions(p, kept + [ms[0]], ms[1..], keep);
      Regrouped(kept, Filter(ms, keep));
    } else {
      RequestsDrop(kept, ms);
      FoldableAfterOne(p, Requests(kept + ms), |kept|);
      FoldableAfterDeletions(p, kept, ms[1..], keep);
    }
  }

  lemma {:induction false} FilterStep<T(!new)>(s: seq<T>, keep: T -> bool)
    ensures s == [] ==> Filter(s, keep) == s
    ensures s != [] && !keep(s[0]) ==> Filter(s, keep) == Filter(s[1..], keep)
    ensures s != [] && keep(s[0]) ==>
              Filter(s, keep) != [] && Filter(s, keep)[0] == s[0] && Filter(s, keep)[1..] == Filter(s[1..], keep)
  {
  }

  lemma Regrouped<T(!new)>(a: seq<T>, b: seq<T>)
    requires b != []
    ensures a + b == a + [b[0]] + b[1..]
  {
  }

  lemma LiveStillFolds<R(!new)>(p: Policy<R>, ms: seq<Member<R>>, dead: set<nat>)
    requires ClosedUnderDeletion(p) && Foldable(p, Requests(ms))
    ensures Foldable(p, Requests(Live(ms, dead)))
  {
    hide ClosedUnderDeletion, Foldable;
    assert [] + ms == ms;
    FoldableAfterDeletions(p, [], ms, Alive(dead));
    assert [] + Live(ms, dead) == Live(ms, dead);
  }

  /** A foldable batch never makes a refresh panic. */
  lemma RefreshNeverPanics<R(!new)>(p: Policy<R>, q: Queue<R>, dead: set<nat>)
    requires ClosedUnderDeletion(p)
    requires Foldable(p, Requests(q.batch))
    ensures !RefreshBatch(p, q, dead).Panic?
  {
    hide ClosedUnderDeletion, Fold, Live, ScanReorderable, ScanFifo;
    LiveStillFolds(p, q.batch, dead);
  }

  lemma FormNeverPanics<R(!new)>(p: Policy<R>, q: Queue<R>, dead: set<nat>, later: set<nat>)
    requires ClosedUnderDeletion(p)
    requires Foldable(p, Requests(q.batch))
    ensures !FormBatch(p, q, dead, later).Panic?
  {
    hide ClosedUnderDeletion, RefreshBatch, Live;
    LiveStillFolds(p, q.batch, dead);
    RefreshNeverPanics(p, Seed(Prune(q, dead)), later);
  }

  // Lemmas: the strict line --------------------------------------------------------------

  lemma StrictLinePrune<R(!new)>(p: Policy<R>, q: Queue<R>, dead: set<nat>)
    ensures StrictLine(p, Prune(q, dead)) == Live(StrictLine(p, q), dead)
  {
    FilterCommutes(q.batch, Alive(dead), IsStrict(p));
    FilterAppend(Strict(p, q.batch), q.fifo, Alive(dead));
  }

  lemma {:induction false} ScanKeepsPolicy<R(!new)>(p: Policy<R>, merged: R, ms: seq<Member<R>>, m: Member<R>)
    requires m in ScanReorderable(p, merged, ms).taken || m in ScanReorderable(p, merged, ms).left
    ensures m in ms
  {
    ScanReorderableFacts(p, merged, ms);
    var s := ScanReorderable(p, merged, ms);
    assert m in multiset(s.taken) + multiset(s.left);
    assert m in multiset(ms);
  }

  lemma StrictLineMerge<R(!new)>(p: Policy<R>, q: Queue<R>)
    requires Sorted(p, q)
    ensures var q' := MergeCompatible(p, q).queue;
            StrictLine(p, q') == StrictLine(p, q) && Sorted(p, q')
  {
    hide Fold, Requests, ScanReorderable, ScanFifo, Strict;
    if q.batch != [] && Fold(p, Requests(q.batch)).Some? {
      var folded := Fold(p, Requests(q.batch)).value;
      var r := ScanReorderable(p, folded, q.reorderable);
      var f := ScanFifo(p, r.merged, q.fifo);
      ScanFifoFacts(p, r.merged, q.fifo);
      forall m | m in r.taken || m in r.left ensures p.canReorder(m.request) {
        ScanKeepsPolicy(p, folded, q.reorderable, m);
      }
      StrictOfTwoMore(p, q.batch, r.taken, f.taken);
      assert Strict(p, q.batch) + f.taken + f.left == Strict(p, q.batch) + (f.taken + f.left);
    }
  }

  lemma StrictOfTwoMore<R(!new)>(p: Policy<R>, a: seq<Member<R>>, b: seq<Member<R>>, c: seq<Member<R>>)
    requires forall m :: m in b ==> p.canReorder(m.request)
    requires forall m :: m in c ==> !p.canReorder(m.request)
    ensures Strict(p, a + b + c) == Strict(p, a) + c
  {
    FilterAppend(a, b, IsStrict(p));
    FilterAppend(a + b, c, IsStrict(p));
    FilterNone(b, IsStrict(p));
    FilterAll(c, IsStrict(p));
  }

  lemma StrictLineSeed<R(!new)>(p: Policy<R>, q: Queue<R>)
    requires Sorted(p, q)
    ensures StrictLine(p, Seed(q)) == StrictLine(p, q) && Sorted(p, Seed(q))
  {
    if q.batch == [] && q.fifo != [] {
      FilterAll([q.fifo[0]], IsStrict(p));
    } else if q.batch == [] && q.reorderable != [] {
      FilterNone([q.reorderable[0]], IsStrict(p));
    }
  }

  lemma SortedPrune<R(!new)>(p: Policy<R>, q: Queue<R>, dead: set<nat>)
    requires Sorted(p, q)
    ensures Sorted(p, Prune(q, dead))
  {
    LiveMembers(q.reorderable, dead);
    LiveMembers(q.fifo, dead);
  }

  /** Pruning and merging only remove dead members from the strict line. */
  lemma StrictLineRefresh<R(!new)>(p: Policy<R>, q: Queue<R>, dead: set<nat>)
    requires Sorted(p, q)
    ensures var q' := RefreshBatch(p, q, dead).queue;
            StrictLine(p, q') == Live(StrictLine(p, q), dead) && Sorted(p, q')
  {
    SortedPrune(p, q, dead);
    StrictLinePrune(p, q, dead);
    StrictLineMerge(p, Prune(q, dead));
  }

  lemma StrictLineForm<R(!new)>(p: Policy<R>, q: Queue<R>, dead: set<nat>, later: set<nat>)
    requires Sorted(p, q)
    ensures var q' := FormBatch(p, q, dead, later).queue;
            StrictLine(p, q') == Live(Live(StrictLine(p, q), dead), later) && Sorted(p, q')
  {
    SortedPrune(p, q, dead);
    StrictLinePrune(p, q, dead);
    StrictLineSeed(p, Prune(q, dead));
    StrictLineRefresh(p, Seed(Prune(q, dead)), later);
  }

  /** A requeue puts the strict part of the batch back where it was in the line. */
  lemma StrictLineRequeue<R(!new)>(p: Policy<R>, q: Queue<R>, dead: set<nat>)
    requires Sorted(p, q)
    ensures var q' := Requeue(p, q, dead);
            && StrictLine(p, q') == Live(Strict(p, q.batch), dead) + q.fifo
            && Sorted(p, q')
  {
    FilterCommutes(q.batch, Alive(dead), IsStrict(p));
    forall m ensures m in Strict(p, Live(q.batch, dead)) ==> !p.canReorder(m.request) {
      FilterMember(Live(q.batch, dead), IsStrict(p), m);
    }
    forall m ensures m in Loose(p, Live(q.batch, dead)) ==> p.canReorder(m.request) {
      FilterMember(Live(q.batch, dead), Negate(IsStrict(p)), m);
    }
  }
}
