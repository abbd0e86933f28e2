/**
 The two places where the deduplicator's promises depend on something outside it: a round
 panics in some run exactly when the request type's merge is not closed under deletion,
 and a seed that dies between two looks at liveness costs live callers their place.
 */
module DedupLimits {
  import opened Sequences
  import opened DedupQueue
  import opened DedupMachine
  import opened DedupCell
  import opened DedupSystem
  import opened DedupRuns
  import opened DedupGuarantees
  import DF = DedupFates

  // A merge closed under deletion never panics ------------------------------------------------

  lemma {:induction false} NoRunPanics<R(!new)>(p: Policy<R>, sh: Shards, run: Run<R>, i: nat, key: string)
    requires ValidRun(p, sh, run) && i < |run.states| && ClosedUnderDeletion(p)
    ensures !CellIn(sh, run, i, key).panicked
  {
    hide ClosedUnderDeletion, Enabled, Apply, CellAt, Sound;
    if i > 0 {
      NoRunPanics(p, sh, run, i - 1, key);
      TurnNeverPanics(p, sh, run, i - 1, key);
    } else {
      StartsHealthy<R>(sh, key);
    }
  }

  lemma StartsHealthy<R(!new)>(sh: Shards, key: string)
    ensures !CellAt(sh, Init<R>(), key).panicked
  {
  }

  lemma TurnNeverPanics<R(!new)>(p: Policy<R>, sh: Shards, run: Run<R>, i: nat, key: string)
    requires ValidRun(p, sh, run) && i < |run.turns| && ClosedUnderDeletion(p)
    requires !CellIn(sh, run, i, key).panicked
    ensures !CellIn(sh, run, i + 1, key).panicked
  {
    hide ClosedUnderDeletion, Enabled, Apply;
    assert Follows(p, sh, run, i);
    var s, c := run.states[i], CellIn(sh, run, i, key);
    AlwaysInv(p, sh, run, i);
    AlwaysSound(p, sh, run, i, key);
    TurnMovesCell(p, sh, s, key, run.turns[i]);
    if e :| EventFor(sh, key, run.turns[i]) == Some(e) {
      DF.NeverPanics(p, c, s.closing, s.next, e);
    }
  }

  // Otherwise some run does ---------------------------------------------------------------------

  ghost predicate Reaches<R(!new)>(p: Policy<R>, sh: Shards, run: Run<R>, s: System<R>)
  {
    ValidRun(p, sh, run) && run.states[|run.turns|] == s
  }

  lemma Extend<R(!new)>(p: Policy<R>, sh: Shards, run: Run<R>, s: System<R>, a: Turn<R>) returns (longer: Run<R>)
    requires Reaches(p, sh, run, s) && CanDo(sh, s, a)
    ensures Reaches(p, sh, longer, Do(p, sh, s, a))
    ensures longer.turns == run.turns + [a]
  {
    hide CanDo, Do;
    longer := Run(run.states + [Do(p, sh, s, a)], run.turns + [a]);
    forall i | 0 <= i < |longer.turns| ensures Follows(p, sh, longer, i) {
      if i < |run.turns| {
        assert Follows(p, sh, run, i);
      }
    }
  }

  /** One owner is running a round whose batch holds the given requests; nobody else waits. */
  ghost predicate Building<R(!new)>(p: Policy<R>, c: Cell<R>, next: nat, signal: nat, rs: seq<R>)
  {
    && c.machine.Some? && !c.panicked && c.dead == {}
    && c.machine.value.phase == Running(Driver(2, Owner), signal)
    && Requests(c.machine.value.queue.batch) == rs
    && c.machine.value.queue.reorderable == [] && c.machine.value.queue.fifo == []
    && c.tasks.Keys == {2} && c.tasks[2].kind == Owner && c.tasks[2].pc == InWorker(signal)
    && (forall m :: m in c.machine.value.queue.batch ==> m in c.log.submitted && m.id < next)
    && (forall i, j :: 0 <= i < j < |rs| ==> c.machine.value.queue.batch[i].id != c.machine.value.queue.batch[j].id)
  }

  lemma NobodyDead<R(!new)>(ms: seq<Member<R>>)
    ensures Live(ms, {}) == ms && Gone(ms, {}) == []
  {
    FilterAll(ms, Alive({}));
    FilterNone(ms, Negate(Alive({})));
  }

  lemma OneMoreMerges<R(!new)>(p: Policy<R>, q: Queue<R>, x: Member<R>)
    requires q.reorderable == [] && q.fifo == [] && q.batch != []
    requires Fold(p, Requests(q.batch)).Some? && Fold(p, Requests(q.batch + [x])).Some?
    ensures var m := RefreshBatch(p, Enqueue(p, q, x), {});
            m.Merged? && m.queue.batch == q.batch + [x] && m.queue.reorderable == [] && m.queue.fifo == []
  {
    var q' := Enqueue(p, q, x);
    NobodyDead(q'.batch);
    NobodyDead(q'.reorderable);
    NobodyDead(q'.fifo);
    RequestsAppend(q.batch, [x]);
    FoldAppend(p, Requests(q.batch), Requests([x]));
    var folded := Fold(p, Requests(q.batch)).value;
    assert Requests([x]) == [x.request];
    var merged := p.merge(folded, x.request).value;
    assert [x][1..] == [];
    if p.canReorder(x.request) {
      assert q'.reorderable == [x];
      assert ScanReorderable(p, folded, [x]) == Scan(merged, [x], []);
    } else {
      assert q'.fifo == [x];
      assert ScanFifo(p, folded, [x]) == Scan(merged, [x], []);
    }
  }

  lemma OneMoreRefreshes<R(!new)>(p: Policy<R>, q: Queue<R>, signal: nat, x: Member<R>)
    requires q.reorderable == [] && q.fifo == [] && q.batch != []
    requires Fold(p, Requests(q.batch)).Some? && Fold(p, Requests(q.batch + [x])).Some?
    ensures var s := Refresh(p, Machine(Enqueue(p, q, x), Running(Driver(2, Owner), signal)), 2, {});
            && s.action == Keep && s.reply.Request? && s.machine.phase == Running(Driver(2, Owner), signal)
            && s.machine.queue.batch == q.batch + [x] && s.machine.queue.reorderable == [] && s.machine.queue.fifo == []
  {
    hide Enqueue;
    OneMoreMerges(p, q, x);
    MergeFolds(p, Prune(Enqueue(p, q, x), {}));
  }

  lemma GrowBatch<R(!new)>(p: Policy<R>, c: Cell<R>, next: nat, signal: nat, rs: seq<R>, r: R)
    requires Building(p, c, next, signal, rs) && rs != []
    requires Fold(p, rs).Some? && Fold(p, rs + [r]).Some?
    ensures Enabled(c, false, Submit(r))
    ensures var c' := Apply(p, c, false, next, Submit(r));
            && Enabled(c', false, CallMerged(2))
            && Building(p, Apply(p, c', false, next + 1, CallMerged(2)), next + 2, signal, rs + [r])
  {
    hide Refresh, Enqueue, Fold;
    var q, x := c.machine.value.queue, Member(next, r);
    RequestsAppend(q.batch, [x]);
    assert Requests([x]) == [r];
    OneMoreRefreshes(p, q, signal, x);
  }

  lemma {:induction false} DropOne<R(!new)>(ms: seq<Member<R>>, i: nat)
    requires i < |ms| && forall j, k :: 0 <= j < k < |ms| ==> ms[j].id != ms[k].id
    ensures Live(ms, {ms[i].id}) == RemoveAt(ms, i)
  {
    hide Filter;
    var keep := Alive<R>({ms[i].id});
    var before, after := ms[..i], ms[i + 1..];
    assert ms == before + ([ms[i]] + after);
    FilterAppend(before, [ms[i]] + after, keep);
    FilterAppend([ms[i]], after, keep);
    FilterOne(ms[i], keep);
    forall m | m in before ensures keep(m) {
      var j :| 0 <= j < i && ms[j] == m;
    }
    forall m | m in after ensures keep(m) {
      var j :| i < j < |ms| && ms[j] == m;
    }
    FilterAll(before, keep);
    FilterAll(after, keep);
  }

  lemma FilterOne<T(!new)>(x: T, keep: T -> bool)
    ensures Filter([x], keep) == if keep(x) then [x] else []
  {
    assert [x][1..] == [];
  }

  lemma LeavingPanics<R(!new)>(p: Policy<R>, c: Cell<R>, next: nat, signal: nat, rs: seq<R>, i: nat)
    requires Building(p, c, next, signal, rs) && i < |rs| && !Foldable(p, RemoveAt(rs, i))
    ensures var e := Kill(c.machine.value.queue.batch[i].id);
            && Enabled(c, false, e)
            && var c' := Apply(p, c, false, next, e);
               Enabled(c', false, CallMerged(2)) && Apply(p, c', false, next + 1, CallMerged(2)).panicked
  {
    var q := c.machine.value.queue;
    var id := q.batch[i].id;
    assert q.batch[i] in q.batch;
    DropOne(q.batch, i);
    assert Requests(RemoveAt(q.batch, i)) == RemoveAt(rs, i);
    assert c.dead + {id} == {id};
    assert Held(c) == {};
  }

  lemma OnCell<R(!new)>(p: Policy<R>, sh: Shards, run: Run<R>, s: System<R>, key: string, e: Event<R>)
    returns (longer: Run<R>, s': System<R>)
    requires Reaches(p, sh, run, s) && !e.Sweep? && Enabled(CellAt(sh, s, key), s.closing, e)
    ensures Reaches(p, sh, longer, s') && s'.closing == s.closing && s'.next == s.next + 1
    ensures CellAt(sh, s', key) == Apply(p, CellAt(sh, s, key), s.closing, s.next, e)
  {
    hide Reaches, Enabled, Apply;
    longer := Extend(p, sh, run, s, OnKey(key, e));
    s' := Do(p, sh, s, OnKey(key, e));
  }

  // An owner comes to run a round for one request.

  ghost predicate Alone<R(!new)>(c: Cell<R>, d: nat, t: Task<R>, m: Machine<R>, x: Member<R>)
  {
    && c.machine == Some(m) && c.tasks == map[d := t] && c.dead == {} && !c.panicked && c.log.submitted == {x}
  }

  function Single<R>(p: Policy<R>, x: Member<R>): Queue<R>
  {
    Enqueue(p, Queue([], [], [], Some(x.request)), x)
  }

  lemma NobodyDeadIn<R(!new)>(q: Queue<R>)
    ensures Prune(q, {}) == q && Pruned(q, {}) == []
  {
    NobodyDead(q.batch);
    NobodyDead(q.reorderable);
    NobodyDead(q.fifo);
  }

  lemma FirstStarts<R(!new)>(p: Policy<R>, x: Member<R>)
    ensures StartRound(p, NewMachine(x, 0), 0, false, 1, {}, {}) ==
            Step(Machine(NewQueue(x), Running(Driver(0, Inline), 1)), Keep, Started(1), [], [])
  {
    NobodyDeadIn(NewQueue(x));
    assert Seed(NewQueue(x)) == NewQueue(x);
    assert Requests([x]) == [x.request];
    assert FormDiscards(NewQueue(x), {}, {}) == [];
  }

  lemma FirstDriverBegins<R(!new)>(p: Policy<R>, c: Cell<R>, x: Member<R>)
    requires Alone(c, 0, Task(Inline, 0, AtStart, []), NewMachine(x, 0), x)
    ensures Enabled(c, false, Start(0, {}))
    ensures var c' := Apply(p, c, false, 1, Start(0, {}));
            && Alone(c', 0, Task(Inline, 0, InWorker(1), [x]), Machine(NewQueue(x), Running(Driver(0, Inline), 1)), x)
            && c'.log.retired == c.log.retired
  {
    hide StartRound;
    assert c.dead + {} == {};
    FirstStarts(p, x);
  }

  lemma FirstDrop<R(!new)>(p: Policy<R>, x: Member<R>)
    ensures DriverDropped(p, Machine(NewQueue(x), Running(Driver(0, Inline), 1)), 0, false, 2, {}, {}) ==
            Step(Machine(Single(p, x), Handoff(2)), SpawnOwner(2), Aborted(1), [], [])
  {
    NobodyDead([x]);
    FilterOne(x, IsStrict(p));
    FilterOne(x, Negate(IsStrict(p)));
    assert Requeue(p, NewQueue(x), {}) == Single(p, x);
    NobodyDeadIn(Single(p, x));
  }

  lemma FirstDriverLeaves<R(!new)>(p: Policy<R>, c: Cell<R>, x: Member<R>)
    requires Alone(c, 0, Task(Inline, 0, InWorker(1), [x]), Machine(NewQueue(x), Running(Driver(0, Inline), 1)), x)
    ensures Enabled(c, false, Drop(0, {}))
    ensures Alone(Apply(p, c, false, 2, Drop(0, {})), 2, Task(Owner, 2, Reserved, []), Machine(Single(p, x), Handoff(2)), x)
  {
    hide DriverDropped, Single;
    assert c.dead + {} == {};
    FirstDrop(p, x);
    assert c.tasks - {0} == map[];
  }

  lemma FormsAlone<R(!new)>(p: Policy<R>, x: Member<R>)
    ensures FormBatch(p, Single(p, x), {}, {}) == Merged(Queue([x], [], [], Some(x.request)))
  {
    var seeded := Queue([x], [], [], Some(x.request));
    NobodyDeadIn(Single(p, x));
    NobodyDeadIn(seeded);
    assert [x][1..] == [];
    assert Seed(Single(p, x)) == seeded;
    assert Requests([x]) == [x.request];
  }

  lemma OwnerTakesOver<R(!new)>(p: Policy<R>, c: Cell<R>, x: Member<R>)
    requires Alone(c, 2, Task(Owner, 2, Reserved, []), Machine(Single(p, x), Handoff(2)), x)
    ensures Enabled(c, false, OwnerStart(2))
    ensures Alone(Apply(p, c, false, 3, OwnerStart(2)), 2, Task(Owner, 2, AtStart, []),
                  Machine(Single(p, x), Ready(Driver(2, Owner))), x)
  {
  }

  lemma SingleStarts<R(!new)>(p: Policy<R>, x: Member<R>)
    ensures StartRound(p, Machine(Single(p, x), Ready(Driver(2, Owner))), 2, false, 4, {}, {}) ==
            Step(Machine(Queue([x], [], [], Some(x.request)), Running(Driver(2, Owner), 4)), Keep, Started(4),
                 FormDiscards(Single(p, x), {}, {}), [])
  {
    hide FormBatch, Single;
    FormsAlone(p, x);
  }

  lemma OwnerBegins<R(!new)>(p: Policy<R>, c: Cell<R>, x: Member<R>)
    requires Alone(c, 2, Task(Owner, 2, AtStart, []), Machine(Single(p, x), Ready(Driver(2, Owner))), x)
    requires x.id < 5
    ensures Enabled(c, false, Start(2, {}))
    ensures Building(p, Apply(p, c, false, 4, Start(2, {})), 5, 4, [x.request])
  {
    hide StartRound, Single, FormDiscards;
    assert c.dead + {} == {};
    SingleStarts(p, x);
    assert Requests([x]) == [x.request];
  }

  lemma OwnerRuns<R(!new)>(p: Policy<R>, sh: Shards, key: string, r: R) returns (run: Run<R>, s: System<R>)
    requires ValidShards(sh)
    ensures Reaches(p, sh, run, s) && !s.closing && s.next == 5
    ensures Building(p, CellAt(sh, s, key), 5, 4, [r])
  {
    hide Building, Alone, Reaches, Enabled, Apply;
    run, s := FirstSubmit(p, sh, key, r);
    FirstDriverBegins(p, CellAt(sh, s, key), Member(0, r));
    run, s := OnCell(p, sh, run, s, key, Start(0, {}));
    FirstDriverLeaves(p, CellAt(sh, s, key), Member(0, r));
    run, s := OnCell(p, sh, run, s, key, Drop(0, {}));
    OwnerTakesOver(p, CellAt(sh, s, key), Member(0, r));
    run, s := OnCell(p, sh, run, s, key, OwnerStart(2));
    OwnerBegins(p, CellAt(sh, s, key), Member(0, r));
    run, s := OnCell(p, sh, run, s, key, Start(2, {}));
  }

  lemma FirstSubmit<R(!new)>(p: Policy<R>, sh: Shards, key: string, r: R) returns (run: Run<R>, s: System<R>)
    requires ValidShards(sh)
    ensures Reaches(p, sh, run, s) && !s.closing && s.next == 1
    ensures Alone(CellAt(sh, s, key), 0, Task(Inline, 0, AtStart, []), NewMachine(Member(0, r), 0), Member(0, r))
    ensures CellAt(sh, s, key).log.retired == multiset{}
  {
    run, s := OnCell(p, sh, Run([Init()], []), Init(), key, Submit(r));
  }

  lemma {:induction false} BatchGrowsTo<R(!new)>(p: Policy<R>, sh: Shards, key: string, rs: seq<R>, k: nat)
    returns (run: Run<R>, s: System<R>)
    requires ValidShards(sh) && 0 < k <= |rs| && Fold(p, rs).Some?
    ensures Reaches(p, sh, run, s) && !s.closing
    ensures Building(p, CellAt(sh, s, key), s.next, 4, rs[..k])
  {
    hide Building, Reaches, Enabled, Apply;
    if k == 1 {
      run, s := OwnerRuns(p, sh, key, rs[0]);
      assert rs[..1] == [rs[0]];
    } else {
      run, s := BatchGrowsTo(p, sh, key, rs, k - 1);
      PrefixFolds(p, rs, k - 1);
      PrefixFolds(p, rs, k);
      assert rs[..k] == rs[..k - 1] + [rs[k - 1]];
      GrowBatch(p, CellAt(sh, s, key), s.next, 4, rs[..k - 1], rs[k - 1]);
      run, s := OnCell(p, sh, run, s, key, Submit(rs[k - 1]));
      run, s := OnCell(p, sh, run, s, key, CallMerged(2));
    }
  }

  lemma PrefixFolds<R(!new)>(p: Policy<R>, rs: seq<R>, k: nat)
    requires 0 < k <= |rs| && Fold(p, rs).Some?
    ensures Fold(p, rs[..k]).Some?
  {
    assert rs == rs[..k] + rs[k..];
    FoldAppend(p, rs[..k], rs[k..]);
  }

  /** A merge that is not closed under deletion panics in some run without any close. */
  lemma SomeRunPanics<R(!new)>(p: Policy<R>, sh: Shards, key: string) returns (run: Run<R>, s: System<R>)
    requires ValidShards(sh) && !ClosedUnderDeletion(p)
    ensures Reaches(p, sh, run, s) && !s.closing && CellAt(sh, s, key).panicked
  {
    var rs: seq<R>, i: nat :| i < |rs| && Foldable(p, rs) && !Foldable(p, RemoveAt(rs, i));
    hide Building, Reaches, Enabled, Apply;
    run, s := BatchGrowsTo(p, sh, key, rs, |rs|);
    assert rs[..|rs|] == rs;
    var c := CellAt(sh, s, key);
    LeavingPanics(p, c, s.next, 4, rs, i);
    BatchNamed(p, c, s.next, 4, rs);
    run, s := OnCell(p, sh, run, s, key, Kill(c.machine.value.queue.batch[i].id));
    run, s := OnCell(p, sh, run, s, key, CallMerged(2));
  }

  lemma BatchNamed<R(!new)>(p: Policy<R>, c: Cell<R>, next: nat, signal: nat, rs: seq<R>)
    requires Building(p, c, next, signal, rs)
    ensures c.machine.Some? && |c.machine.value.queue.batch| == |rs|
  {
  }

  /** The panic is reachable exactly when the merge is not closed under deletion. */
  lemma PanicReachableExactly<R(!new)>(p: Policy<R>, sh: Shards, key: string)
    requires ValidShards(sh)
    ensures (exists run: Run<R>, s :: Reaches(p, sh, run, s) && CellAt(sh, s, key).panicked) <==> !ClosedUnderDeletion(p)
  {
    if ClosedUnderDeletion(p) {
      forall run: Run<R>, s | Reaches(p, sh, run, s) ensures !CellAt(sh, s, key).panicked {
        NoRunPanics(p, sh, run, |run.turns|, key);
      }
    } else {
      var run, s := SomeRunPanics(p, sh, key);
    }
  }

  // A torn seed costs a live caller its place ----------------------------------------------------

  /** The two members wait in the FIFO, or the first leads as the batch. */
  ghost predicate Pair<R(!new)>(c: Cell<R>, tasks: map<nat, Task<R>>, m: Machine<R>, x: Member<R>, y: Member<R>)
  {
    c.machine == Some(m) && c.tasks == tasks && c.dead == {} && !c.panicked && c.log.submitted == {x, y} &&
    c.log.retired == multiset{}
  }

  lemma SecondSubmits<R(!new)>(p: Policy<R>, c: Cell<R>, r: R)
    requires var x := Member(0, r);
             Alone(c, 0, Task(Inline, 0, InWorker(1), [x]), Machine(NewQueue(x), Running(Driver(0, Inline), 1)), x)
    requires c.log.retired == multiset{} && !p.canReorder(r)
    ensures Enabled(c, false, Submit(r))
    ensures var x, y := Member(0, r), Member(2, r);
            Pair(Apply(p, c, false, 2, Submit(r)), map[0 := Task(Inline, 0, InWorker(1), [x])],
                 Machine(Queue([x], [], [y], Some(r)), Running(Driver(0, Inline), 1)), x, y)
  {
    assert [] + [Member(2, r)] == [Member(2, r)];
  }

  lemma PairHandsOff<R(!new)>(p: Policy<R>, x: Member<R>, y: Member<R>, r: R)
    requires !p.canReorder(x.request)
    ensures DriverDropped(p, Machine(Queue([x], [], [y], Some(r)), Running(Driver(0, Inline), 1)), 0, false, 3, {}, {}) ==
            Step(Machine(Queue([], [], [x, y], Some(r)), Handoff(3)), SpawnOwner(3), Aborted(1), [], [])
  {
    var q := Queue([], [], [x, y], Some(r));
    NobodyDead([x]);
    FilterOne(x, IsStrict(p));
    FilterOne(x, Negate(IsStrict(p)));
    assert Requeue(p, Queue([x], [], [y], Some(r)), {}) == q;
    NobodyDeadIn(q);
  }

  lemma PairDrops<R(!new)>(p: Policy<R>, c: Cell<R>, x: Member<R>, y: Member<R>, r: R)
    requires !p.canReorder(x.request)
    requires Pair(c, map[0 := Task(Inline, 0, InWorker(1), [x])],
                  Machine(Queue([x], [], [y], Some(r)), Running(Driver(0, Inline), 1)), x, y)
    ensures Enabled(c, false, Drop(0, {}))
    ensures Pair(Apply(p, c, false, 3, Drop(0, {})), map[3 := Task(Owner, 3, Reserved, [])],
                 Machine(Queue([], [], [x, y], Some(r)), Handoff(3)), x, y)
  {
    hide DriverDropped;
    assert c.dead + {} == {};
    PairHandsOff(p, x, y, r);
    assert c.tasks - {0} == map[];
  }

  lemma PairAccepted<R(!new)>(p: Policy<R>, c: Cell<R>, x: Member<R>, y: Member<R>, q: Queue<R>)
    requires Pair(c, map[3 := Task(Owner, 3, Reserved, [])], Machine(q, Handoff(3)), x, y)
    ensures Enabled(c, false, OwnerStart(3))
    ensures Pair(Apply(p, c, false, 4, OwnerStart(3)), map[3 := Task(Owner, 3, AtStart, [])],
                 Machine(q, Ready(Driver(3, Owner))), x, y)
  {
  }

  lemma SeedDies<R(!new)>(p: Policy<R>, x: Member<R>, y: Member<R>, r: R)
    requires x.id != y.id
    ensures FormBatch(p, Queue([], [], [x, y], Some(r)), {}, {x.id}) == EmptyBatch(Queue([], [], [y], Some(r)))
  {
    var q := Queue([], [], [x, y], Some(r));
    NobodyDeadIn(q);
    assert [x, y][1..] == [y];
    assert Seed(q) == Queue([x], [], [y], Some(r));
    FilterOne(x, Alive({x.id}));
    FilterOne(y, Alive({x.id}));
  }

  lemma PairTorn<R(!new)>(p: Policy<R>, c: Cell<R>, x: Member<R>, y: Member<R>, r: R)
    requires Pair(c, map[3 := Task(Owner, 3, AtStart, [])],
                  Machine(Queue([], [], [x, y], Some(r)), Ready(Driver(3, Owner))), x, y)
    requires x.id != y.id
    ensures Enabled(c, false, Start(3, {x.id}))
    ensures var c' := Apply(p, c, false, 5, Start(3, {x.id}));
            y in c'.log.retired && y.id !in c'.dead && y in c'.log.submitted && c'.machine == None
  {
    hide FormBatch;
    assert c.dead + {x.id} == {x.id};
    assert x in c.log.submitted;
    assert Held(c) == {};
    SeedDies(p, x, y, r);
    assert y in multiset([y]);
  }

  /**
   A run without a close in which a live strict caller is dropped with its key: the first
   caller gives up in mid-round, and its receiver goes between the successor's two looks.
   */
  lemma TornSeedDropsALiveCaller<R(!new)>(p: Policy<R>, sh: Shards, key: string, r: R)
    returns (run: Run<R>, s: System<R>)
    requires ValidShards(sh) && !p.canReorder(r)
    ensures Reaches(p, sh, run, s) && !s.closing
    ensures var c, y := CellAt(sh, s, key), Member(2, r);
            y in c.log.retired && y.id !in c.dead && y in c.log.submitted
  {
    var x, y := Member(0, r), Member(2, r);
    run, s := FirstSubmit(p, sh, key, r);
    hide Alone, Reaches, Enabled, Apply, Pair;
    FirstDriverBegins(p, CellAt(sh, s, key), x);
    run, s := OnCell(p, sh, run, s, key, Start(0, {}));
    SecondSubmits(p, CellAt(sh, s, key), r);
    run, s := OnCell(p, sh, run, s, key, Submit(r));
    PairDrops(p, CellAt(sh, s, key), x, y, r);
    run, s := OnCell(p, sh, run, s, key, Drop(0, {}));
    PairAccepted(p, CellAt(sh, s, key), x, y, Queue([], [], [x, y], Some(r)));
    run, s := OnCell(p, sh, run, s, key, OwnerStart(3));
    PairTorn(p, CellAt(sh, s, key), x, y, r);
    run, s := OnCell(p, sh, run, s, key, Start(3, {x.id}));
  }
}
