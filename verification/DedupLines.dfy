/** The reorderable line: whoever stays in it keeps its place ahead of all who come later. */
module DedupLines {
  import opened Sequences
  import opened DedupQueue
  import opened DedupMachine
  import opened DedupCell
  import opened DedupSystem
  import opened DedupRuns
  import opened DedupGuarantees
  import opened DedupMerge

  /** Those of the line that are still there come first, in their order; newcomers follow. */
  ghost predicate KeepsLine<R(!new)>(line: seq<Member<R>>, line': seq<Member<R>>)
  {
    exists mask :: |mask| == |line| && Pick(line, mask) <= line'
  }

  // Picking from picks ---------------------------------------------------------------------------

  function Compose(outer: seq<bool>, inner: seq<bool>): (mask: seq<bool>)
    ensures |mask| == |outer|
  {
    if outer == [] then []
    else if outer[0] && inner != [] then [inner[0]] + Compose(outer[1..], inner[1..])
    else [false] + Compose(outer[1..], inner)
  }

  lemma {:induction false} PickTwice<T(!new)>(s: seq<T>, outer: seq<bool>, inner: seq<bool>)
    requires |outer| == |s| && |inner| == |Pick(s, outer)|
    ensures Pick(Pick(s, outer), inner) == Pick(s, Compose(outer, inner))
  {
    if s != [] {
      if outer[0] {
        assert Pick(s, outer)[1..] == Pick(s[1..], outer[1..]);
        PickTwice(s[1..], outer[1..], inner[1..]);
      } else {
        assert Pick(s, outer) == Pick(s[1..], outer[1..]);
        PickTwice(s[1..], outer[1..], inner);
      }
    }
  }

  lemma {:induction false} PickAll<T(!new)>(s: seq<T>)
    ensures Pick(s, seq(|s|, _ => true)) == s && Pick(s, seq(|s|, _ => false)) == []
  {
    if s != [] {
      PickAll(s[1..]);
      assert seq(|s|, _ => true)[1..] == seq(|s[1..]|, _ => true) && seq(|s|, _ => false)[1..] == seq(|s[1..]|, _ => false);
    }
  }

  lemma Stays<R(!new)>(line: seq<Member<R>>, more: seq<Member<R>>)
    ensures KeepsLine(line, line + more) && KeepsLine(line, [])
  {
    hide Pick;
    PickAll(line);
    var all, none := seq(|line|, _ => true), seq(|line|, _ => false);
    assert |all| == |line| && Pick(line, all) <= line + more;
    assert |none| == |line| && Pick(line, none) <= [];
  }

  lemma {:induction false} PickFollows<R(!new)>(line: seq<Member<R>>, mask: seq<bool>)
    requires |mask| == |line|
    ensures KeepsLine(line, Pick(line, mask))
  {
  }

  /** What follows a part of what follows the line follows the line, if nothing came in between. */
  lemma {:induction false} PickThenFollows<R(!new)>(line: seq<Member<R>>, mask: seq<bool>, line': seq<Member<R>>)
    requires |mask| == |line| && KeepsLine(Pick(line, mask), line')
    ensures KeepsLine(line, line')
  {
    var inner :| |inner| == |Pick(line, mask)| && Pick(Pick(line, mask), inner) <= line';
    PickTwice(line, mask, inner);
    assert |Compose(mask, inner)| == |line|;
  }

  // Each move ----------------------------------------------------------------------------------------

  lemma LivesFollow<R(!new)>(line: seq<Member<R>>, more: seq<Member<R>>, dead: set<nat>)
    ensures KeepsLine(line, Live(line + more, dead))
  {
    hide Filter, Pick;
    FilterAppend(line, more, Alive(dead));
    LiveSurvive(line, dead);
    assert |AliveAt(line, dead)| == |line| && Pick(line, AliveAt(line, dead)) <= Live(line + more, dead);
  }

  lemma MergeFollows<R(!new)>(p: Policy<R>, q: Queue<R>)
    ensures KeepsLine(q.reorderable, MergeCompatible(p, q).queue.reorderable)
  {
    hide Fold, ScanReorderable, ScanFifo, Absorbs;
    MergeAbsorbs(p, q);
    match MergeCompatible(p, q)
    case Merged(q') =>
      var mask, n :| Absorbs(p, q, q', mask, n);
      AbsorbsLeaves(p, q, q', mask, n);
      PickFollows(q.reorderable, Flip(mask));
    case _ =>
      Stays(q.reorderable, []);
      assert q.reorderable + [] == q.reorderable;
  }

  lemma AbsorbsLeaves<R(!new)>(p: Policy<R>, q: Queue<R>, q': Queue<R>, mask: seq<bool>, n: nat)
    requires Absorbs(p, q, q', mask, n)
    ensures |mask| == |q.reorderable| && q'.reorderable == Pick(q.reorderable, Flip(mask))
  {
  }

  lemma RefreshFollows<R(!new)>(p: Policy<R>, q: Queue<R>, dead: set<nat>)
    ensures KeepsLine(q.reorderable, RefreshBatch(p, q, dead).queue.reorderable)
  {
    hide MergeCompatible, Live, KeepsLine;
    MergeFollows(p, Prune(q, dead));
    LiveSurvive(q.reorderable, dead);
    PickThenFollows(q.reorderable, AliveAt(q.reorderable, dead), RefreshBatch(p, q, dead).queue.reorderable);
  }

  lemma SeedFollows<R(!new)>(q: Queue<R>, line': seq<Member<R>>)
    requires KeepsLine(Seed(q).reorderable, line')
    ensures KeepsLine(q.reorderable, line')
  {
    hide KeepsLine;
    if q.batch == [] && q.fifo == [] && q.reorderable != [] {
      var line := q.reorderable;
      var mask := [false] + seq(|line| - 1, _ => true);
      PickAll(line[1..]);
      assert mask[1..] == seq(|line[1..]|, _ => true);
      assert Pick(line, mask) == line[1..];
      PickThenFollows(line, mask, line');
    }
  }

  lemma FormFollows<R(!new)>(p: Policy<R>, q: Queue<R>, dead: set<nat>, later: set<nat>)
    ensures KeepsLine(q.reorderable, FormBatch(p, q, dead, later).queue.reorderable)
  {
    hide RefreshBatch, Live, KeepsLine, Seed;
    var line' := FormBatch(p, q, dead, later).queue.reorderable;
    RefreshFollows(p, Seed(Prune(q, dead)), later);
    SeedFollows(Prune(q, dead), line');
    LiveSurvive(q.reorderable, dead);
    PickThenFollows(q.reorderable, AliveAt(q.reorderable, dead), line');
  }

  lemma DropFollows<R(!new)>(
    p: Policy<R>, m: Machine<R>, id: nat, closing: bool, successor: nat, dead: set<nat>, later: set<nat>)
    ensures KeepsLine(m.queue.reorderable, DriverDropped(p, m, id, closing, successor, dead, later).machine.queue.reorderable)
  {
    hide Live, KeepsLine, Gone, Pruned, Strict, Loose;
    var line, loose := m.queue.reorderable, Loose(p, Live(m.queue.batch, dead));
    Stays(line, []);
    assert line + [] == line;
    Stays(line, loose);
    LivesFollow(line, loose, later);
  }

  ghost function LooseLine<R(!new)>(c: Cell<R>): seq<Member<R>>
  {
    match c.machine case None => [] case Some(m) => m.queue.reorderable
  }

  lemma EmptyLine<R(!new)>(line': seq<Member<R>>)
    ensures KeepsLine([], line')
  {
    assert [] + line' == line';
    Stays([], line');
  }

  lemma EventFollows<R(!new)>(p: Policy<R>, c: Cell<R>, closing: bool, next: nat, e: Event<R>)
    requires Enabled(c, closing, e)
    ensures KeepsLine(LooseLine(c), LooseLine(Apply(p, c, closing, next, e)))
  {
    hide KeepsLine, FormBatch, RefreshBatch, DriverDropped, Book, Folded, Killable, FormDiscards, Live, Pruned;
    var line := LooseLine(c);
    Stays(line, []);
    assert line + [] == line;
    if c.machine.None? {
      EmptyLine(LooseLine(Apply(p, c, closing, next, e)));
    } else {
      var m := c.machine.value;
      match e {
        case Submit(request) => Stays(line, [Member(next, request)]);
        case Start(d, dying) => FormFollows(p, m.queue, c.dead, c.dead + dying);
        case CallMerged(d) => RefreshFollows(p, m.queue, c.dead);
        case Finalize(d) => LivesFollow(line, [], c.dead);
        case Drop(d, dying) => DropFollows(p, m, d, closing, next, c.dead, c.dead + dying);
        case _ =>
      }
    }
  }

  /** The member waits in its own line behind everybody there, or is the batch of a key that had none. */
  ghost predicate WaitsLast<R(!new)>(p: Policy<R>, c: Cell<R>, c': Cell<R>, m: Member<R>)
  {
    c'.machine.Some? &&
    var q' := c'.machine.value.queue;
    match c.machine
    case None => q'.batch == [m] && q'.reorderable == [] && q'.fifo == []
    case Some(machine) =>
      var q := machine.queue;
      && q'.batch == q.batch
      && (if p.canReorder(m.request) then q'.reorderable == q.reorderable + [m] && q'.fifo == q.fifo
          else q'.fifo == q.fifo + [m] && q'.reorderable == q.reorderable)
  }

  /** Every submission is on record under its own name and waits; the first one of a key also drives it. */
  lemma SubmissionsWait<R(!new)>(p: Policy<R>, sh: Shards, run: Run<R>, i: nat, key: string, r: R)
    requires ValidRun(p, sh, run) && i < |run.turns| && run.turns[i] == OnKey(key, Submit(r))
    ensures var c, c', m := CellIn(sh, run, i, key), CellIn(sh, run, i + 1, key), Member(run.states[i].next, r);
            && c'.log.submitted == c.log.submitted + {m} && m !in c.log.submitted && WaitsLast(p, c, c', m)
            && (c.machine.None? ==> m.id in c'.tasks && c'.tasks[m.id].kind == Inline && c'.tasks[m.id].own == m.id)
  {
    hide Booked, CellAt;
    assert DedupRuns.Follows(p, sh, run, i);
    CellSteps(p, sh, run, i, key);
    AlwaysNamed(p, sh, run, i, key);
  }

  lemma AlwaysNamed<R(!new)>(p: Policy<R>, sh: Shards, run: Run<R>, i: nat, key: string)
    requires ValidRun(p, sh, run) && i < |run.states|
    ensures forall m :: m in CellIn(sh, run, i, key).log.submitted ==> m.id < run.states[i].next
  {
    AlwaysBooked(p, sh, run, i, key);
  }

  /** Over every turn of every run, nobody in the reorderable line is overtaken. */
  lemma NobodyIsOvertaken<R(!new)>(p: Policy<R>, sh: Shards, run: Run<R>, i: nat, key: string)
    requires ValidRun(p, sh, run) && i < |run.turns|
    ensures KeepsLine(LooseLine(CellIn(sh, run, i, key)), LooseLine(CellIn(sh, run, i + 1, key)))
  {
    hide KeepsLine, Booked, Apply, Enabled;
    CellSteps(p, sh, run, i, key);
    var s, c := run.states[i], CellIn(sh, run, i, key);
    Stays(LooseLine(c), []);
    assert LooseLine(c) + [] == LooseLine(c);
    if e :| EventFor(sh, key, run.turns[i]) == Some(e) {
      if c.panicked {
        SweepSendsNothing(c);
      } else {
        EventFollows(p, c, s.closing, s.next, e);
      }
    }
  }
}
