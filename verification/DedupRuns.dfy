/**
 Runs of the whole deduplicator: any interleaving of key events and close calls from the
 empty state. The invariant holds in every state of every run, and the promises made to
 callers and to `close` follow from it.
 */
module DedupRuns {
  import opened Sequences
  import opened DedupQueue
  import opened DedupMachine
  import opened DedupCell
  import opened DedupSystem
  import DC = DedupControl

  // The invariant is kept ------------------------------------------------------------------

  lemma CellInvAt<R(!new)>(p: Policy<R>, sh: Shards, s: System<R>, key: string)
    requires Inv(p, sh, s)
    ensures CellInv(p, CellAt(sh, s, key), s.closing, s.next)
    ensures CellAt(sh, s, key).swept <==> sh.of(key) in s.swept
  {
    if key !in s.cells {
      EmptySound(p, sh.of(key) in s.swept, s.closing, s.next);
    }
  }

  /** Only a sweep marks a cell swept. */
  lemma SweptStays<R(!new)>(p: Policy<R>, c: Cell<R>, closing: bool, next: nat, e: Event<R>)
    requires Enabled(c, closing, e) && !e.Sweep?
    ensures Apply(p, c, closing, next, e).swept == c.swept
  {
  }

  /** A key whose shard was cleared never gets an owner again. */
  lemma SweptNeverSpawns<R(!new)>(p: Policy<R>, c: Cell<R>, closing: bool, next: nat, e: Event<R>)
    requires DC.Control(c, closing, next) && c.swept
    ensures !Spawns(p, c, closing, next, e)
  {
    if c.machine.Some? && e.Drop? {
      DropShape(p, c.machine.value, e.d, closing, next, c.dead, c.dead + e.dying);
    }
  }

  lemma CellsLater<R(!new)>(
    p: Policy<R>, cells: map<string, Cell<R>>, closing: bool, next: nat, closing': bool, next': nat)
    requires CellsInv(p, cells, closing, next) && (closing ==> closing') && next <= next'
    ensures CellsInv(p, cells, closing', next')
  {
    forall k | k in cells ensures CellInv(p, cells[k], closing', next') {
      SoundLater(p, cells[k], closing, next, closing', next');
    }
  }

  lemma CellReplaced<R(!new)>(
    p: Policy<R>, cells: map<string, Cell<R>>, key: string, c: Cell<R>, closing: bool, next: nat)
    requires CellsInv(p, cells, closing, next) && CellInv(p, c, closing, next)
    ensures CellsInv(p, cells[key := c], closing, next)
  {
  }

  lemma KeyCounts<R(!new)>(p: Policy<R>, sh: Shards, s: System<R>, key: string, e: Event<R>)
    requires ValidShards(sh) && s.activeOwners == |Owners(s.cells)| && CloseInv(sh, s)
    requires CanDo(sh, s, OnKey(key, e))
    requires DC.Control(CellAt(sh, s, key), s.closing, s.next) && (CellAt(sh, s, key).swept <==> sh.of(key) in s.swept)
    ensures var s' := DoKey(p, sh, s, key, e);
            s'.activeOwners == |Owners(s'.cells)| && CloseInv(sh, s')
  {
    OwnersCounted(p, sh, s, key, e);
    if s.closed {
      SweptNeverSpawns(p, CellAt(sh, s, key), s.closing, s.next, e);
    }
  }

  lemma KeyBooks<R(!new)>(p: Policy<R>, sh: Shards, s: System<R>, key: string, e: Event<R>)
    requires ValidShards(sh) && Inv(p, sh, s) && CanDo(sh, s, OnKey(key, e))
    ensures var s' := DoKey(p, sh, s, key, e);
            s'.activeOwners == |Owners(s'.cells)| && CloseInv(sh, s')
  {
    CellInvAt(p, sh, s, key);
    KeyCounts(p, sh, s, key, e);
  }

  lemma KeyCells<R(!new)>(p: Policy<R>, sh: Shards, s: System<R>, key: string, e: Event<R>)
    requires Inv(p, sh, s) && CanDo(sh, s, OnKey(key, e))
    ensures CellsInv(p, DoKey(p, sh, s, key, e).cells, s.closing, s.next + 1)
  {
    hide CellInv, Apply;
    CellInvAt(p, sh, s, key);
    var c := CellAt(sh, s, key);
    CellInvKept(p, c, s.closing, s.next, e);
    CellsLater(p, s.cells, s.closing, s.next, s.closing, s.next + 1);
    CellReplaced(p, s.cells, key, Apply(p, c, s.closing, s.next, e), s.closing, s.next + 1);
  }

  lemma KeySwept<R(!new)>(p: Policy<R>, sh: Shards, s: System<R>, key: string, e: Event<R>)
    requires SweptInv(sh, s.cells, s.swept) && CanDo(sh, s, OnKey(key, e))
    ensures SweptInv(sh, DoKey(p, sh, s, key, e).cells, s.swept)
  {
    SweptStays(p, CellAt(sh, s, key), s.closing, s.next, e);
  }

  lemma KeyKeeps<R(!new)>(p: Policy<R>, sh: Shards, s: System<R>, key: string, e: Event<R>)
    requires ValidShards(sh) && Inv(p, sh, s) && CanDo(sh, s, OnKey(key, e))
    ensures Inv(p, sh, DoKey(p, sh, s, key, e))
  {
    hide CellsInv, SweptInv, CloseInv, CanDo, Apply, Owners, Spawns, Releases;
    KeyCells(p, sh, s, key, e);
    KeySwept(p, sh, s, key, e);
    KeyBooks(p, sh, s, key, e);
  }

  lemma SweepKeepsCell<R(!new)>(p: Policy<R>, c: Cell<R>, next: nat)
    requires CellInv(p, c, true, next)
    ensures CellInv(p, DoSweep(c), true, next + 1) && DoSweep(c).swept && DoSweep(c).tasks == c.tasks
  {
    hide Booked, Sound, Book;
    SweepBooked(p, c, next);
    if !c.panicked {
      CellInvKept(p, c, true, next, Sweep);
      assert Apply(p, c, true, next, Sweep) == DoSweep(c);
    }
  }

  lemma SweepKeepsCells<R(!new)>(p: Policy<R>, sh: Shards, cells: map<string, Cell<R>>, shard: nat, next: nat)
    requires CellsInv(p, cells, true, next)
    ensures CellsInv(p, SweptCells(sh, cells, shard), true, next + 1)
  {
    hide CellInv;
    CellsLater(p, cells, true, next, true, next + 1);
    forall k | k in cells
      ensures CellInv(p, SweptCells(sh, cells, shard)[k], true, next + 1)
    {
      SweepKeepsCell(p, cells[k], next);
    }
  }

  lemma SweepMarks<R(!new)>(sh: Shards, cells: map<string, Cell<R>>, shard: nat, swept: set<nat>)
    requires SweptInv(sh, cells, swept)
    ensures SweptInv(sh, SweptCells(sh, cells, shard), swept + {shard})
    ensures Owners(SweptCells(sh, cells, shard)) == Owners(cells)
  {
    forall c: Cell<R> ensures DoSweep(c).swept && DoSweep(c).tasks == c.tasks {
    }
  }

  lemma SweepKeeps<R(!new)>(p: Policy<R>, sh: Shards, s: System<R>, closer: nat, shard: nat)
    requires Inv(p, sh, s) && CanDo(sh, s, SweepShard(closer, shard))
    ensures Inv(p, sh, Do(p, sh, s, SweepShard(closer, shard)))
  {
    hide CellsInv, SweptInv, Owners, SweptCells;
    hide CellInv, DoSweep;
    SweepKeepsCells(p, sh, s.cells, shard, s.next);
    SweepMarks(sh, s.cells, shard, s.swept);
  }

  lemma InvKept<R(!new)>(p: Policy<R>, sh: Shards, s: System<R>, a: Turn<R>)
    requires ValidShards(sh) && Inv(p, sh, s) && CanDo(sh, s, a)
    ensures Inv(p, sh, Do(p, sh, s, a))
  {
    match a
    case OnKey(key, e) => KeyKeeps(p, sh, s, key, e);
    case SweepShard(closer, shard) => SweepKeeps(p, sh, s, closer, shard);
    case BeginClose(closer) =>
      CellsLater(p, s.cells, s.closing, s.next, true, s.next);
    case CloseReturns(closer) =>
  }

  // Runs -----------------------------------------------------------------------------------

  datatype Run<R(==)> = Run(states: seq<System<R>>, turns: seq<Turn<R>>)

  ghost predicate ValidRun<R(!new)>(p: Policy<R>, sh: Shards, run: Run<R>)
  {
    && ValidShards(sh)
    && |run.states| == |run.turns| + 1
    && run.states[0] == Init()
    && forall i :: 0 <= i < |run.turns| ==> Follows(p, sh, run, i)
  }

  ghost predicate Follows<R(!new)>(p: Policy<R>, sh: Shards, run: Run<R>, i: nat)
    requires |run.states| == |run.turns| + 1 && i < |run.turns|
  {
    CanDo(sh, run.states[i], run.turns[i]) && run.states[i + 1] == Do(p, sh, run.states[i], run.turns[i])
  }

  lemma StartsInv<R(!new)>(p: Policy<R>, sh: Shards)
    ensures Inv(p, sh, Init<R>())
  {
    assert Owners(Init<R>().cells) == {};
  }

  lemma StepInv<R(!new)>(p: Policy<R>, sh: Shards, run: Run<R>, i: nat)
    requires ValidRun(p, sh, run) && i < |run.turns| && Inv(p, sh, run.states[i])
    ensures Inv(p, sh, run.states[i + 1])
  {
    assert Follows(p, sh, run, i);
    InvKept(p, sh, run.states[i], run.turns[i]);
  }

  lemma {:induction false} AlwaysInv<R(!new)>(p: Policy<R>, sh: Shards, run: Run<R>, i: nat)
    requires ValidRun(p, sh, run) && i < |run.states|
    ensures Inv(p, sh, run.states[i])
  {
    hide Inv;
    if i > 0 {
      AlwaysInv(p, sh, run, i - 1);
      StepInv(p, sh, run, i - 1);
    } else {
      StartsInv(p, sh);
    }
  }

  lemma AlwaysBooked<R(!new)>(p: Policy<R>, sh: Shards, run: Run<R>, i: nat, key: string)
    requires ValidRun(p, sh, run) && i < |run.states|
    ensures Booked(p, CellAt(sh, run.states[i], key), run.states[i].next)
  {
    AlwaysInv(p, sh, run, i);
    CellInvAt(p, sh, run.states[i], key);
  }

  lemma AlwaysSound<R(!new)>(p: Policy<R>, sh: Shards, run: Run<R>, i: nat, key: string)
    requires ValidRun(p, sh, run) && i < |run.states|
    requires !CellAt(sh, run.states[i], key).panicked
    ensures Sound(p, CellAt(sh, run.states[i], key), run.states[i].closing, run.states[i].next)
  {
    AlwaysInv(p, sh, run, i);
    CellInvAt(p, sh, run.states[i], key);
  }
}
