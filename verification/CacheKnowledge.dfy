/**
 What the cached object store knows about one path: at most one entry, and the evidence
 cells shared by that entry and by every observation handed out.

 A cell's watermark is the sequence point after which its state is known to have been
 current. `state` and `proof` are the model's own record of why that is true: the exact
 object state the cell stands for, and a place in the backend's history where it was.
 */
module CacheKnowledge {
  import opened Sequences

  type Bytes(==, !new)
  type Token(==, !new)
  type Value(==, !new)

  /** The codec of the path's typed store. */
  datatype World = World(decode: Bytes -> Option<Value>, encode: Value -> Bytes)

  /** What is encoded decodes to itself. */
  ghost predicate ValidWorld(w: World)
  {
    forall v :: w.decode(w.encode(v)) == Some(v)
  }

  /** An object state: contents with the revision token the backend gave them. */
  datatype State = Absent | Present(bytes: Bytes, token: Token)

  /**
   The token fits the states before it: it was never given to other contents. Equal contents
   may get their old token back or a new one.
   */
  predicate TokenFits(hist: seq<State>, state: State)
  {
    forall i :: 0 <= i < |hist| && hist[i].Present? && state.Present? && hist[i].token == state.token ==>
      hist[i].bytes == state.bytes
  }

  function Revision(s: State): Option<Token>
  {
    match s case Absent => None case Present(_, token) => Some(token)
  }

  ghost predicate Distinctive(hist: seq<State>)
  {
    forall i :: 0 <= i < |hist| ==> TokenFits(hist, hist[i])
  }

  datatype Cell = Cell(state: State, mark: nat, proof: nat)

  /** An exact observed state: no revision and no value for an absence. */
  datatype Observation = Observation(revision: Option<Token>, value: Option<Value>, cell: nat)

  datatype Known = Known(entry: Option<Observation>, cells: seq<Cell>)

  /** No requirement is met by whatever is cached; a bound is met by a watermark that reaches it. */
  predicate Satisfied(requirement: Option<nat>, mark: nat)
  {
    requirement.None? || mark >= requirement.value
  }

  function Max(a: nat, b: nat): nat
  {
    if a < b then b else a
  }

  /** Evidence only ever advances. */
  function Advance(cells: seq<Cell>, c: nat, mark: nat, proof: nat): seq<Cell>
    requires c < |cells|
  {
    cells[c := Cell(cells[c].state, Max(cells[c].mark, mark), Max(cells[c].proof, proof))]
  }

  function Peek(k: Known, requirement: Option<nat>): Option<Observation>
    requires k.entry.Some? ==> k.entry.value.cell < |k.cells|
  {
    if k.entry.Some? && Satisfied(requirement, k.cells[k.entry.value.cell].mark) then k.entry else None
  }

  /** The body to keep if a conditional read finds nothing new: the entry's, else the caller's. */
  function PresentSeed(k: Known, fallback: Option<Observation>): Option<Observation>
  {
    if k.entry.Some? && k.entry.value.revision.Some? then k.entry
    else if fallback.Some? && fallback.value.revision.Some? then fallback
    else None
  }

  /** What an installation leaves behind, and the cell that now carries the evidence. */
  datatype Installed = Installed(known: Known, cell: nat)

  /** An entry of the same revision keeps its body and cell and takes over the evidence. */
  function InstallPresent(k: Known, o: Observation): Installed
    requires o.cell < |k.cells|
    requires k.entry.Some? ==> k.entry.value.cell < |k.cells|
  {
    if k.entry.Some? && k.entry.value.revision == o.revision then
      var c := k.entry.value.cell;
      Installed(Known(k.entry, Advance(k.cells, c, k.cells[o.cell].mark, k.cells[o.cell].proof)), c)
    else Installed(Known(Some(o), k.cells), o.cell)
  }

  function InstallFetched(k: Known, token: Token, value: Value, cell: Cell): Installed
    requires k.entry.Some? ==> k.entry.value.cell < |k.cells|
  {
    InstallPresent(Known(k.entry, k.cells + [cell]), Observation(Some(token), Some(value), |k.cells|))
  }

  function InstallAbsent(k: Known, mark: nat, proof: nat): Installed
    requires k.entry.Some? ==> k.entry.value.cell < |k.cells|
  {
    if k.entry.Some? && k.entry.value.revision.None? then
      Installed(Known(k.entry, Advance(k.cells, k.entry.value.cell, mark, proof)), k.entry.value.cell)
    else
      Installed(Known(Some(Observation(None, None, |k.cells|)), k.cells + [Cell(Absent, mark, proof)]), |k.cells|)
  }

  function ConfirmUnchanged(k: Known, seed: Observation, mark: nat, proof: nat): Installed
    requires seed.cell < |k.cells|
    requires k.entry.Some? ==> k.entry.value.cell < |k.cells|
  {
    InstallPresent(Known(k.entry, Advance(k.cells, seed.cell, mark, proof)), seed)
  }

  /** The matching entry's cell, when it is not the expected observation's own. */
  function CaptureExpected(k: Known, revision: Option<Token>, observed: Option<nat>): Option<nat>
  {
    if k.entry.Some? && k.entry.value.revision == revision && observed != Some(k.entry.value.cell)
    then Some(k.entry.value.cell) else None
  }

  function AdvanceExpected(cells: seq<Cell>, c: Option<nat>, mark: nat, proof: nat): seq<Cell>
    requires c.Some? ==> c.value < |cells|
  {
    if c.Some? then Advance(cells, c.value, mark, proof) else cells
  }

  function InvalidateExpected(k: Known, revision: Option<Token>): Known
  {
    if k.entry.Some? && k.entry.value.revision == revision then Known(None, k.cells) else k
  }

  // What every operation keeps --------------------------------------------------------------

  /** The observation shows exactly the state its cell stands for. */
  ghost predicate Faithful(w: World, cells: seq<Cell>, o: Observation)
  {
    && o.cell < |cells|
    && match cells[o.cell].state
       case Absent => o.revision == None && o.value == None
       case Present(b, token) => o.revision == Some(token) && o.value == w.decode(b) && o.value.Some?
  }

  /** Cells keep their state and their watermarks never regress. */
  ghost predicate CellsGrow(cells: seq<Cell>, cells': seq<Cell>)
  {
    && |cells| <= |cells'|
    && forall c :: 0 <= c < |cells| ==>
         && cells'[c].state == cells[c].state
         && cells[c].mark <= cells'[c].mark
         && cells[c].proof <= cells'[c].proof
  }

  /** The state was current at a moment not before the watermark was allocated. */
  ghost predicate Truthful(hist: seq<State>, born: map<nat, nat>, cell: Cell)
  {
    && cell.mark in born
    && born[cell.mark] <= cell.proof < |hist|
    && hist[cell.proof] == cell.state
  }

  ghost predicate AllTruthful(hist: seq<State>, born: map<nat, nat>, cells: seq<Cell>)
  {
    forall c :: 0 <= c < |cells| ==> Truthful(hist, born, cells[c])
  }

  /** A cell whose state has the revision of a state in the history has that very state. */
  lemma RevisionTells(hist: seq<State>, born: map<nat, nat>, cell: Cell, k: nat)
    requires Distinctive(hist) && Truthful(hist, born, cell) && k < |hist|
    requires Revision(cell.state) == Revision(hist[k])
    ensures cell.state == hist[k]
  {
    assert TokenFits(hist, hist[k]);
  }

  /** Observations with one revision stand for one state: tokens are never reused for other contents. */
  lemma SameRevisionSameState(
    w: World, hist: seq<State>, born: map<nat, nat>, cells: seq<Cell>, a: Observation, b: Observation)
    requires Distinctive(hist) && AllTruthful(hist, born, cells) && Faithful(w, cells, a) && Faithful(w, cells, b)
    ensures a.revision == b.revision <==> cells[a.cell].state == cells[b.cell].state
  {
    assert Truthful(hist, born, cells[a.cell]) && Truthful(hist, born, cells[b.cell]);
    assert TokenFits(hist, hist[cells[a.cell].proof]);
  }

  lemma AdvanceGrows(cells: seq<Cell>, c: nat, mark: nat, proof: nat)
    requires c < |cells|
    ensures CellsGrow(cells, Advance(cells, c, mark, proof))
  {
  }

  lemma GrowsTwice(a: seq<Cell>, b: seq<Cell>, c: seq<Cell>)
    requires CellsGrow(a, b) && CellsGrow(b, c)
    ensures CellsGrow(a, c)
  {
  }

  lemma FaithfulGrows(w: World, cells: seq<Cell>, cells': seq<Cell>, o: Observation)
    requires Faithful(w, cells, o) && CellsGrow(cells, cells')
    ensures Faithful(w, cells', o)
  {
  }

  /** Evidence taken from a cell of the same state is as true for the cell that takes it. */
  lemma AdvanceTruthful(hist: seq<State>, born: map<nat, nat>, cells: seq<Cell>, c: nat, mark: nat, proof: nat)
    requires AllTruthful(hist, born, cells) && c < |cells|
    requires Truthful(hist, born, Cell(cells[c].state, mark, proof))
    ensures AllTruthful(hist, born, Advance(cells, c, mark, proof))
  {
  }

  /** Tokens are distinctive, evidence is true, and the entry, if any, shows its cell's state. */
  ghost predicate Sound(w: World, hist: seq<State>, born: map<nat, nat>, k: Known)
  {
    && Distinctive(hist)
    && AllTruthful(hist, born, k.cells)
    && (k.entry.Some? ==> Faithful(w, k.cells, k.entry.value))
  }

  /** An installation leaves a sound entry that shows `state` with evidence from `mark` on. */
  ghost predicate Installs(
    w: World, hist: seq<State>, born: map<nat, nat>, k: Known, i: Installed, o: Observation, mark: nat, proof: nat)
  {
    && Sound(w, hist, born, i.known) && CellsGrow(k.cells, i.known.cells)
    && i.known.entry.Some? && i.known.entry.value.cell == i.cell
    && o.cell == i.cell && Faithful(w, i.known.cells, o)
    && i.known.cells[i.cell].mark >= mark && i.known.cells[i.cell].proof >= proof
  }

  lemma PresentInstalls(w: World, hist: seq<State>, born: map<nat, nat>, k: Known, o: Observation)
    requires Sound(w, hist, born, k) && Faithful(w, k.cells, o) && o.revision.Some?
    ensures var i := InstallPresent(k, o);
            Installs(w, hist, born, k, i, o.(cell := i.cell), k.cells[o.cell].mark, k.cells[o.cell].proof)
  {
    if k.entry.Some? && k.entry.value.revision == o.revision {
      SameRevisionSameState(w, hist, born, k.cells, k.entry.value, o);
      var c := k.entry.value.cell;
      AdvanceGrows(k.cells, c, k.cells[o.cell].mark, k.cells[o.cell].proof);
      AdvanceTruthful(hist, born, k.cells, c, k.cells[o.cell].mark, k.cells[o.cell].proof);
    }
  }

  lemma FetchedInstalls(
    w: World, hist: seq<State>, born: map<nat, nat>, k: Known, b: Bytes, token: Token, mark: nat, proof: nat)
    requires Sound(w, hist, born, k) && w.decode(b).Some?
    requires Truthful(hist, born, Cell(Present(b, token), mark, proof))
    ensures var v := w.decode(b).value;
            var i := InstallFetched(k, token, v, Cell(Present(b, token), mark, proof));
            Installs(w, hist, born, k, i, Observation(Some(token), Some(v), i.cell), mark, proof)
  {
    var v := w.decode(b).value;
    var wider := Known(k.entry, k.cells + [Cell(Present(b, token), mark, proof)]);
    assert CellsGrow(k.cells, wider.cells);
    PresentInstalls(w, hist, born, wider, Observation(Some(token), Some(v), |k.cells|));
    GrowsTwice(k.cells, wider.cells, InstallFetched(k, token, v, Cell(Present(b, token), mark, proof)).known.cells);
  }

  lemma AbsentInstalls(w: World, hist: seq<State>, born: map<nat, nat>, k: Known, mark: nat, proof: nat)
    requires Sound(w, hist, born, k) && Truthful(hist, born, Cell(Absent, mark, proof))
    ensures var i := InstallAbsent(k, mark, proof);
            Installs(w, hist, born, k, i, Observation(None, None, i.cell), mark, proof)
  {
    if k.entry.Some? && k.entry.value.revision.None? {
      AdvanceGrows(k.cells, k.entry.value.cell, mark, proof);
      AdvanceTruthful(hist, born, k.cells, k.entry.value.cell, mark, proof);
    }
  }

  lemma UnchangedInstalls(
    w: World, hist: seq<State>, born: map<nat, nat>, k: Known, seed: Observation, mark: nat, proof: nat)
    requires Sound(w, hist, born, k) && Faithful(w, k.cells, seed) && seed.revision.Some?
    requires Truthful(hist, born, Cell(k.cells[seed.cell].state, mark, proof))
    ensures var i := ConfirmUnchanged(k, seed, mark, proof);
            Installs(w, hist, born, k, i, seed.(cell := i.cell), mark, proof)
  {
    var cells := Advance(k.cells, seed.cell, mark, proof);
    AdvanceGrows(k.cells, seed.cell, mark, proof);
    AdvanceTruthful(hist, born, k.cells, seed.cell, mark, proof);
    if k.entry.Some? {
      FaithfulGrows(w, k.cells, cells, k.entry.value);
    }
    FaithfulGrows(w, k.cells, cells, seed);
    PresentInstalls(w, hist, born, Known(k.entry, cells), seed);
    GrowsTwice(k.cells, cells, ConfirmUnchanged(k, seed, mark, proof).known.cells);
  }
}
