/** Decoded knowledge of every path, changed in place, and the evidence cells it shares. */
module KnowledgeStores {
  import opened Sequences
  import K = CacheKnowledge

  class KnowledgeStore {
    var entries: map<string, K.Observation>
    var marks: seq<nat>
    ghost var cells: seq<K.Cell>

    ghost predicate Valid()
      reads this
    {
      && |marks| == |cells|
      && (forall c :: 0 <= c < |cells| ==> marks[c] == cells[c].mark)
      && (forall path :: path in entries ==> entries[path].cell < |cells|)
    }

    /** What is known about one path. */
    ghost function View(path: string): K.Known
      reads this
    {
      K.Known(if path in entries then Some(entries[path]) else None, cells)
    }

    constructor ()
      ensures Valid() && entries == map[] && cells == []
    {
      entries, marks, cells := map[], [], [];
    }

    /** The cell ends at the larger of the two marks, and no other cell moves. */
    method Advance(c: nat, mark: nat, ghost proof: nat)
      requires Valid() && c < |marks|
      modifies this
      ensures Valid() && entries == old(entries)
      ensures cells == K.Advance(old(cells), c, mark, proof)
    {
      if marks[c] < mark {
        marks := marks[c := mark];
      }
      cells := K.Advance(cells, c, mark, proof);
    }

    method NewCell(ghost state: K.State, mark: nat, ghost proof: nat) returns (c: nat)
      requires Valid()
      modifies this
      ensures Valid() && entries == old(entries)
      ensures c == |old(cells)| && cells == old(cells) + [K.Cell(state, mark, proof)]
    {
      c := |marks|;
      marks := marks + [mark];
      cells := cells + [K.Cell(state, mark, proof)];
    }

    /** The hit is the entry itself, and only if its own watermark is high enough. */
    method Peek(path: string, requirement: Option<nat>) returns (hit: Option<K.Observation>)
      requires Valid()
      ensures hit == K.Peek(View(path), requirement)
      ensures hit.Some? <==> path in entries && (requirement.None? || requirement.value <= marks[entries[path].cell])
    {
      hit := None;
      if path in entries && K.Satisfied(requirement, marks[entries[path].cell]) {
        hit := Some(entries[path]);
      }
    }

    method PresentSeed(path: string, fallback: Option<K.Observation>) returns (seed: Option<K.Observation>)
      ensures seed == K.PresentSeed(View(path), fallback)
    {
      seed := None;
      if path in entries && entries[path].revision.Some? {
        seed := Some(entries[path]);
      } else if fallback.Some? && fallback.value.revision.Some? {
        seed := fallback;
      }
    }

    /** An entry of that revision stays and gains the evidence; any other entry gives way. */
    method InstallPresent(path: string, o: K.Observation) returns (c: nat)
      requires Valid() && o.cell < |marks|
      modifies this
      ensures Valid()
      ensures View(path) == K.InstallPresent(old(View(path)), o).known && c == K.InstallPresent(old(View(path)), o).cell
      ensures entries - {path} == old(entries) - {path}
    {
      if path in entries && entries[path].revision == o.revision {
        c := entries[path].cell;
        Advance(c, marks[o.cell], cells[o.cell].proof);
      } else {
        c := o.cell;
        entries := entries[path := o];
      }
    }

    method InstallFetched(path: string, token: K.Token, value: K.Value, ghost state: K.State, mark: nat, ghost proof: nat)
      returns (c: nat)
      requires Valid()
      modifies this
      ensures Valid()
      ensures var i := K.InstallFetched(old(View(path)), token, value, K.Cell(state, mark, proof));
              View(path) == i.known && c == i.cell
      ensures entries - {path} == old(entries) - {path}
    {
      var incoming := NewCell(state, mark, proof);
      c := InstallPresent(path, K.Observation(Some(token), Some(value), incoming));
    }

    /** The path becomes known absent; a known absence only gains evidence. */
    method InstallAbsent(path: string, mark: nat, ghost proof: nat) returns (c: nat)
      requires Valid()
      modifies this
      ensures Valid()
      ensures View(path) == K.InstallAbsent(old(View(path)), mark, proof).known
      ensures c == K.InstallAbsent(old(View(path)), mark, proof).cell
      ensures entries - {path} == old(entries) - {path}
    {
      if path in entries && entries[path].revision.None? {
        c := entries[path].cell;
        Advance(c, mark, proof);
      } else {
        c := NewCell(K.Absent, mark, proof);
        entries := entries[path := K.Observation(None, None, c)];
      }
    }

    /** Reuses the body kept for a conditional read that found nothing new. */
    method ConfirmUnchanged(path: string, seed: K.Observation, mark: nat, ghost proof: nat) returns (c: nat)
      requires Valid() && seed.cell < |marks|
      modifies this
      ensures Valid()
      ensures View(path) == K.ConfirmUnchanged(old(View(path)), seed, mark, proof).known
      ensures c == K.ConfirmUnchanged(old(View(path)), seed, mark, proof).cell
      ensures entries - {path} == old(entries) - {path}
    {
      Advance(seed.cell, mark, proof);
      c := InstallPresent(path, seed);
    }

    method CaptureExpected(path: string, revision: Option<K.Token>, observed: Option<nat>) returns (c: Option<nat>)
      ensures c == K.CaptureExpected(View(path), revision, observed)
    {
      c := None;
      if path in entries && entries[path].revision == revision && observed != Some(entries[path].cell) {
        c := Some(entries[path].cell);
      }
    }

    /** Advances every cell a successful mutation proved current: the caller's and the captured one. */
    method AdvanceExpected(observed: Option<nat>, captured: Option<nat>, mark: nat, ghost proof: nat)
      requires Valid() && (observed.Some? ==> observed.value < |marks|) && (captured.Some? ==> captured.value < |marks|)
      modifies this
      ensures Valid() && entries == old(entries)
      ensures cells == K.AdvanceExpected(K.AdvanceExpected(old(cells), observed, mark, proof), captured, mark, proof)
    {
      if observed.Some? {
        Advance(observed.value, mark, proof);
      }
      if captured.Some? {
        Advance(captured.value, mark, proof);
      }
    }

    method InvalidateExpected(path: string, revision: Option<K.Token>)
      requires Valid()
      modifies this`entries
      ensures Valid() && View(path) == K.InvalidateExpected(old(View(path)), revision)
      ensures path in entries <==> path in old(entries) && old(entries)[path].revision != revision
      ensures entries - {path} == old(entries) - {path}
    {
      if path in entries && entries[path].revision == revision {
        entries := entries - {path};
      }
    }

    method Invalidate(path: string)
      requires Valid()
      modifies this`entries
      ensures Valid() && View(path) == K.Known(None, cells)
      ensures entries - {path} == old(entries) - {path}
    {
      entries := entries - {path};
    }
  }
}
