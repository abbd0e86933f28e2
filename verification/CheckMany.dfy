/** Grouping many retained observations by path, and collecting the groups' verdicts again. */
module CheckMany {
  import opened Sequences
  import opened CacheKnowledge

  /** An observation a caller kept, with the path it is of. */
  datatype Retained = Retained(path: string, seen: Observation)

  datatype Verdict = Confirmed | Superseded(now: Observation) | Errored

  /** Ascending indices of observations of one path. */
  ghost predicate OnePath(observations: seq<Retained>, group: seq<nat>)
  {
    && group != []
    && (forall k :: 0 <= k < |group| ==> group[k] < |observations|)
    && (forall k :: 0 <= k < |group| ==> observations[group[k]].path == observations[group[0]].path)
    && (forall k, l :: 0 <= k < l < |group| ==> group[k] < group[l])
  }

  /** Groups have their own paths, come in the order of their first index, and cover every index. */
  ghost predicate Grouping(observations: seq<Retained>, groups: seq<seq<nat>>)
  {
    && (forall g :: 0 <= g < |groups| ==> OnePath(observations, groups[g]))
    && (forall g, h :: 0 <= g < h < |groups| ==>
          && groups[g][0] < groups[h][0]
          && observations[groups[g][0]].path != observations[groups[h][0]].path)
    && (forall i :: 0 <= i < |observations| ==> Grouped(groups, i))
  }

  ghost predicate Grouped(groups: seq<seq<nat>>, i: nat)
  {
    exists g :: 0 <= g < |groups| && i in groups[g]
  }

  /** Every index has exactly one place. */
  lemma IndexOnce(observations: seq<Retained>, groups: seq<seq<nat>>, g: nat, k: nat, h: nat, l: nat)
    requires Grouping(observations, groups) && g < |groups| && k < |groups[g]| && h < |groups| && l < |groups[h]|
    requires groups[g][k] == groups[h][l]
    ensures g == h && k == l
  {
    assert OnePath(observations, groups[g]) && OnePath(observations, groups[h]);
    assert observations[groups[g][k]].path == observations[groups[g][0]].path;
    assert observations[groups[h][l]].path == observations[groups[h][0]].path;
  }

  method GroupByPath(observations: seq<Retained>) returns (groups: seq<seq<nat>>)
    ensures Grouping(observations, groups)
  {
    hide Grouping, Located;
    groups := [];
    NothingGrouped(observations[..0]);
    for i := 0 to |observations|
      invariant Grouping(observations[..i], groups)
    {
      var at := FindGroup(observations[..i], groups, observations[i].path);
      LocatedInRange(observations[..i], groups, observations[i].path, at);
      assert observations[..i + 1][..i] == observations[..i];
      GroupsGrow(observations[..i + 1], groups, at, i);
      groups := Widened(groups, at, i);
    }
    assert observations[..|observations|] == observations;
  }

  lemma NothingGrouped(observations: seq<Retained>)
    requires observations == []
    ensures Grouping(observations, [])
  {
  }

  /** `at` is the group of the path; without one, no group is of that path. */
  ghost predicate Located(observations: seq<Retained>, groups: seq<seq<nat>>, path: string, at: Option<nat>)
  {
    && (at.Some? ==> at.value < |groups|)
    && forall g :: 0 <= g < |groups| ==>
         OnePath(observations, groups[g]) && (at == Some(g) <==> observations[groups[g][0]].path == path)
  }

  lemma LocatedInRange(observations: seq<Retained>, groups: seq<seq<nat>>, path: string, at: Option<nat>)
    requires Located(observations, groups, path, at)
    ensures at.Some? ==> at.value < |groups|
  {
  }

  method FindGroup(observations: seq<Retained>, groups: seq<seq<nat>>, path: string) returns (at: Option<nat>)
    requires Grouping(observations, groups)
    ensures Located(observations, groups, path, at)
  {
    hide Grouped;
    for n := 0 to |groups|
      invariant forall g :: 0 <= g < n ==> observations[groups[g][0]].path != path
    {
      assert OnePath(observations, groups[n]);
      if observations[groups[n][0]].path == path {
        return Some(n);
      }
    }
    at := None;
  }

  function Widened(groups: seq<seq<nat>>, at: Option<nat>, i: nat): seq<seq<nat>>
    requires at.Some? ==> at.value < |groups|
  {
    if at.Some? then groups[at.value := groups[at.value] + [i]] else groups + [[i]]
  }

  lemma GroupsGrow(observations: seq<Retained>, groups: seq<seq<nat>>, at: Option<nat>, i: nat)
    requires |observations| == i + 1 && Grouping(observations[..i], groups)
    requires at.Some? ==> at.value < |groups|
    requires Located(observations[..i], groups, observations[i].path, at)
    ensures Grouping(observations, Widened(groups, at, i))
  {
    hide Grouped, OnePath, Located, Widened;
    var wider := Widened(groups, at, i);
    forall g | 0 <= g < |wider| ensures OnePath(observations, wider[g]) {
      OneGroupGrows(observations, groups, at, i, g);
    }
    forall g, h | 0 <= g < h < |wider|
      ensures OnePath(observations, wider[g]) && OnePath(observations, wider[h])
      ensures wider[g] != [] && wider[h] != [] && wider[g][0] < wider[h][0] < |observations|
      ensures observations[wider[g][0]].path != observations[wider[h][0]].path
    {
      StayApart(observations, groups, at, i, g, h);
    }
    forall j | 0 <= j < |observations| ensures Grouped(wider, j) {
      StaysGrouped(observations, groups, at, i, j);
    }
  }

  lemma OneGroupGrows(observations: seq<Retained>, groups: seq<seq<nat>>, at: Option<nat>, i: nat, g: nat)
    requires |observations| == i + 1 && (at.Some? ==> at.value < |groups|)
    requires Located(observations[..i], groups, observations[i].path, at) && g < |Widened(groups, at, i)|
    ensures OnePath(observations, Widened(groups, at, i)[g])
    ensures Widened(groups, at, i)[g][0] == if g < |groups| then groups[g][0] else i
  {
    if g < |groups| {
      assert OnePath(observations[..i], groups[g]);
    }
  }

  lemma StayApart(observations: seq<Retained>, groups: seq<seq<nat>>, at: Option<nat>, i: nat, g: nat, h: nat)
    requires |observations| == i + 1 && Grouping(observations[..i], groups) && (at.Some? ==> at.value < |groups|)
    requires Located(observations[..i], groups, observations[i].path, at) && g < h < |Widened(groups, at, i)|
    ensures var wider := Widened(groups, at, i);
            && OnePath(observations, wider[g]) && OnePath(observations, wider[h])
            && wider[g] != [] && wider[h] != [] && wider[g][0] < wider[h][0] < |observations|
            && observations[wider[g][0]].path != observations[wider[h][0]].path
  {
    hide Grouped;
    OneGroupGrows(observations, groups, at, i, g);
    OneGroupGrows(observations, groups, at, i, h);
    assert OnePath(observations[..i], groups[g]);
    if h < |groups| {
      assert OnePath(observations[..i], groups[h]);
    }
  }

  lemma StaysGrouped(observations: seq<Retained>, groups: seq<seq<nat>>, at: Option<nat>, i: nat, j: nat)
    requires j <= i < |observations| && (j < i ==> Grouped(groups, j)) && (at.Some? ==> at.value < |groups|)
    ensures Grouped(Widened(groups, at, i), j)
  {
    var wider := Widened(groups, at, i);
    if j < i {
      var g :| 0 <= g < |groups| && j in groups[g];
      assert j in wider[g];
    } else {
      var g := if at.Some? then at.value else |groups|;
      assert i in wider[g];
    }
  }

  /** The verdicts of the groups, one for each of their indices, in order. */
  ghost predicate Complete(groups: seq<seq<nat>>, results: seq<seq<(nat, Verdict)>>)
  {
    && |results| == |groups|
    && (forall g :: 0 <= g < |groups| ==> |results[g]| == |groups[g]|)
    && (forall g, k :: 0 <= g < |groups| && 0 <= k < |groups[g]| ==> results[g][k].0 == groups[g][k])
  }

  /** No slot is left empty, and each holds the verdict of its own observation. */
  method Collect(observations: seq<Retained>, groups: seq<seq<nat>>, results: seq<seq<(nat, Verdict)>>)
    returns (slots: seq<Verdict>)
    requires Grouping(observations, groups) && Complete(groups, results)
    ensures |slots| == |observations|
    ensures forall g, k :: 0 <= g < |groups| && 0 <= k < |groups[g]| ==>
              groups[g][k] < |slots| && slots[groups[g][k]] == results[g][k].1
  {
    hide Grouping;
    var filled: seq<Option<Verdict>> := seq(|observations|, _ => None);
    for g := 0 to |groups|
      invariant |filled| == |observations|
      invariant Filled(groups, results, filled, g, 0)
    {
      filled := FillGroup(observations, groups, results, filled, g);
    }
    AllFilled(observations, groups, results, filled);
    slots := seq(|filled|, i requires 0 <= i < |filled| && filled[i].Some? => filled[i].value);
  }

  /** What precedes place `n` of group `g` is in its slot. */
  ghost predicate Filled(
    groups: seq<seq<nat>>, results: seq<seq<(nat, Verdict)>>, filled: seq<Option<Verdict>>, g: nat, n: nat)
    requires Complete(groups, results)
  {
    forall h, k :: 0 <= h < |groups| && 0 <= k < |groups[h]| && (h < g || (h == g && k < n)) ==>
      groups[h][k] < |filled| && filled[groups[h][k]] == Some(results[h][k].1)
  }

  method FillGroup(
    observations: seq<Retained>, groups: seq<seq<nat>>, results: seq<seq<(nat, Verdict)>>,
    before: seq<Option<Verdict>>, g: nat)
    returns (filled: seq<Option<Verdict>>)
    requires Grouping(observations, groups) && Complete(groups, results) && g < |groups|
    requires |before| == |observations| && Filled(groups, results, before, g, 0)
    ensures |filled| == |observations| && Filled(groups, results, filled, g + 1, 0)
  {
    hide Grouping, Filled;
    filled := before;
    for n := 0 to |groups[g]|
      invariant |filled| == |observations| && Filled(groups, results, filled, g, n)
    {
      var (i, verdict) := results[g][n];
      FillsOne(observations, groups, results, filled, g, n);
      filled := filled[i := Some(verdict)];
    }
    GroupFilled(groups, results, filled, g);
  }

  lemma GroupFilled(
    groups: seq<seq<nat>>, results: seq<seq<(nat, Verdict)>>, filled: seq<Option<Verdict>>, g: nat)
    requires Complete(groups, results) && g < |groups| && Filled(groups, results, filled, g, |groups[g]|)
    ensures Filled(groups, results, filled, g + 1, 0)
  {
  }

  lemma FillsOne(
    observations: seq<Retained>, groups: seq<seq<nat>>, results: seq<seq<(nat, Verdict)>>,
    filled: seq<Option<Verdict>>, g: nat, n: nat)
    requires Grouping(observations, groups) && Complete(groups, results) && g < |groups| && n < |groups[g]|
    requires |filled| == |observations| && Filled(groups, results, filled, g, n)
    ensures groups[g][n] < |filled|
    ensures Filled(groups, results, filled[groups[g][n] := Some(results[g][n].1)], g, n + 1)
  {
    hide Grouped;
    assert OnePath(observations, groups[g]);
    var filled' := filled[groups[g][n] := Some(results[g][n].1)];
    forall h, k | 0 <= h < |groups| && 0 <= k < |groups[h]| && (h < g || (h == g && k < n + 1))
      ensures groups[h][k] < |filled'| && filled'[groups[h][k]] == Some(results[h][k].1)
    {
      if groups[h][k] == groups[g][n] {
        IndexOnce(observations, groups, h, k, g, n);
      } else {
        assert h < g || k < n;
      }
    }
  }

  lemma AllFilled(
    observations: seq<Retained>, groups: seq<seq<nat>>, results: seq<seq<(nat, Verdict)>>, filled: seq<Option<Verdict>>)
    requires Grouping(observations, groups) && Complete(groups, results)
    requires |filled| == |observations| && Filled(groups, results, filled, |groups|, 0)
    ensures forall i :: 0 <= i < |filled| ==> filled[i].Some?
  {
    forall i | 0 <= i < |filled| ensures filled[i].Some? {
      assert Grouped(groups, i);
      var g :| 0 <= g < |groups| && i in groups[g];
      var k :| 0 <= k < |groups[g]| && groups[g][k] == i;
    }
  }
}
