/**
 Points in time as 64-bit numbers: each is the clock's reading or one more than the last point,
 whichever is larger, until the numbers run out.
 */
module Timeline {
  import opened Sequences

  const MAX_POINT: nat := 0xFFFF_FFFF_FFFF_FFFF

  function SaturatingAdd(a: nat, b: nat): nat
  {
    if a + b <= MAX_POINT then a + b else MAX_POINT
  }

  function NextPoint(last: nat, elapsed: nat): nat
  {
    var bumped := SaturatingAdd(last, 1);
    if elapsed < bumped then bumped else elapsed
  }

  /** The counter after a series of allocations, each with the clock reading it used. */
  function After(last: nat, readings: seq<nat>): nat
    decreases |readings|
  {
    if readings == [] then last else After(NextPoint(last, readings[0]), readings[1..])
  }

  ghost predicate InRange(readings: seq<nat>)
  {
    forall i :: 0 <= i < |readings| ==> readings[i] <= MAX_POINT
  }

  lemma {:induction false} AfterBounds(last: nat, readings: seq<nat>)
    requires last <= MAX_POINT && InRange(readings)
    ensures last <= After(last, readings) <= MAX_POINT
    ensures readings != [] ==> (last < After(last, readings) <==> last < MAX_POINT)
    decreases |readings|
  {
    if readings != [] {
      AfterBounds(NextPoint(last, readings[0]), readings[1..]);
    }
  }

  lemma {:induction false} AfterSplits(last: nat, readings: seq<nat>, i: nat)
    requires i <= |readings|
    ensures After(last, readings) == After(After(last, readings[..i]), readings[i..])
    decreases |readings|
  {
    if i == 0 {
      assert readings[0..] == readings;
    } else {
      AfterSplits(NextPoint(last, readings[0]), readings[1..], i - 1);
      assert readings[..i][1..] == readings[1..][..i - 1];
      assert readings[i..] == readings[1..][i - 1..];
    }
  }

  /** Of two allocations the later point is larger, exactly until the points are exhausted. */
  lemma {:induction false} PointsIncreaseUntilExhausted(last: nat, readings: seq<nat>, i: nat, j: nat)
    requires last <= MAX_POINT && InRange(readings) && 0 < i < j <= |readings|
    ensures After(last, readings[..i]) < After(last, readings[..j]) <==> After(last, readings[..i]) < MAX_POINT
  {
    var early, rest := readings[..i], readings[i..j];
    AfterBounds(last, early);
    AfterSplits(last, readings[..j], i);
    assert readings[..j][..i] == early && readings[..j][i..] == rest;
    AfterBounds(After(last, early), rest);
  }

  /** Short of exhaustion, each point is the clock's reading if that is past the last point, or else the next one. */
  lemma {:induction false} PointsFollowTheClock(last: nat, readings: seq<nat>, i: nat)
    requires last <= MAX_POINT && InRange(readings) && i < |readings|
    ensures var before, point := After(last, readings[..i]), After(last, readings[..i + 1]);
            point >= readings[i] && (before < MAX_POINT ==> point == if before < readings[i] then readings[i] else before + 1)
  {
    AfterBounds(last, readings[..i]);
    AfterSplits(last, readings[..i + 1], i);
    assert readings[..i + 1][..i] == readings[..i] && readings[..i + 1][i..] == [readings[i]];
    assert [readings[i]][1..] == [];
  }

  /** Two allocations in a row get one and the same point, once the last one has been given out. */
  lemma {:induction false} ExhaustedPointsRepeat(last: nat, reading: nat)
    requires last <= MAX_POINT && reading <= MAX_POINT
    ensures After(last, [MAX_POINT]) == MAX_POINT && After(last, [MAX_POINT, reading]) == MAX_POINT
  {
    var first, readings := [MAX_POINT], [MAX_POINT, reading];
    assert first[1..] == [] && NextPoint(last, first[0]) == MAX_POINT;
    assert After(last, first) == After(MAX_POINT, []);
    assert readings[1..] == [reading] && NextPoint(last, readings[0]) == MAX_POINT;
    AfterBounds(MAX_POINT, [reading]);
  }

  /** The reading a timeline's clock starts from: past the last point of its predecessor, if any. */
  function BaseAfter(previous: Option<nat>): nat
  {
    match previous case None => 0 case Some(point) => point + 1
  }

  function LastBefore(base: nat): nat
  {
    if base == 0 then 0 else base - 1
  }

  /** Whatever the clock reads, a reopened timeline allocates only points past all recovered ones. */
  lemma {:induction false} ReopenedPointsFollow(previous: nat, readings: seq<nat>, i: nat)
    requires previous < MAX_POINT && InRange(readings) && 0 < i <= |readings|
    ensures previous < After(LastBefore(BaseAfter(Some(previous))), readings[..i])
  {
    AfterBounds(previous, readings[..i]);
  }

  class SequenceCounter {
    const base: nat
    var last: nat

    /** No point below the base has been or will be allocated. */
    ghost predicate Valid()
      reads this
    {
      base <= MAX_POINT && LastBefore(base) <= last <= MAX_POINT
    }

    /** A used-up timeline cannot be reopened. */
    constructor StartingAfter(previous: Option<nat>)
      requires previous.Some? ==> previous.value < MAX_POINT
      ensures Valid() && base == BaseAfter(previous) && last == LastBefore(base)
    {
      base := BaseAfter(previous);
      last := LastBefore(BaseAfter(previous));
    }

    /**
     One turn of the retry loop per lost exchange, and one that wins. `rivals` are the clock
     readings of the allocations that win the race between this call's load and its exchange.
     */
    method Now(sinceOpen: nat, rivals: seq<nat>) returns (point: nat)
      requires Valid() && InRange(rivals)
      modifies this`last
      ensures Valid() && base <= point
      ensures last == point == After(old(last), rivals + [SaturatingAdd(base, sinceOpen)])
    {
      var elapsed := SaturatingAdd(base, sinceOpen);
      var i := 0;
      var current := last;
      point := NextPoint(current, elapsed);
      while i < |rivals|
        invariant 0 <= i <= |rivals|
        invariant current == last == After(old(last), rivals[..i])
        invariant point == NextPoint(current, elapsed)
      {
        AfterSplits(old(last), rivals[..i + 1], i);
        assert rivals[..i + 1][..i] == rivals[..i] && rivals[..i + 1][i..] == [rivals[i]];
        last := NextPoint(last, rivals[i]);
        current := last;
        point := NextPoint(current, elapsed);
        i := i + 1;
      }
      assert rivals[..i] == rivals;
      AfterSplits(old(last), rivals + [elapsed], |rivals|);
      assert (rivals + [elapsed])[..|rivals|] == rivals && (rivals + [elapsed])[|rivals|..] == [elapsed];
      last := point;
    }
  }
}
