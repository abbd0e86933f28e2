/** Filtering of finite sequences, shared by the queue and listing models. */
module Sequences {

  datatype Option<+T> = None | Some(value: T)

  /** Keeps the elements that satisfy `keep`, in their original order. */
  function Filter<T>(s: seq<T>, keep: T -> bool): (r: seq<T>)
  {
    if s == [] then [] else (if keep(s[0]) then [s[0]] else []) + Filter(s[1..], keep)
  }

  function Negate<T>(keep: T -> bool): T -> bool
  {
    (x: T) => !keep(x)
  }

  function RemoveAt<T>(s: seq<T>, i: nat): seq<T>
    requires i < |s|
  {
    s[..i] + s[i + 1..]
  }

  lemma {:induction false} FilterAppend<T(!new)>(a: seq<T>, b: seq<T>, keep: T -> bool)
    ensures Filter(a + b, keep) == Filter(a, keep) + Filter(b, keep)
  {
    if a == [] {
      assert a + b == b;
    } else {
      assert (a + b)[1..] == a[1..] + b && (a + b)[0] == a[0];
      FilterAppend(a[1..], b, keep);
      var head := if keep(a[0]) then [a[0]] else [];
      assert Filter(a + b, keep) == head + Filter(a[1..] + b, keep);
      assert head + (Filter(a[1..], keep) + Filter(b, keep)) == head + Filter(a[1..], keep) + Filter(b, keep);
    }
  }

  lemma {:induction false} FilterMember<T(!new)>(s: seq<T>, keep: T -> bool, x: T)
    ensures x in Filter(s, keep) <==> x in s && keep(x)
  {
    if s != [] {
      assert s == [s[0]] + s[1..];
      FilterMember(s[1..], keep, x);
    }
  }

  lemma {:induction false} FilterMembers<T(!new)>(s: seq<T>, keep: T -> bool)
    ensures forall x :: x in Filter(s, keep) <==> x in s && keep(x)
  {
    forall x ensures x in Filter(s, keep) <==> x in s && keep(x) {
      FilterMember(s, keep, x);
    }
  }

  lemma {:induction false} FilterAll<T(!new)>(s: seq<T>, keep: T -> bool)
    requires forall x :: x in s ==> keep(x)
    ensures Filter(s, keep) == s
  {
    if s != [] {
      assert s == [s[0]] + s[1..];
      FilterAll(s[1..], keep);
    }
  }

  lemma {:induction false} FilterNone<T(!new)>(s: seq<T>, keep: T -> bool)
    requires forall x :: x in s ==> !keep(x)
    ensures Filter(s, keep) == []
  {
    if s != [] {
      FilterNone(s[1..], keep);
    }
  }

  /** Filtering loses nothing: what is not kept is exactly what the negated filter keeps. */
  lemma {:induction false} FilterConserves<T(!new)>(s: seq<T>, keep: T -> bool)
    ensures multiset(s) == multiset(Filter(s, keep)) + multiset(Filter(s, Negate(keep)))
  {
    if s != [] {
      assert s == [s[0]] + s[1..];
      FilterConserves(s[1..], keep);
    }
  }

  /** Two filters commute. */
  lemma {:induction false} FilterCommutes<T(!new)>(s: seq<T>, f: T -> bool, g: T -> bool)
    ensures Filter(Filter(s, f), g) == Filter(Filter(s, g), f)
  {
    if s != [] {
      FilterCommutes(s[1..], f, g);
      var head := if f(s[0]) then [s[0]] else [];
      FilterAppend(head, Filter(s[1..], f), g);
      var other := if g(s[0]) then [s[0]] else [];
      FilterAppend(other, Filter(s[1..], g), f);
      assert Filter(head, g) == Filter(other, f);
    }
  }

  /** Two filters one after the other are one filter by both. */
  lemma {:induction false} FilterTwice<T(!new)>(s: seq<T>, f: T -> bool, g: T -> bool, both: T -> bool)
    requires forall x :: both(x) <==> f(x) && g(x)
    ensures Filter(Filter(s, f), g) == Filter(s, both)
  {
    if s != [] {
      var head := if f(s[0]) then [s[0]] else [];
      FilterAppend(head, Filter(s[1..], f), g);
      FilterTwice(s[1..], f, g, both);
    }
  }

  // Picking by position ------------------------------------------------------------------------

  /** The elements at the marked positions, in order. */
  function Pick<T>(s: seq<T>, mask: seq<bool>): seq<T>
    requires |mask| == |s|
  {
    if s == [] then [] else (if mask[0] then [s[0]] else []) + Pick(s[1..], mask[1..])
  }

  function Flip(mask: seq<bool>): (f: seq<bool>)
    ensures |f| == |mask| && forall i :: 0 <= i < |mask| ==> f[i] == !mask[i]
  {
    seq(|mask|, i requires 0 <= i < |mask| => !mask[i])
  }

  /** Filtering keeps exactly the positions whose elements satisfy `keep`. */
  lemma {:induction false} FilterPicks<T(!new)>(s: seq<T>, keep: T -> bool, mask: seq<bool>)
    requires |mask| == |s| && forall i :: 0 <= i < |s| ==> (mask[i] <==> keep(s[i]))
    ensures Filter(s, keep) == Pick(s, mask)
  {
    if s != [] {
      FilterPicks(s[1..], keep, mask[1..]);
    }
  }
}
