/** A map kept as the sequence of its pairs in ascending key order. */
module OrderedMap {
  import opened Sequences
  import opened Lexicographic

  type Key = seq<Byte>

  datatype Pair<+V> = Pair(key: Key, value: V)

  ghost predicate Ordered<V(!new)>(ps: seq<Pair<V>>)
  {
    forall i, j :: 0 <= i < j < |ps| ==> Less(ps[i].key, ps[j].key)
  }

  function Lookup<V>(ps: seq<Pair<V>>, k: Key): Option<V>
  {
    if ps == [] then None else if ps[0].key == k then Some(ps[0].value) else Lookup(ps[1..], k)
  }

  /** Inserts the pair at its place, or replaces the value the key already has. */
  function Put<V>(ps: seq<Pair<V>>, k: Key, v: V): seq<Pair<V>>
  {
    if ps == [] || Less(k, ps[0].key) then [Pair(k, v)] + ps
    else if ps[0].key == k then [Pair(k, v)] + ps[1..]
    else [ps[0]] + Put(ps[1..], k, v)
  }

  /** The number of pairs whose key is below `k`. */
  function Below<V>(ps: seq<Pair<V>>, k: Key): (n: nat)
    ensures n <= |ps|
  {
    if ps == [] || !Less(ps[0].key, k) then 0 else 1 + Below(ps[1..], k)
  }

  lemma {:induction false} LookupMissing<V(!new)>(ps: seq<Pair<V>>, k: Key)
    ensures Lookup(ps, k).None? <==> forall i :: 0 <= i < |ps| ==> ps[i].key != k
    ensures Lookup(ps, k).Some? ==> exists i :: 0 <= i < |ps| && ps[i] == Pair(k, Lookup(ps, k).value)
  {
    if ps != [] && ps[0].key != k {
      LookupMissing(ps[1..], k);
      if Lookup(ps, k).Some? {
        var i :| 0 <= i < |ps[1..]| && ps[1..][i] == Pair(k, Lookup(ps, k).value);
        assert ps[i + 1] == ps[1..][i];
      } else {
        forall i | 0 <= i < |ps| ensures ps[i].key != k {
          assert i > 0 ==> ps[i] == ps[1..][i - 1];
        }
      }
    }
  }

  lemma OrderedTail<V(!new)>(ps: seq<Pair<V>>)
    requires Ordered(ps) && ps != []
    ensures Ordered(ps[1..])
  {
  }

  /** A key below the first one is nowhere in the map. */
  lemma {:induction false} LookupBelow<V(!new)>(ps: seq<Pair<V>>, k: Key)
    requires Ordered(ps) && (ps == [] || Less(k, ps[0].key))
    ensures Lookup(ps, k).None?
  {
    LookupMissing(ps, k);
    forall i | 0 <= i < |ps| ensures ps[i].key != k {
      IrreflexiveLess(k);
      if i > 0 {
        LessTransitive(k, ps[0].key, ps[i].key);
      }
    }
  }

  lemma {:induction false} PutLookup<V(!new)>(ps: seq<Pair<V>>, k: Key, v: V, x: Key)
    requires Ordered(ps)
    ensures Lookup(Put(ps, k, v), x) == if x == k then Some(v) else Lookup(ps, x)
  {
    if ps == [] || Less(k, ps[0].key) {
      assert ([Pair(k, v)] + ps)[1..] == ps;
    } else if ps[0].key == k {
      assert ([Pair(k, v)] + ps[1..])[1..] == ps[1..];
    } else {
      OrderedTail(ps);
      PutLookup(ps[1..], k, v, x);
      assert Put(ps, k, v)[1..] == Put(ps[1..], k, v);
    }
  }

  lemma ConsOrdered<V(!new)>(p: Pair<V>, ps: seq<Pair<V>>)
    requires Ordered(ps) && (ps != [] ==> Less(p.key, ps[0].key))
    ensures Ordered([p] + ps)
  {
    forall i, j | 0 <= i < j < |[p] + ps| ensures Less(([p] + ps)[i].key, ([p] + ps)[j].key) {
      if i == 0 && j > 1 {
        LessTransitive(p.key, ps[0].key, ps[j - 1].key);
      }
    }
  }

  lemma {:induction false} PutOrdered<V(!new)>(ps: seq<Pair<V>>, k: Key, v: V)
    requires Ordered(ps)
    ensures Ordered(Put(ps, k, v))
    ensures Put(ps, k, v) != [] && (Put(ps, k, v)[0].key == k || (ps != [] && Put(ps, k, v)[0].key == ps[0].key))
  {
    if ps == [] || Less(k, ps[0].key) {
      ConsOrdered(Pair(k, v), ps);
    } else if ps[0].key == k {
      assert Ordered([Pair(k, v)] + ps[1..]);
    } else {
      OrderedTail(ps);
      PutOrdered(ps[1..], k, v);
      LessTotal(k, ps[0].key);
      ConsOrdered(ps[0], Put(ps[1..], k, v));
    }
  }

  /** An ordered sequence is determined by what it maps each key to. */
  lemma {:induction false} SameMapSameSequence<V(!new)>(a: seq<Pair<V>>, b: seq<Pair<V>>)
    requires Ordered(a) && Ordered(b) && forall k :: Lookup(a, k) == Lookup(b, k)
    ensures a == b
  {
    if a == [] || b == [] {
      var k := if a != [] then a[0].key else if b != [] then b[0].key else [];
      assert Lookup(a, k) == Lookup(b, k);
    } else {
      FirstKeysAgree(a, b);
      FirstKeysAgree(b, a);
      LessTotal(a[0].key, b[0].key);
      assert Lookup(a, a[0].key) == Lookup(b, a[0].key);
      forall k ensures Lookup(a[1..], k) == Lookup(b[1..], k) {
        TailLookup(a, k);
        TailLookup(b, k);
      }
      OrderedTail(a);
      OrderedTail(b);
      SameMapSameSequence(a[1..], b[1..]);
      assert a == [a[0]] + a[1..] && b == [b[0]] + b[1..];
    }
  }

  lemma {:induction false} FirstKeysAgree<V(!new)>(a: seq<Pair<V>>, b: seq<Pair<V>>)
    requires Ordered(b) && a != [] && b != [] && Lookup(a, a[0].key) == Lookup(b, a[0].key)
    ensures !Less(a[0].key, b[0].key)
  {
    if Less(a[0].key, b[0].key) {
      LookupBelow(b, a[0].key);
    }
  }

  lemma {:induction false} TailLookup<V(!new)>(ps: seq<Pair<V>>, k: Key)
    requires Ordered(ps) && ps != []
    ensures Lookup(ps[1..], k) == if k == ps[0].key then None else Lookup(ps, k)
  {
    if k == ps[0].key {
      OrderedTail(ps);
      LookupBelow(ps[1..], k);
    }
  }

  // Cutting a map in two ---------------------------------------------------------------------

  lemma {:induction false} BelowSplits<V(!new)>(ps: seq<Pair<V>>, k: Key)
    requires Ordered(ps)
    ensures forall i :: 0 <= i < Below(ps, k) ==> Less(ps[i].key, k)
    ensures forall i :: Below(ps, k) <= i < |ps| ==> !Less(ps[i].key, k)
  {
    if ps != [] {
      if Less(ps[0].key, k) {
        OrderedTail(ps);
        BelowSplits(ps[1..], k);
        forall i | Below(ps, k) <= i < |ps| ensures !Less(ps[i].key, k) {
          assert ps[i] == ps[1..][i - 1];
        }
      } else {
        forall i | 0 <= i < |ps| ensures !Less(ps[i].key, k) {
          if i > 0 && Less(ps[i].key, k) {
            LessTransitive(ps[0].key, ps[i].key, k);
          }
        }
      }
    }
  }

  lemma {:induction false} LookupAppend<V(!new)>(a: seq<Pair<V>>, b: seq<Pair<V>>, k: Key)
    ensures Lookup(a + b, k) == if Lookup(a, k).Some? then Lookup(a, k) else Lookup(b, k)
  {
    if a == [] {
      assert a + b == b;
    } else {
      assert (a + b)[1..] == a[1..] + b;
      LookupAppend(a[1..], b, k);
    }
  }
}
