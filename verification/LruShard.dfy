/** One shard of the byte-weighted LRU cache: exact accounting and oldest-first eviction. */
module LruShards {
  import opened Sequences

  const USIZE_MAX: nat := 0xFFFF_FFFF_FFFF_FFFF

  /** A cached value with the size it reports. */
  datatype Item<+V> = Item(key: string, value: V, size: nat)

  /** The accounted size after one entry's size is replaced, saturated when it overflows. */
  datatype Weight = Weight(size: nat, overflowed: bool)

  function ReplaceWeight(current: nat, removed: nat, added: nat): (w: Weight)
    requires removed <= current
    ensures w.overflowed <==> current - removed + added > USIZE_MAX
    ensures !w.overflowed ==> w.size == current - removed + added
  {
    var total := current - removed + added;
    if total <= USIZE_MAX then Weight(total, false) else Weight(USIZE_MAX, true)
  }

  function Sum<V>(items: seq<Item<V>>): nat
  {
    if items == [] then 0 else items[0].size + Sum(items[1..])
  }

  function Without<V>(items: seq<Item<V>>, key: string): seq<Item<V>>
  {
    if items == [] then []
    else if items[0].key == key then items[1..]
    else [items[0]] + Without(items[1..], key)
  }

  function Find<V>(items: seq<Item<V>>, key: string): Option<Item<V>>
  {
    if items == [] then None else if items[0].key == key then Some(items[0]) else Find(items[1..], key)
  }

  function SizeOf<V>(item: Option<Item<V>>): nat
  {
    if item.Some? then item.value.size else 0
  }

  /** What is left once the oldest items are evicted until the rest fits. */
  function Fit<V>(items: seq<Item<V>>, budget: nat): seq<Item<V>>
    decreases |items|
  {
    if Sum(items) <= budget then items else Fit(items[1..], budget)
  }

  ghost predicate Distinct<V(!new)>(items: seq<Item<V>>)
  {
    forall i, j :: 0 <= i < j < |items| ==> items[i].key != items[j].key
  }

  // Sums --------------------------------------------------------------------------------------

  lemma {:induction false} SumAppend<V(!new)>(a: seq<Item<V>>, b: seq<Item<V>>)
    ensures Sum(a + b) == Sum(a) + Sum(b)
  {
    if a == [] {
      assert a + b == b;
    } else {
      assert (a + b)[1..] == a[1..] + b;
      SumAppend(a[1..], b);
    }
  }

  lemma {:induction false} SumWithout<V(!new)>(items: seq<Item<V>>, key: string)
    ensures Sum(Without(items, key)) == Sum(items) - SizeOf(Find(items, key))
  {
    if items != [] && items[0].key != key {
      SumWithout(items[1..], key);
      assert Without(items, key)[1..] == Without(items[1..], key);
    }
  }

  lemma {:induction false} WithoutFacts<V(!new)>(items: seq<Item<V>>, key: string)
    requires Distinct(items)
    ensures Distinct(Without(items, key))
    ensures forall x :: x in Without(items, key) <==> x in items && x.key != key
  {
    if items != [] {
      WithoutFacts(items[1..], key);
      forall x ensures x in items <==> x == items[0] || x in items[1..] {
        assert items == [items[0]] + items[1..];
      }
      if items[0].key == key {
        forall x | x in items[1..] ensures x.key != key {
        }
      } else {
        var rest := Without(items[1..], key);
        forall j | 0 <= j < |rest| ensures rest[j].key != items[0].key {
          assert rest[j] in rest;
        }
      }
    }
  }

  /** The items but the one under the key, each in its old place among the others. */
  ghost predicate Rest<V(!new)>(items: seq<Item<V>>, key: string, rest: seq<Item<V>>)
  {
    if i :| 0 <= i < |items| && items[i].key == key then rest == items[..i] + items[i + 1..] else rest == items
  }

  /** What is stored under the key, if anything. */
  ghost predicate Holds<V(!new)>(items: seq<Item<V>>, key: string, was: Option<Item<V>>)
  {
    match was
    case Some(item) => item in items && item.key == key
    case None => forall i :: 0 <= i < |items| ==> items[i].key != key
  }

  lemma {:induction false} WithoutAt<V(!new)>(items: seq<Item<V>>, key: string, i: nat)
    requires Distinct(items) && i < |items| && items[i].key == key
    ensures Without(items, key) == items[..i] + items[i + 1..] && Find(items, key) == Some(items[i])
  {
    if i > 0 {
      assert items[0].key != key;
      WithoutAt(items[1..], key, i - 1);
      assert [items[0]] + items[1..][..i - 1] == items[..i];
      assert items[1..][i..] == items[i + 1..];
    }
  }

  lemma {:induction false} WithoutNone<V(!new)>(items: seq<Item<V>>, key: string)
    requires forall i :: 0 <= i < |items| ==> items[i].key != key
    ensures Without(items, key) == items && Find(items, key).None?
  {
    if items != [] {
      WithoutNone(items[1..], key);
    }
  }

  /** Taking a key out leaves all other items in the order they had. */
  lemma {:induction false} WithoutExactly<V(!new)>(items: seq<Item<V>>, key: string)
    requires Distinct(items)
    ensures forall rest :: Rest(items, key, rest) <==> rest == Without(items, key)
    ensures forall was :: Holds(items, key, was) <==> was == Find(items, key)
  {
    hide Without, Find;
    if i :| 0 <= i < |items| && items[i].key == key {
      WithoutAt(items, key, i);
    } else {
      WithoutNone(items, key);
    }
  }

  /** The survivors are the longest run of the most recently used items that fits. */
  lemma {:induction false} FitIsLongestSuffix<V(!new)>(items: seq<Item<V>>, budget: nat, n: nat)
    requires n <= |items|
    ensures |Fit(items, budget)| <= |items| && Fit(items, budget) == items[|items| - |Fit(items, budget)|..]
    ensures Sum(Fit(items, budget)) <= budget
    ensures Sum(items[n..]) <= budget <==> |items| - n <= |Fit(items, budget)|
    decreases |items|
  {
    assert items[n..] == items[n..|items|];
    if Sum(items) <= budget {
      assert items[0..] == items;
      assert items == items[..n] + items[n..];
      SumAppend(items[..n], items[n..]);
    } else {
      FitIsLongestSuffix(items[1..], budget, if n == 0 then 0 else n - 1);
      var kept := Fit(items, budget);
      assert items[1..][|items| - 1 - |kept|..] == items[|items| - |kept|..];
      if n == 0 {
        assert items[0..] == items;
      } else {
        assert items[1..][n - 1..] == items[n..];
      }
    }
  }

  lemma DistinctSuffix<V(!new)>(items: seq<Item<V>>, n: nat)
    requires Distinct(items) && n <= |items|
    ensures Distinct(items[n..])
  {
  }

  class CacheShard<V(!new)> {
    const maxSize: nat
    var currSize: nat
    var items: seq<Item<V>>      // least recently used first

    /** The stored size is the true sum, and it is within the budget. */
    ghost predicate Valid()
      reads this
    {
      maxSize <= USIZE_MAX && Distinct(items) && currSize == Sum(items) <= maxSize
    }

    constructor (maxSize: nat)
      requires maxSize <= USIZE_MAX
      ensures Valid() && items == [] && this.maxSize == maxSize
    {
      this.maxSize := maxSize;
      currSize := 0;
      items := [];
    }

    /** Looks a key up and makes it the most recently used. */
    method Get(key: string) returns (found: Option<V>)
      requires Valid()
      modifies this`items
      ensures Valid()
      ensures match Find(old(items), key)
              case None => found == None && items == old(items)
              case Some(item) => found == Some(item.value) && items == Without(old(items), key) + [item]
      ensures forall rest, was :: Rest(old(items), key, rest) && Holds(old(items), key, was) ==>
                match was
                case None => found == None && items == old(items)
                case Some(item) => found == Some(item.value) && items == rest + [item]
    {
      WithoutExactly(items, key);
      var item := Find(items, key);
      if item.None? {
        return None;
      }
      SumWithout(items, key);
      WithoutFacts(items, key);
      SumAppend(Without(items, key), [item.value]);
      assert [item.value][1..] == [];
      FoundHere(items, key);
      items := Without(items, key) + [item.value];
      found := Some(item.value.value);
    }

    lemma {:induction false} FoundHere(items: seq<Item<V>>, key: string)
      requires Find(items, key).Some?
      ensures Find(items, key).value.key == key && Find(items, key).value in items
    {
      if items[0].key != key {
        FoundHere(items[1..], key);
      }
    }

    method DeleteEntry(key: string)
      requires Valid()
      modifies this
      ensures Valid() && items == Without(old(items), key) && Rest(old(items), key, items)
    {
      WithoutExactly(items, key);
      SumWithout(items, key);
      WithoutFacts(items, key);
      var entry := Find(items, key);
      if entry.None? {
        NothingRemoved(items, key);
        return;
      }
      currSize := ReplaceWeight(currSize, entry.value.size, 0).size;
      items := Without(items, key);
    }

    lemma {:induction false} NothingRemoved(items: seq<Item<V>>, key: string)
      requires Find(items, key).None?
      ensures Without(items, key) == items
    {
      if items != [] {
        NothingRemoved(items[1..], key);
      }
    }

    /** Adds the sizes up again; gives up at the first overflow. */
    method RecomputeWeight() returns (overflowed: bool)
      modifies this`currSize
      ensures overflowed <==> Sum(items) > USIZE_MAX
      ensures !overflowed ==> currSize == Sum(items)
    {
      var total: nat := 0;
      overflowed := false;
      var i := 0;
      while i < |items| && !overflowed
        invariant 0 <= i <= |items|
        invariant total <= USIZE_MAX
        invariant !overflowed ==> total == Sum(items[..i])
        invariant overflowed ==> Sum(items) > USIZE_MAX
        decreases |items| - i
      {
        assert items == items[..i + 1] + items[i + 1..] && items[..i + 1] == items[..i] + [items[i]];
        SumAppend(items[..i], [items[i]]);
        SumAppend(items[..i + 1], items[i + 1..]);
        assert [items[i]][1..] == [];
        var w := ReplaceWeight(total, 0, items[i].size);
        total, overflowed := w.size, w.overflowed;
        i := i + 1;
      }
      assert items[..|items|] == items;
      currSize := total;
    }

    /** Evicts from the front until the rest fits; an overflowed total is never subtracted from. */
    method RemoveOldest(overflow: bool)
      requires maxSize <= USIZE_MAX && Distinct(items)
      requires overflow <==> Sum(items) > USIZE_MAX
      requires !overflow ==> currSize == Sum(items)
      modifies this
      ensures Valid() && items == Fit(old(items), maxSize)
    {
      var overflowed := overflow;
      while overflowed || currSize > maxSize
        invariant Distinct(items) && Fit(items, maxSize) == Fit(old(items), maxSize)
        invariant overflowed <==> Sum(items) > USIZE_MAX
        invariant !overflowed ==> currSize == Sum(items)
        decreases |items|
      {
        if items == [] {
          return;
        }
        var oldest := items[0];
        DistinctSuffix(items, 1);
        items := items[1..];
        if overflowed {
          overflowed := RecomputeWeight();
        } else {
          var w := ReplaceWeight(currSize, oldest.size, 0);
          currSize, overflowed := w.size, w.overflowed;
        }
      }
    }

    /**
     Replaces the value under a key by what `f` makes of the old one. A value that exceeds
     the budget removes the key; otherwise it becomes the most recently used, and the oldest
     entries make room for it.
     */
    method Update(key: string, f: Option<V> -> Option<V>, weigh: V -> nat)
      requires Valid() && forall v :: weigh(v) <= USIZE_MAX
      modifies this
      ensures Valid()
      ensures var was := Find(old(items), key);
              match f(if was.Some? then Some(was.value.value) else None)
              case None => items == Without(old(items), key)
              case Some(v) =>
                if weigh(v) > maxSize || maxSize == 0 then items == Without(old(items), key)
                else items == Fit(Without(old(items), key) + [Item(key, v, weigh(v))], maxSize)
      ensures forall rest, was :: Rest(old(items), key, rest) && Holds(old(items), key, was) ==>
                match f(if was.Some? then Some(was.value.value) else None)
                case None => items == rest
                case Some(v) =>
                  if weigh(v) > maxSize || maxSize == 0 then items == rest
                  else items == Fit(rest + [Item(key, v, weigh(v))], maxSize)
    {
      WithoutExactly(items, key);
      var was := Find(items, key);
      match f(if was.Some? then Some(was.value.value) else None) {
        case None => DeleteEntry(key);
        case Some(v) =>
          var size := weigh(v);
          if maxSize == 0 || size > maxSize {
            DeleteEntry(key);
            return;
          }
          SumWithout(items, key);
          WithoutFacts(items, key);
          SumAppend(Without(items, key), [Item(key, v, size)]);
          assert [Item(key, v, size)][1..] == [];
          var w := ReplaceWeight(currSize, SizeOf(was), size);
          currSize := w.size;
          items := Without(items, key) + [Item(key, v, size)];
          RemoveOldest(w.overflowed);
      }
    }

    method Delete(key: string)
      requires Valid()
      modifies this
      ensures Valid() && items == Without(old(items), key) && Rest(old(items), key, items)
    {
      DeleteEntry(key);
    }
  }

  /** An inserted entry that fits the budget always survives its own eviction round, as the newest. */
  lemma {:induction false} InsertedSurvives<V(!new)>(items: seq<Item<V>>, item: Item<V>, budget: nat)
    requires item.size <= budget
    ensures Fit(items + [item], budget) != []
    ensures var kept := Fit(items + [item], budget);
            kept[|kept| - 1] == item
  {
    var all := items + [item];
    FitIsLongestSuffix(all, budget, |items|);
    assert all[|items|..] == [item] && [item][1..] == [];
  }
}
