/** Splitting a leaf in two, and the chain of leaves that repeated splits produce. */
module LeafSplit {
  import opened Sequences
  import opened Lexicographic
  import opened OrderedMap
  import opened LeafCodec

  /** The key at which a leaf of two or more entries is halved. */
  function MedianKey(leaf: seq<Entry>): Option<Key>
  {
    if |leaf| < 2 then None else Some(leaf[|leaf| / 2].key)
  }

  /** A cut leaves entries on both sides. */
  predicate DividesAt(leaf: seq<Entry>, k: Key)
  {
    0 < Below(leaf, k) < |leaf|
  }

  lemma {:induction false} BelowAt<V(!new)>(ps: seq<Pair<V>>, i: nat)
    requires Ordered(ps) && i < |ps|
    ensures Below(ps, ps[i].key) == i
  {
    BelowSplits(ps, ps[i].key);
    IrreflexiveLess(ps[i].key);
    var n := Below(ps, ps[i].key);
    assert n <= i;
    assert !Less(ps[n].key, ps[i].key);
  }

  /** The cut leaves entries on both sides exactly when some key is below it and some is not. */
  lemma {:induction false} DividesExactly(leaf: seq<Entry>, k: Key)
    requires Ordered(leaf)
    ensures DividesAt(leaf, k) <==>
              (exists i :: 0 <= i < |leaf| && Less(leaf[i].key, k)) && (exists i :: 0 <= i < |leaf| && !Less(leaf[i].key, k))
  {
    BelowSplits(leaf, k);
    if DividesAt(leaf, k) {
      assert Less(leaf[0].key, k) && !Less(leaf[|leaf| - 1].key, k);
    }
  }

  lemma {:induction false} MedianDivides(leaf: seq<Entry>)
    requires Ordered(leaf) && |leaf| >= 2
    ensures DividesAt(leaf, MedianKey(leaf).value) && Below(leaf, MedianKey(leaf).value) == |leaf| / 2
  {
    BelowAt(leaf, |leaf| / 2);
  }

  class LeafBody {
    var entries: seq<Entry>

    constructor (entries: seq<Entry>)
      ensures this.entries == entries
    {
      this.entries := entries;
    }

    /** Keeps the keys below `k` and hands out the others. */
    method SplitOff(k: Key) returns (upper: LeafBody)
      modifies this
      ensures fresh(upper)
      ensures entries == old(entries)[..Below(old(entries), k)] && upper.entries == old(entries)[Below(old(entries), k)..]
    {
      var n := Below(entries, k);
      upper := new LeafBody(entries[n..]);
      entries := entries[..n];
    }

    /** Both halves keep entries, and the returned key is the first of the upper one. */
    method SplitOffMedian() returns (upper: LeafBody, splitKey: Key)
      requires Ordered(entries) && |entries| >= 2
      modifies this
      ensures fresh(upper) && Some(splitKey) == MedianKey(old(entries))
      ensures entries == old(entries)[..|old(entries)| / 2] && upper.entries == old(entries)[|old(entries)| / 2..]
      ensures entries != [] && upper.entries != [] && upper.entries[0].key == splitKey
    {
      MedianDivides(entries);
      splitKey := entries[|entries| / 2].key;
      upper := SplitOff(splitKey);
    }

    /** Nothing moves unless the key has entries on both of its sides. */
    method SplitOffAt(k: Key) returns (upper: Option<LeafBody>)
      requires Ordered(entries)
      modifies this
      ensures upper.Some? <==> DividesAt(old(entries), k)
      ensures upper.None? ==> entries == old(entries)
      ensures upper.Some? ==>
                && fresh(upper.value) && entries != [] && upper.value.entries != []
                && entries == old(entries)[..Below(old(entries), k)]
                && upper.value.entries == old(entries)[Below(old(entries), k)..]
    {
      if !DividesAt(entries, k) {
        return None;
      }
      var half := SplitOff(k);
      upper := Some(half);
    }
  }

  // Chains ---------------------------------------------------------------------------------------

  /** A leaf and the range it covers: from `low` on, below `high` unless it is the rightmost. */
  datatype Node = Node(low: Key, high: Option<Key>, leaf: seq<Entry>)

  predicate Covers(n: Node, k: Key)
  {
    !Less(k, n.low) && (n.high.None? || Less(k, n.high.value))
  }

  ghost predicate ValidNode(n: Node)
  {
    && Ordered(n.leaf)
    && (forall i :: 0 <= i < |n.leaf| ==> Covers(n, n.leaf[i].key))
    && (n.high.Some? ==> Less(n.low, n.high.value))
  }

  /** Neighbours share their bound; together they cover every key. */
  ghost predicate ValidChain(chain: seq<Node>)
  {
    && chain != []
    && chain[0].low == [] && chain[|chain| - 1].high == None
    && (forall i :: 0 <= i < |chain| ==> ValidNode(chain[i]))
    && (forall i :: 0 <= i < |chain| - 1 ==> chain[i].high == Some(chain[i + 1].low))
  }

  function Entries(chain: seq<Node>): seq<Entry>
  {
    if chain == [] then [] else chain[0].leaf + Entries(chain[1..])
  }

  /** Moving right past high keys: the first node whose range is not exceeded. */
  function Route(chain: seq<Node>, k: Key): (i: nat)
    requires chain != []
    ensures i < |chain|
  {
    if |chain| == 1 || chain[0].high.None? || Less(k, chain[0].high.value) then 0 else 1 + Route(chain[1..], k)
  }

  /** One split: of the node at an index, at its median or at a given key. */
  datatype Split = Split(index: nat, key: Option<Key>)

  function SplitKey(leaf: seq<Entry>, s: Split): Option<Key>
  {
    match s.key
    case None => MedianKey(leaf)
    case Some(k) => if DividesAt(leaf, k) then Some(k) else None
  }

  function Halves(n: Node, k: Key): seq<Node>
  {
    var cut := Below(n.leaf, k);
    [Node(n.low, Some(k), n.leaf[..cut]), Node(k, n.high, n.leaf[cut..])]
  }

  function DoSplit(chain: seq<Node>, s: Split): seq<Node>
  {
    if s.index >= |chain| then chain
    else
      match SplitKey(chain[s.index].leaf, s)
      case None => chain
      case Some(k) => chain[..s.index] + Halves(chain[s.index], k) + chain[s.index + 1..]
  }

  function DoSplits(chain: seq<Node>, splits: seq<Split>): seq<Node>
    decreases |splits|
  {
    if splits == [] then chain else DoSplits(DoSplit(chain, splits[0]), splits[1..])
  }

  lemma HalvesValid(n: Node, k: Key)
    requires ValidNode(n) && DividesAt(n.leaf, k)
    ensures var h := Halves(n, k);
            && ValidNode(h[0]) && ValidNode(h[1])
            && h[0].leaf + h[1].leaf == n.leaf && h[0].leaf != [] && h[1].leaf != []
  {
    hide Less;
    var cut := Below(n.leaf, k);
    BelowSplits(n.leaf, k);
    var first, last := n.leaf[0].key, n.leaf[|n.leaf| - 1].key;
    assert Covers(n, first) && Covers(n, last) && Less(first, k) && !Less(last, k);
    NotBelowThenBelow(n.low, first, k);
    if n.high.Some? {
      NotBelowThenBelow(k, last, n.high.value);
    }
  }

  /** From `a` not above `b` and `b` below `c`, `a` is below `c`. */
  lemma {:induction false} NotBelowThenBelow(a: Key, b: Key, c: Key)
    requires !Less(b, a) && Less(b, c)
    ensures Less(a, c)
  {
    LessTotal(a, b);
    if a != b {
      LessTransitive(a, b, c);
    }
  }

  lemma {:induction false} EntriesAppend(a: seq<Node>, b: seq<Node>)
    ensures Entries(a + b) == Entries(a) + Entries(b)
  {
    if a == [] {
      assert a + b == b;
    } else {
      assert (a + b)[1..] == a[1..] + b;
      EntriesAppend(a[1..], b);
    }
  }

  lemma {:induction false} EntriesOfHalves(a: seq<Node>, n: Node, h: seq<Node>, b: seq<Node>)
    requires |h| == 2 && h[0].leaf + h[1].leaf == n.leaf
    ensures Entries(a + h + b) == Entries(a + [n] + b)
  {
    EntriesAppend(a, h);
    EntriesAppend(a + h, b);
    EntriesAppend(a, [n]);
    EntriesAppend(a + [n], b);
    assert h[1..] == [h[1]] && h[1..][1..] == [] && [n][1..] == [];
    assert Entries(h[1..]) == h[1].leaf + Entries([]);
    assert Entries(h) == h[0].leaf + h[1].leaf && Entries([n]) == n.leaf;
  }

  lemma SplitKeyDivides(n: Node, s: Split)
    requires ValidNode(n) && SplitKey(n.leaf, s).Some?
    ensures DividesAt(n.leaf, SplitKey(n.leaf, s).value)
  {
    if s.key.None? {
      MedianDivides(n.leaf);
    }
  }

  /** Each split keeps the chain whole: its ranges, its entries and its nonempty leaves. */
  lemma {:induction false} SplitKeeps(chain: seq<Node>, s: Split)
    requires ValidChain(chain)
    ensures ValidChain(DoSplit(chain, s)) && Entries(DoSplit(chain, s)) == Entries(chain)
    ensures (forall i :: 0 <= i < |chain| ==> chain[i].leaf != []) ==>
              forall i :: 0 <= i < |DoSplit(chain, s)| ==> DoSplit(chain, s)[i].leaf != []
  {
    hide ValidNode, Entries, Below;
    if s.index < |chain| && SplitKey(chain[s.index].leaf, s).Some? {
      var n, k := chain[s.index], SplitKey(chain[s.index].leaf, s).value;
      SplitKeyDivides(n, s);
      HalvesValid(n, k);
      var a, h, b := chain[..s.index], Halves(n, k), chain[s.index + 1..];
      assert chain == a + [n] + b;
      EntriesOfHalves(a, n, h, b);
      SplicedValid(chain, s.index, h);
    }
  }

  lemma SplicedValid(chain: seq<Node>, i: nat, h: seq<Node>)
    requires ValidChain(chain) && i < |chain| && |h| == 2 && ValidNode(h[0]) && ValidNode(h[1])
    requires h[0].low == chain[i].low && h[0].high == Some(h[1].low) && h[1].high == chain[i].high
    ensures ValidChain(chain[..i] + h + chain[i + 1..])
  {
    hide ValidNode;
    var c := chain[..i] + h + chain[i + 1..];
    forall j | 0 <= j < |c| - 1 ensures c[j].high == Some(c[j + 1].low) {
      if j == i - 1 {
        assert c[j] == chain[j] && c[j + 1] == h[0];
      } else if j > i + 1 {
        assert c[j] == chain[j - 1] && c[j + 1] == chain[j];
      } else if j == i + 1 {
        assert c[j] == h[1] && c[j + 1] == chain[i + 1];
      }
    }
  }

  lemma {:induction false} SplitsKeep(chain: seq<Node>, splits: seq<Split>)
    requires ValidChain(chain)
    ensures ValidChain(DoSplits(chain, splits)) && Entries(DoSplits(chain, splits)) == Entries(chain)
    ensures (forall i :: 0 <= i < |chain| ==> chain[i].leaf != []) ==>
              forall i :: 0 <= i < |DoSplits(chain, splits)| ==> DoSplits(chain, splits)[i].leaf != []
    decreases |splits|
  {
    hide ValidChain, Entries, DoSplit;
    if splits != [] {
      SplitKeeps(chain, splits[0]);
      SplitsKeep(DoSplit(chain, splits[0]), splits[1..]);
    }
  }

  // Routing ------------------------------------------------------------------------------------------

  /** Part of a chain: nodes in order from some lower bound to the rightmost node. */
  ghost predicate RightPart(chain: seq<Node>)
  {
    && chain != [] && chain[|chain| - 1].high == None
    && (forall i :: 0 <= i < |chain| ==> ValidNode(chain[i]))
    && (forall i :: 0 <= i < |chain| - 1 ==> chain[i].high == Some(chain[i + 1].low))
  }

  lemma {:induction false} LaterLows(chain: seq<Node>, i: nat)
    requires RightPart(chain) && 0 < i < |chain|
    ensures chain[0].high.Some? && !Less(chain[i].low, chain[0].high.value)
  {
    assert chain[0].high == Some(chain[1].low);
    var high := chain[0].high.value;
    if i == 1 {
      IrreflexiveLess(high);
    } else {
      LaterLows(chain, i - 1);
      var n := chain[i - 1];
      assert ValidNode(n) && n.high == Some(chain[i].low);
      if Less(chain[i].low, high) {
        LessTransitive(n.low, chain[i].low, high);
      }
    }
  }

  /** Every key is covered by exactly one node: the one it is routed to. */
  lemma {:induction false} RoutedExactly(chain: seq<Node>, k: Key)
    requires RightPart(chain) && !Less(k, chain[0].low)
    ensures Covers(chain[Route(chain, k)], k)
    ensures forall i :: 0 <= i < |chain| && Covers(chain[i], k) ==> i == Route(chain, k)
  {
    hide Less, ValidNode;
    if |chain| == 1 || chain[0].high.None? || Less(k, chain[0].high.value) {
      forall i | 0 <= i < |chain| && Covers(chain[i], k) ensures i == 0 {
        if i > 0 {
          LaterLows(chain, i);
          NotAboveThenBelow(chain[i].low, chain[0].high.value, k);
        }
      }
    } else {
      var rest := chain[1..];
      assert RightPart(rest);
      RoutedExactly(rest, k);
      forall i | 0 <= i < |chain| && Covers(chain[i], k) ensures i == Route(chain, k) {
        if i > 0 {
          assert chain[i] == rest[i - 1];
        }
      }
    }
  }

  /** A key below `b` is below everything that `b` is not above. */
  lemma {:induction false} NotAboveThenBelow(a: Key, b: Key, k: Key)
    requires !Less(a, b) && Less(k, b)
    ensures Less(k, a)
  {
    LessTotal(a, b);
    if a != b {
      LessTransitive(k, b, a);
    }
  }

  lemma {:induction false} EntriesAbove(chain: seq<Node>, bound: Key, k: Key)
    requires forall i :: 0 <= i < |chain| ==> ValidNode(chain[i]) && !Less(chain[i].low, bound)
    requires Less(k, bound)
    ensures Lookup(Entries(chain), k).None?
  {
    if chain != [] {
      var n := chain[0];
      LookupAppend(n.leaf, Entries(chain[1..]), k);
      EntriesAbove(chain[1..], bound, k);
      NotAboveThenBelow(n.low, bound, k);
      LookupMissing(n.leaf, k);
      forall i | 0 <= i < |n.leaf| ensures n.leaf[i].key != k {
        assert Covers(n, n.leaf[i].key);
      }
    }
  }

  /** A lookup in the node a key is routed to finds what the whole chain holds for it. */
  lemma {:induction false} RoutedLookup(chain: seq<Node>, k: Key)
    requires RightPart(chain)
    ensures Lookup(chain[Route(chain, k)].leaf, k) == Lookup(Entries(chain), k)
  {
    hide Less, Lookup;
    var n, rest := chain[0], chain[1..];
    LookupAppend(n.leaf, Entries(rest), k);
    if |chain| == 1 || n.high.None? || Less(k, n.high.value) {
      if |chain| > 1 {
        forall i | 0 <= i < |rest| ensures ValidNode(rest[i]) && !Less(rest[i].low, n.high.value) {
          LaterLows(chain, i + 1);
        }
        EntriesAbove(rest, n.high.value, k);
      } else {
        NothingIn(k);
      }
    } else {
      assert RightPart(rest);
      RoutedLookup(rest, k);
      LookupMissing(n.leaf, k);
      forall i | 0 <= i < |n.leaf| ensures n.leaf[i].key != k {
        assert Covers(n, n.leaf[i].key);
      }
    }
  }

  lemma {:induction false} NothingIn(k: Key)
    ensures Lookup<Slot>([], k).None?
  {
  }

  /**
   After any splits of a leaf, in whatever order and at whatever keys: the chain covers
   every key exactly once, holds exactly the original entries, has no empty leaf (unless the
   original was), and answers every lookup, routed by bounds, as the original did.
   */
  lemma {:induction false} SplitsPartitionTheLeaf(leaf: seq<Entry>, splits: seq<Split>, k: Key)
    requires Ordered(leaf)
    ensures var chain := DoSplits([Node([], None, leaf)], splits);
            && ValidChain(chain)
            && Entries(chain) == leaf
            && (leaf != [] ==> forall i :: 0 <= i < |chain| ==> chain[i].leaf != [])
            && (forall i :: 0 <= i < |chain| ==> (Covers(chain[i], k) <==> i == Route(chain, k)))
            && Lookup(chain[Route(chain, k)].leaf, k) == Lookup(leaf, k)
  {
    hide Lookup, Less, Route, DoSplits;
    var whole := [Node([], None, leaf)];
    WholeLeaf(leaf, k);
    SplitsKeep(whole, splits);
    var chain := DoSplits(whole, splits);
    NothingBelowEmpty(k);
    RoutedExactly(chain, k);
    RoutedLookup(chain, k);
  }

  lemma {:induction false} NothingBelowEmpty(k: Key)
    ensures !Less(k, [])
  {
  }

  lemma WholeLeaf(leaf: seq<Entry>, k: Key)
    requires Ordered(leaf)
    ensures ValidChain([Node([], None, leaf)]) && Entries([Node([], None, leaf)]) == leaf
  {
    assert [Node([], None, leaf)][1..] == [];
  }
}
