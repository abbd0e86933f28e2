/** The leaf codec loses nothing, has one form per leaf, and its sizes are exact. */
module LeafRoundTrip {
  import opened Sequences
  import opened Lexicographic
  import opened OrderedMap
  import opened Wire
  import opened LeafCodec

  // Every entry decodes to itself --------------------------------------------------------------

  /** Sizes fit in 64 bits, as sizes of values in memory do. */
  ghost predicate Addressable(leaf: seq<Entry>)
  {
    forall i :: 0 <= i < |leaf| ==> |EncodeEntry(leaf[i])| <= MAX_U64
  }

  lemma {:induction false} FieldWithin(fs: seq<Field>, i: nat)
    requires i < |fs|
    ensures |PutField(fs[i])| <= |PutFields(fs)|
    ensures fs[i].Chunk? ==> |fs[i].bytes| <= |PutFields(fs)|
  {
    hide PutField;
    FieldSized(fs[i]);
    if i > 0 {
      FieldWithin(fs[1..], i - 1);
    }
  }

  /** Fields with small tags whose whole message is addressable are encodable one by one. */
  lemma {:induction false} AllEncodable(fs: seq<Field>)
    requires |PutFields(fs)| <= MAX_U64
    requires forall i :: 0 <= i < |fs| ==> 1 <= fs[i].tag <= 4 && !fs[i].Fixed? && (fs[i].Number? ==> fs[i].value <= 4)
    ensures forall i :: 0 <= i < |fs| ==> Encodable(fs[i])
  {
    forall i | 0 <= i < |fs| ensures Encodable(fs[i]) {
      FieldWithin(fs, i);
    }
  }

  lemma CurrentRoundTrips(c: Current)
    requires !c.Absent? && |c.writer| == ID_BYTES && |PutFields(CurrentFields(c))| <= MAX_U64
    ensures TakeFields(PutFields(CurrentFields(c))) == Some(CurrentFields(c))
    ensures MergeCurrents(RawCurrent([], NoState), CurrentFields(c)).Some?
    ensures CurrentFrom(MergeCurrents(RawCurrent([], NoState), CurrentFields(c))) == Some(c)
  {
    hide TakeFields, PutFields;
    var fs := CurrentFields(c);
    AllEncodable(fs);
    FieldsRoundTrip(fs);
    var written := RawCurrent(c.writer, NoState);
    assert fs[1..] == [fs[1]] && [fs[1]][1..] == [];
    assert MergeCurrents(RawCurrent([], NoState), fs) == MergeCurrents(written, [fs[1]]);
    var done := MergeCurrent(written, fs[1]).value;
    assert MergeCurrents(written, [fs[1]]) == MergeCurrents(done, []);
  }

  lemma {:induction false} MergeAppend(raw: RawEntry, a: seq<Field>, b: seq<Field>)
    ensures MergeEntries(raw, a + b) ==
            match MergeEntries(raw, a) case None => None case Some(r) => MergeEntries(r, b)
    decreases |a|
  {
    if a == [] {
      assert a + b == b;
    } else {
      assert (a + b)[1..] == a[1..] + b;
      match MergeEntry(raw, a[0])
      case None =>
      case Some(r) => MergeAppend(r, a[1..], b);
    }
  }

  lemma {:induction false} MergeHolders(raw: RawEntry, hs: seq<Id>)
    ensures MergeEntries(raw, HolderFields(hs)) == Some(raw.(lockedBy := raw.lockedBy + hs))
    decreases |hs|
  {
    if hs == [] {
      assert raw.lockedBy + hs == raw.lockedBy;
    } else {
      var fs := HolderFields(hs);
      assert fs[1..] == HolderFields(hs[1..]);
      MergeHolders(raw.(lockedBy := raw.lockedBy + [hs[0]]), hs[1..]);
      assert raw.lockedBy + [hs[0]] + hs[1..] == raw.lockedBy + hs;
    }
  }

  lemma {:induction false} MergeOne(raw: RawEntry, f: Field)
    ensures MergeEntries(raw, [f]) == MergeEntry(raw, f)
  {
    assert [f][1..] == [];
  }

  /** Reading an entry's fields back gathers exactly what was written. */
  lemma FieldsGather(e: Entry)
    requires ValidSlot(e.value) && |EncodeEntry(e)| <= MAX_U64
    ensures var l, c := e.value.lock, e.value.current;
            var raw := MergeEntries(RawEntry([], 0, [], None), EntryFields(e));
            && raw.Some? && raw.value.key == e.key
            && raw.value.lockType == LockNumber(l.typ) && raw.value.lockedBy == l.holders
            && CurrentFrom(raw.value.current) == Some(c)
  {
    hide MergeEntries, MergeCurrents, PutFields, CurrentFrom, TakeFields;
    var l, c := e.value.lock, e.value.current;
    var empty := RawEntry([], 0, [], None);
    var first := if e.key == [] then [] else [Chunk(1, e.key)];
    var second := [Number(2, LockNumber(l.typ))];
    var last := if c.Absent? then [] else [Chunk(4, PutFields(CurrentFields(c)))];
    var fs := first + second + HolderFields(l.holders) + last;
    assert fs == EntryFields(e);
    var keyed := RawEntry(e.key, 0, [], None);
    var typed := RawEntry(e.key, LockNumber(l.typ), [], None);
    var held := RawEntry(e.key, LockNumber(l.typ), l.holders, None);
    NothingMerges(empty);
    NothingMerges(held);
    if e.key != [] {
      MergeOne(empty, first[0]);
    }
    MergeOne(keyed, second[0]);
    MergeAppend(empty, first, second);
    MergeHolders(typed, l.holders);
    assert [] + l.holders == l.holders;
    MergeAppend(empty, first + second, HolderFields(l.holders));
    MergeAppend(empty, first + second + HolderFields(l.holders), last);
    if !c.Absent? {
      assert fs[|fs| - 1] == last[0];
      FieldWithin(fs, |fs| - 1);
      CurrentRoundTrips(c);
      MergeOne(held, last[0]);
    } else {
      NoCurrent();
    }
  }

  lemma {:induction false} NothingMerges(raw: RawEntry)
    ensures MergeEntries(raw, []) == Some(raw)
  {
  }

  lemma NoCurrent()
    ensures CurrentFrom(None) == Some(Absent)
  {
  }

  lemma LockRoundTrips(l: Lock)
    requires ValidLock(l)
    ensures LockFrom(LockNumber(l.typ), l.holders) == Some(l)
  {
    hide FromHolders, Less;
    HoldersAreCanonical(l.holders, l.holders);
  }

  lemma EntryFieldsEncodable(e: Entry)
    requires |EncodeEntry(e)| <= MAX_U64
    ensures forall i :: 0 <= i < |EntryFields(e)| ==> Encodable(EntryFields(e)[i])
  {
    hide PutFields;
    AllEncodable(EntryFields(e));
  }

  lemma EntryRoundTrips(e: Entry)
    requires ValidSlot(e.value) && |EncodeEntry(e)| <= MAX_U64
    ensures DecodeEntry(EncodeEntry(e)) == Some(e)
  {
    hide TakeFields, PutFields, MergeEntries, LockFrom, CurrentFrom, EntryFields;
    EntryFieldsEncodable(e);
    FieldsRoundTrip(EntryFields(e));
    FieldsGather(e);
    LockRoundTrips(e.value.lock);
  }

  // Every leaf decodes to itself ----------------------------------------------------------------

  lemma {:induction false} EntriesRoundTrip(leaf: seq<Entry>)
    requires Addressable(leaf) && forall i :: 0 <= i < |leaf| ==> ValidSlot(leaf[i].value)
    ensures DecodeEntries(LeafFields(leaf)) == Some(leaf)
  {
    hide DecodeEntry, EncodeEntry;
    if leaf != [] {
      assert LeafFields(leaf)[1..] == LeafFields(leaf[1..]);
      EntryRoundTrips(leaf[0]);
      EntriesRoundTrip(leaf[1..]);
      assert leaf == [leaf[0]] + leaf[1..];
    }
  }

  lemma {:induction false} PutLast<V(!new)>(ps: seq<Pair<V>>, k: Key, v: V)
    requires forall i :: 0 <= i < |ps| ==> Less(ps[i].key, k)
    ensures Put(ps, k, v) == ps + [Pair(k, v)] && Lookup(ps, k).None?
  {
    if ps != [] {
      LessAsymmetric(ps[0].key, k);
      PutLast(ps[1..], k, v);
      assert ps == [ps[0]] + ps[1..];
    }
  }

  lemma {:induction false} CollectAscending(leaf: seq<Entry>, es: seq<Entry>)
    requires Ordered(leaf + es)
    ensures Collect(leaf, es) == Some(leaf + es)
    decreases |es|
  {
    if es == [] {
      assert leaf + es == leaf;
    } else {
      var all := leaf + es;
      forall i | 0 <= i < |leaf| ensures Less(leaf[i].key, es[0].key) {
        assert all[i] == leaf[i] && all[|leaf|] == es[0];
      }
      PutLast(leaf, es[0].key, es[0].value);
      assert leaf + [es[0]] + es[1..] == all;
      CollectAscending(leaf + [es[0]], es[1..]);
    }
  }

  /** Decoding an encoded leaf gives back that leaf. */
  lemma LeafRoundTrips(leaf: seq<Entry>)
    requires ValidLeaf(leaf) && Addressable(leaf)
    ensures DecodeLeaf(EncodeLeaf(leaf)) == Some(leaf)
  {
    hide EncodeEntry, DecodeEntries, Collect;
    forall i | 0 <= i < |LeafFields(leaf)| ensures Encodable(LeafFields(leaf)[i]) {
    }
    FieldsRoundTrip(LeafFields(leaf));
    EntriesRoundTrip(leaf);
    assert [] + leaf == leaf;
    CollectAscending([], leaf);
  }

  // What decoding accepts --------------------------------------------------------------------------

  lemma LockFromValid(n: nat, lockedBy: seq<seq<Byte>>)
    requires LockFrom(n, lockedBy).Some?
    ensures ValidLock(LockFrom(n, lockedBy).value)
    ensures multiset(LockFrom(n, lockedBy).value.holders) == multiset(lockedBy)
  {
    var hs := FromHolders(lockedBy).value;
    HoldersAreCanonical(lockedBy, hs);
    forall i | 0 <= i < |hs| ensures |hs[i]| == ID_BYTES {
      assert hs[i] in multiset(hs);
      assert hs[i] in lockedBy;
    }
  }

  lemma DecodeEntryValid(b: seq<Byte>)
    requires DecodeEntry(b).Some?
    ensures ValidSlot(DecodeEntry(b).value.value)
  {
    hide LockFrom;
    var raw := MergeEntries(RawEntry([], 0, [], None), TakeFields(b).value).value;
    LockFromValid(raw.lockType, raw.lockedBy);
  }

  lemma {:induction false} DecodeEntriesValid(fs: seq<Field>)
    requires DecodeEntries(fs).Some?
    ensures forall i :: 0 <= i < |DecodeEntries(fs).value| ==> ValidSlot(DecodeEntries(fs).value[i].value)
  {
    hide DecodeEntry, ValidSlot;
    if fs != [] {
      DecodeEntriesValid(fs[1..]);
      if fs[0].tag == 1 {
        DecodeEntryValid(fs[0].bytes);
      }
    }
  }

  lemma {:induction false} CollectKeeps(leaf: seq<Entry>, es: seq<Entry>)
    requires ValidLeaf(leaf) && Collect(leaf, es).Some?
    requires forall i :: 0 <= i < |es| ==> ValidSlot(es[i].value)
    ensures ValidLeaf(Collect(leaf, es).value)
    ensures forall k :: Lookup(Collect(leaf, es).value, k) ==
              if Lookup(leaf, k).Some? then Lookup(leaf, k) else Lookup(es, k)
    decreases |es|
  {
    if es != [] {
      var e := es[0];
      var next := Put(leaf, e.key, e.value);
      PutOrdered(leaf, e.key, e.value);
      PutValid(leaf, e);
      CollectKeeps(next, es[1..]);
      forall k ensures Lookup(Collect(leaf, es).value, k) == if Lookup(leaf, k).Some? then Lookup(leaf, k) else Lookup(es, k) {
        PutLookup(leaf, e.key, e.value, k);
      }
    }
  }

  lemma {:induction false} PutValid(leaf: seq<Entry>, e: Entry)
    requires ValidSlot(e.value) && forall i :: 0 <= i < |leaf| ==> ValidSlot(leaf[i].value)
    ensures forall i :: 0 <= i < |Put(leaf, e.key, e.value)| ==> ValidSlot(Put(leaf, e.key, e.value)[i].value)
  {
    hide ValidSlot;
    if leaf != [] && !Less(e.key, leaf[0].key) && leaf[0].key != e.key {
      PutValid(leaf[1..], e);
    }
  }

  /** Whatever decodes is a valid leaf, with its keys in order and its holder sets canonical. */
  lemma DecodedLeavesAreValid(b: seq<Byte>)
    requires DecodeLeaf(b).Some?
    ensures ValidLeaf(DecodeLeaf(b).value)
  {
    hide DecodeEntries, Collect;
    var fs := TakeFields(b).value;
    DecodeEntriesValid(fs);
    CollectKeeps([], DecodeEntries(fs).value);
  }

  // One form per leaf --------------------------------------------------------------------------------

  /** Entry lists that look up alike are collected into the same leaf, and so the same bytes. */
  lemma {:induction false} SameLookupsSameLeaf(xs: seq<Entry>, ys: seq<Entry>)
    requires Collect([], xs).Some? && Collect([], ys).Some?
    requires forall i :: 0 <= i < |xs| ==> ValidSlot(xs[i].value)
    requires forall i :: 0 <= i < |ys| ==> ValidSlot(ys[i].value)
    requires forall k :: Lookup(xs, k) == Lookup(ys, k)
    ensures Collect([], xs) == Collect([], ys)
    ensures EncodeLeaf(Collect([], xs).value) == EncodeLeaf(Collect([], ys).value)
  {
    hide Collect, EncodeLeaf, ValidSlot;
    CollectKeeps([], xs);
    CollectKeeps([], ys);
    SameMapSameSequence(Collect([], xs).value, Collect([], ys).value);
  }

  ghost predicate DistinctKeys(es: seq<Entry>)
  {
    forall i, j :: 0 <= i < j < |es| ==> es[i].key != es[j].key
  }

  lemma {:induction false} CollectsUnless(leaf: seq<Entry>, es: seq<Entry>)
    requires Ordered(leaf)
    ensures Collect(leaf, es).Some? <==>
              DistinctKeys(es) && forall i :: 0 <= i < |es| ==> Lookup(leaf, es[i].key).None?
    decreases |es|
  {
    hide Lookup, Put;
    if es != [] && Lookup(leaf, es[0].key).None? {
      var e, rest := es[0], es[1..];
      var next := Put(leaf, e.key, e.value);
      PutOrdered(leaf, e.key, e.value);
      CollectsUnless(next, rest);
      forall i | 0 <= i < |rest|
        ensures Lookup(next, rest[i].key).None? <==> Lookup(leaf, rest[i].key).None? && rest[i].key != e.key
      {
        PutLookup(leaf, e.key, e.value, rest[i].key);
      }
      DistinctCons(es);
    }
  }

  lemma DistinctCons(es: seq<Entry>)
    requires es != []
    ensures DistinctKeys(es) <==> DistinctKeys(es[1..]) && forall i :: 0 <= i < |es[1..]| ==> es[1..][i].key != es[0].key
  {
    var rest := es[1..];
    forall i | 0 <= i < |rest| ensures rest[i] == es[i + 1] {
    }
    if DistinctKeys(rest) && forall i :: 0 <= i < |rest| ==> rest[i].key != es[0].key {
      forall i, j | 0 <= i < j < |es| ensures es[i].key != es[j].key {
        assert es[j] == rest[j - 1] && (i > 0 ==> es[i] == rest[i - 1]);
      }
    }
  }

  /** A leaf is collected exactly from entries with distinct keys. */
  lemma {:induction false} CollectsExactly(es: seq<Entry>)
    ensures Collect([], es).Some? <==> DistinctKeys(es)
  {
    CollectsUnless([], es);
  }

  lemma CountedTwice(es: seq<Entry>, i: nat, j: nat)
    requires i < j < |es| && es[i] == es[j]
    ensures multiset(es)[es[i]] >= 2
  {
    assert es == es[..j] + [es[j]] + es[j + 1..];
    assert es[..j][i] == es[i];
    assert es[i] in multiset(es[..j]);
  }

  lemma CountedOnce(es: seq<Entry>, i: nat)
    requires DistinctKeys(es) && i < |es|
    ensures multiset(es)[es[i]] == 1
  {
    assert es == es[..i] + [es[i]] + es[i + 1..];
    assert es[i] !in es[..i] && es[i] !in es[i + 1..];
  }

  lemma FindIn(xs: seq<Entry>, ys: seq<Entry>, j: nat) returns (i: nat)
    requires multiset(xs) == multiset(ys) && j < |ys|
    ensures i < |xs| && xs[i] == ys[j]
  {
    assert ys[j] in multiset(xs);
    assert ys[j] in xs;
    i :| i < |xs| && xs[i] == ys[j];
  }

  lemma StaysDistinct(xs: seq<Entry>, ys: seq<Entry>)
    requires multiset(xs) == multiset(ys) && DistinctKeys(xs)
    ensures DistinctKeys(ys)
  {
    forall i, j | 0 <= i < j < |ys| ensures ys[i].key != ys[j].key {
      var a := FindIn(xs, ys, i);
      var b := FindIn(xs, ys, j);
      if ys[i] == ys[j] {
        CountedTwice(ys, i, j);
        CountedOnce(xs, a);
      } else {
        assert a < b || b < a;
      }
    }
  }

  lemma {:induction false} LooksUpAlike(xs: seq<Entry>, ys: seq<Entry>, k: Key)
    requires multiset(xs) == multiset(ys) && DistinctKeys(xs)
    ensures Lookup(xs, k) == Lookup(ys, k)
  {
    hide Lookup;
    LookupMissing(xs, k);
    LookupMissing(ys, k);
    if Lookup(ys, k).Some? {
      var j :| 0 <= j < |ys| && ys[j] == Pair(k, Lookup(ys, k).value);
      var a := FindIn(xs, ys, j);
      var i :| 0 <= i < |xs| && xs[i] == Pair(k, Lookup(xs, k).value);
      assert i == a;
    } else if Lookup(xs, k).Some? {
      var i :| 0 <= i < |xs| && xs[i] == Pair(k, Lookup(xs, k).value);
      var b := FindIn(ys, xs, i);
    }
  }

  /**
   Two arrangements of the same entries are refused alike, for a repeated key, or give the
   same leaf and the same bytes.
   */
  lemma {:induction false} InsertionOrderDoesNotShow(xs: seq<Entry>, ys: seq<Entry>)
    requires multiset(xs) == multiset(ys) && forall i :: 0 <= i < |xs| ==> ValidSlot(xs[i].value)
    ensures Collect([], xs) == Collect([], ys)
    ensures Collect([], xs).Some? <==> DistinctKeys(xs)
    ensures Collect([], xs).Some? ==> EncodeLeaf(Collect([], xs).value) == EncodeLeaf(Collect([], ys).value)
  {
    hide Collect, EncodeLeaf, ValidSlot, Lookup, DistinctKeys;
    CollectsExactly(xs);
    CollectsExactly(ys);
    if DistinctKeys(xs) {
      StaysDistinct(xs, ys);
      forall j | 0 <= j < |ys| ensures ValidSlot(ys[j].value) {
        var i := FindIn(xs, ys, j);
      }
      forall k ensures Lookup(xs, k) == Lookup(ys, k) {
        LooksUpAlike(xs, ys, k);
      }
      SameLookupsSameLeaf(xs, ys);
    } else if DistinctKeys(ys) {
      StaysDistinct(ys, xs);
    }
  }

  /** Holders listed in any order make the same lock, and so the same bytes. */
  lemma HolderOrderDoesNotShow(n: nat, a: seq<seq<Byte>>, b: seq<seq<Byte>>)
    requires multiset(a) == multiset(b)
    ensures LockFrom(n, a) == LockFrom(n, b)
  {
    if FromHolders(a).Some? {
      HoldersAreCanonical(a, FromHolders(a).value);
      HoldersAreCanonical(b, FromHolders(a).value);
    } else if FromHolders(b).Some? {
      HoldersAreCanonical(b, FromHolders(b).value);
      HoldersAreCanonical(a, FromHolders(b).value);
    }
    SameWidths(a, b);
    SameWidths(b, a);
  }

  lemma SameWidths(a: seq<seq<Byte>>, b: seq<seq<Byte>>)
    requires multiset(a) == multiset(b)
    ensures (exists i :: 0 <= i < |a| && |a[i]| != ID_BYTES) ==> exists i :: 0 <= i < |b| && |b[i]| != ID_BYTES
  {
    if i :| 0 <= i < |a| && |a[i]| != ID_BYTES {
      assert a[i] in multiset(a);
      assert a[i] in b;
      var j :| 0 <= j < |b| && b[j] == a[i];
    }
  }

  // Sizes -------------------------------------------------------------------------------------------

  function HoldersLen(holders: seq<Id>): nat
  {
    if holders == [] then 0 else LengthDelimited(3, |holders[0]|) + HoldersLen(holders[1..])
  }

  function CurrentLen(c: Current): nat
  {
    if c.Absent? then 0
    else
      var state := match c
                   case External(_) => PresentVarint(2, 1)
                   case Inline(_, value) => LengthDelimited(3, |value|)
                   case Tombstone(_) => PresentVarint(4, 1);
      LengthDelimited(4, NonemptyLengthDelimited(1, |c.writer|) + state)
  }

  /** The size of an entry, computed without building the message. */
  function EncodedLen(e: Entry): nat
  {
    NonemptyLengthDelimited(1, |e.key|)
    + NonzeroVarint(2, LockNumber(e.value.lock.typ))
    + HoldersLen(e.value.lock.holders)
    + CurrentLen(e.value.current)
  }

  /** The length budgeted for a key's entry: a single lock id and a value kept outside the leaf. */
  function WorstCase(key: nat): nat
  {
    NonemptyLengthDelimited(1, key)
    + NonzeroVarint(2, LockNumber(Write))
    + LengthDelimited(3, ID_BYTES)
    + LengthDelimited(4, NonemptyLengthDelimited(1, ID_BYTES) + PresentVarint(2, 1))
  }

  lemma {:induction false} HoldersSized(holders: seq<Id>)
    ensures |PutFields(HolderFields(holders))| == HoldersLen(holders)
  {
    hide LengthDelimited;
    if holders != [] {
      assert HolderFields(holders)[1..] == HolderFields(holders[1..]);
      FieldSized(Chunk(3, holders[0]));
      HoldersSized(holders[1..]);
    }
  }

  lemma OptionalSized(key: seq<Byte>)
    ensures |PutFields(if key == [] then [] else [Chunk(1, key)])| == NonemptyLengthDelimited(1, |key|)
  {
    if key != [] {
      PutOne(Chunk(1, key));
      FieldSized(Chunk(1, key));
    }
  }

  lemma CurrentSized(c: Current)
    ensures |PutFields(if c.Absent? then [] else [Chunk(4, PutFields(CurrentFields(c)))])| == CurrentLen(c)
  {
    hide LengthDelimited, PresentVarint, NonemptyLengthDelimited, PutField;
    if c.Absent? {
      assert |PutFields([])| == 0;
    } else {
      var f := match c
               case External(_) => Number(2, 1)
               case Inline(_, value) => Chunk(3, value)
               case Tombstone(_) => Number(4, 1);
      var writer := if c.writer == [] then [] else [Chunk(1, c.writer)];
      assert CurrentFields(c) == writer + [f];
      PutFieldsAppend(writer, [f]);
      OptionalSized(c.writer);
      PutOne(f);
      FieldSized(f);
      var whole := Chunk(4, PutFields(CurrentFields(c)));
      PutOne(whole);
      FieldSized(whole);
    }
  }

  /** The computed size is the exact wire length of the entry. */
  lemma EncodedLenIsExact(e: Entry)
    ensures EncodedLen(e) == |EncodeEntry(e)|
  {
    hide PutFields, PutField, HolderFields, HoldersLen, CurrentLen, NonemptyLengthDelimited, CurrentFields;
    var l, c := e.value.lock, e.value.current;
    var first := if e.key == [] then [] else [Chunk(1, e.key)];
    var second := [Number(2, LockNumber(l.typ))];
    var last := if c.Absent? then [] else [Chunk(4, PutFields(CurrentFields(c)))];
    assert EntryFields(e) == first + second + HolderFields(l.holders) + last;
    PutFieldsAppend(first, second);
    PutFieldsAppend(first + second, HolderFields(l.holders));
    PutFieldsAppend(first + second + HolderFields(l.holders), last);
    OptionalSized(e.key);
    PutOne(second[0]);
    FieldSized(second[0]);
    HoldersSized(l.holders);
    CurrentSized(c);
  }

  /** An entry with at most one holder and no inline value fits the worst case for its key. */
  lemma WorstCaseBounds(e: Entry)
    requires ValidSlot(e.value) && |e.value.lock.holders| <= 1 && !e.value.current.Inline?
    ensures |EncodeEntry(e)| <= WorstCase(|e.key|)
  {
    hide VarintLen, NonemptyLengthDelimited;
    EncodedLenIsExact(e);
    forall n: nat | n < 128 ensures VarintLen(n) == 1 {
      SmallVarint(n);
    }
    IdFieldLen();
    OneHolder(e.value.lock.holders);
    assert NonzeroVarint(2, LockNumber(e.value.lock.typ)) == 2 == NonzeroVarint(2, LockNumber(Write));
    assert LengthDelimited(4, 20) == 22;
  }

  /** The bound is met: a write-locked entry whose value is kept elsewhere has exactly that size. */
  lemma WorstCaseIsReached(key: Key, holder: Id, writer: Id)
    requires |holder| == ID_BYTES && |writer| == ID_BYTES
    ensures |EncodeEntry(Pair(key, Slot(Lock(Write, [holder]), External(writer))))| == WorstCase(|key|)
  {
    hide LengthDelimited, NonemptyLengthDelimited, PresentVarint, NonzeroVarint;
    var e := Pair(key, Slot(Lock(Write, [holder]), External(writer)));
    EncodedLenIsExact(e);
    assert [holder][1..] == [];
    assert HoldersLen([holder]) == LengthDelimited(3, ID_BYTES);
  }

  lemma {:induction false} SmallVarint(n: nat)
    requires n < 128
    ensures VarintLen(n) == 1
  {
  }

  lemma IdFieldLen()
    ensures NonemptyLengthDelimited(1, ID_BYTES) == LengthDelimited(3, ID_BYTES) == 18
  {
  }

  lemma {:induction false} OneHolder(holders: seq<Id>)
    requires AllIds(holders) && |holders| <= 1
    ensures HoldersLen(holders) <= LengthDelimited(3, ID_BYTES)
  {
    if holders != [] {
      assert holders[1..] == [];
    }
  }
}
