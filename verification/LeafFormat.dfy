/**
 What the bytes of a leaf entry say, field by field: its numbers and tags are those of the
 stored format, and a body is read by them alone.
 */
module LeafFormat {
  import opened Sequences
  import opened Lexicographic
  import opened OrderedMap
  import opened Wire
  import opened LeafCodec
  import opened LeafRoundTrip

  // Reading fields off a message -----------------------------------------------------------------

  /** The last field with the tag: of a scalar field, the one that counts. */
  function LastOf(fs: seq<Field>, tag: nat): (f: Option<Field>)
    ensures f.Some? ==> f.value.tag == tag && f.value in fs
  {
    if fs == [] then None
    else if LastOf(fs[1..], tag).Some? then LastOf(fs[1..], tag)
    else if fs[0].tag == tag then Some(fs[0]) else None
  }

  /** The records under the tag, in order: the elements of a repeated field. */
  function AllOf(fs: seq<Field>, tag: nat): seq<seq<Byte>>
  {
    if fs == [] then []
    else (if fs[0].tag == tag && fs[0].Chunk? then [fs[0].bytes] else []) + AllOf(fs[1..], tag)
  }

  /** The fields of an embedded message, put together from all its occurrences. */
  function Gathered(fs: seq<Field>, tag: nat): seq<Field>
  {
    if fs == [] then []
    else
      (if fs[0].tag == tag && fs[0].Chunk? && TakeFields(fs[0].bytes).Some? then TakeFields(fs[0].bytes).value else [])
      + Gathered(fs[1..], tag)
  }

  /** Of the fields that exclude one another, tags 2 to 4 of a current value, the last one stands. */
  function LastState(gs: seq<Field>): (f: Option<Field>)
    ensures f.Some? ==> 2 <= f.value.tag <= 4
  {
    if gs == [] then None
    else if LastState(gs[1..]).Some? then LastState(gs[1..])
    else if 2 <= gs[0].tag <= 4 then Some(gs[0]) else None
  }

  function Record(f: Option<Field>): seq<Byte>
  {
    if f.Some? && !f.value.Number? then f.value.bytes else []
  }

  /** Every field known to a current value has the wire type of that field. */
  predicate CurrentTyped(gs: seq<Field>)
  {
    forall i :: 0 <= i < |gs| ==>
      && (gs[i].tag == 1 || gs[i].tag == 3 ==> gs[i].Chunk?)
      && (gs[i].tag == 2 || gs[i].tag == 4 ==> gs[i].Number?)
  }

  predicate FieldTyped(f: Field)
  {
    && (f.tag == 1 || f.tag == 3 || f.tag == 4 ==> f.Chunk?)
    && (f.tag == 2 ==> f.Number?)
    && (f.tag == 4 ==> TakeFields(f.bytes).Some? && CurrentTyped(TakeFields(f.bytes).value))
  }

  predicate EntryTyped(fs: seq<Field>)
  {
    forall i :: 0 <= i < |fs| ==> FieldTyped(fs[i])
  }

  // What merging the fields of a message comes to ---------------------------------------------------

  function StateIn(gs: seq<Field>, otherwise: RawState): RawState
  {
    match LastState(gs)
    case None => otherwise
    case Some(f) => if f.tag == 2 then RawExternal else if f.tag == 3 then RawInline(Record(Some(f))) else RawTombstone
  }

  lemma {:induction false} CurrentsMerge(raw: RawCurrent, gs: seq<Field>)
    ensures MergeCurrents(raw, gs).Some? <==> CurrentTyped(gs)
    ensures CurrentTyped(gs) ==>
              MergeCurrents(raw, gs).value ==
                RawCurrent(if LastOf(gs, 1).Some? then Record(LastOf(gs, 1)) else raw.writer, StateIn(gs, raw.state))
    decreases |gs|
  {
    if gs != [] {
      match MergeCurrent(raw, gs[0]) {
        case None => assert !CurrentTyped(gs);
        case Some(r) =>
          CurrentsMerge(r, gs[1..]);
          CurrentTypedHead(gs);
      }
    }
  }

  lemma CurrentTypedHead(gs: seq<Field>)
    requires gs != []
    ensures CurrentTyped(gs) <==> CurrentTyped([gs[0]]) && CurrentTyped(gs[1..])
  {
    if CurrentTyped([gs[0]]) && CurrentTyped(gs[1..]) {
      forall i | 0 <= i < |gs|
        ensures (gs[i].tag == 1 || gs[i].tag == 3 ==> gs[i].Chunk?) && (gs[i].tag == 2 || gs[i].tag == 4 ==> gs[i].Number?)
      {
        assert i == 0 ==> gs[i] == [gs[0]][0];
        assert i > 0 ==> gs[i] == gs[1..][i - 1];
      }
    }
    if CurrentTyped(gs) {
      forall i | 0 <= i < |gs[1..]| ensures gs[1..][i] == gs[i + 1] {
      }
    }
  }

  lemma {:induction false} CurrentsAppend(raw: RawCurrent, a: seq<Field>, b: seq<Field>)
    ensures MergeCurrents(raw, a + b) ==
            match MergeCurrents(raw, a) case None => None case Some(r) => MergeCurrents(r, b)
    decreases |a|
  {
    if a == [] {
      assert a + b == b;
    } else {
      assert (a + b)[1..] == a[1..] + b;
      match MergeCurrent(raw, a[0])
      case None =>
      case Some(r) => CurrentsAppend(r, a[1..], b);
    }
  }

  /** The current value read so far, with the fields still to come. */
  function CurrentWith(raw: Option<RawCurrent>, fs: seq<Field>): Option<RawCurrent>
  {
    if LastOf(fs, 4).None? then raw
    else MergeCurrents(if raw.Some? then raw.value else RawCurrent([], NoState), Gathered(fs, 4))
  }

  lemma {:induction false} EntriesMerge(raw: RawEntry, fs: seq<Field>)
    ensures MergeEntries(raw, fs).Some? <==> EntryTyped(fs)
    ensures EntryTyped(fs) ==>
              MergeEntries(raw, fs).value ==
                RawEntry(if LastOf(fs, 1).Some? then Record(LastOf(fs, 1)) else raw.key,
                         if LastOf(fs, 2).Some? && LastOf(fs, 2).value.Number? then LastOf(fs, 2).value.value else raw.lockType,
                         raw.lockedBy + AllOf(fs, 3), CurrentWith(raw.current, fs))
    decreases |fs|
  {
    hide TakeFields, MergeCurrents, CurrentTyped;
    if fs == [] {
      assert raw.lockedBy + AllOf(fs, 3) == raw.lockedBy;
    } else {
      HeadMerges(raw, fs[0]);
      EntryTypedHead(fs);
      if FieldTyped(fs[0]) {
        var r := MergeEntry(raw, fs[0]).value;
        EntriesMerge(r, fs[1..]);
        if EntryTyped(fs) {
          CurrentJoins(raw, fs);
          HoldersJoin(raw, fs);
        }
      }
    }
  }

  lemma EntryTypedHead(fs: seq<Field>)
    requires fs != []
    ensures EntryTyped(fs) <==> FieldTyped(fs[0]) && EntryTyped(fs[1..])
  {
    hide FieldTyped;
    if FieldTyped(fs[0]) && EntryTyped(fs[1..]) {
      forall i | 0 <= i < |fs| ensures FieldTyped(fs[i]) {
        assert i > 0 ==> fs[i] == fs[1..][i - 1];
      }
    }
    if EntryTyped(fs) {
      forall i | 0 <= i < |fs[1..]| ensures FieldTyped(fs[1..][i]) {
        assert fs[1..][i] == fs[i + 1];
      }
    }
  }

  lemma HeadMerges(raw: RawEntry, f: Field)
    ensures MergeEntry(raw, f).Some? <==> FieldTyped(f)
  {
    hide TakeFields, MergeCurrents, CurrentTyped;
    if f.tag == 4 && f.Chunk? && TakeFields(f.bytes).Some? {
      CurrentsMerge(if raw.current.Some? then raw.current.value else RawCurrent([], NoState), TakeFields(f.bytes).value);
    }
  }

  lemma {:induction false} HoldersJoin(raw: RawEntry, fs: seq<Field>)
    requires fs != [] && FieldTyped(fs[0])
    ensures MergeEntry(raw, fs[0]).Some?
    ensures MergeEntry(raw, fs[0]).value.lockedBy + AllOf(fs[1..], 3) == raw.lockedBy + AllOf(fs, 3)
  {
    hide TakeFields, MergeCurrents, CurrentTyped, AllOf;
    HeadMerges(raw, fs[0]);
    AllOfHead(fs);
    var f, rest := fs[0], AllOf(fs[1..], 3);
    if f.tag == 3 {
      assert raw.lockedBy + [f.bytes] + rest == raw.lockedBy + ([f.bytes] + rest);
    }
  }

  lemma {:induction false} AllOfHead(fs: seq<Field>)
    requires fs != []
    ensures AllOf(fs, 3) == if fs[0].tag == 3 && fs[0].Chunk? then [fs[0].bytes] + AllOf(fs[1..], 3) else AllOf(fs[1..], 3)
  {
  }

  lemma CurrentJoins(raw: RawEntry, fs: seq<Field>)
    requires fs != [] && EntryTyped(fs)
    ensures MergeEntry(raw, fs[0]).Some?
    ensures CurrentWith(MergeEntry(raw, fs[0]).value.current, fs[1..]) == CurrentWith(raw.current, fs)
  {
    hide TakeFields, MergeCurrents, CurrentTyped;
    EntryTypedHead(fs);
    HeadMerges(raw, fs[0]);
    var empty := RawCurrent([], NoState);
    var start := if raw.current.Some? then raw.current.value else empty;
    if fs[0].tag == 4 {
      var here := TakeFields(fs[0].bytes).value;
      CurrentsAppend(start, here, Gathered(fs[1..], 4));
      if LastOf(fs[1..], 4).None? {
        NothingGathered(fs[1..]);
        assert here + Gathered(fs[1..], 4) == here;
      }
    } else {
      assert [] + Gathered(fs[1..], 4) == Gathered(fs[1..], 4);
    }
  }

  lemma {:induction false} NothingGathered(fs: seq<Field>)
    requires LastOf(fs, 4).None?
    ensures Gathered(fs, 4) == []
  {
    if fs != [] {
      NothingGathered(fs[1..]);
    }
  }

  // What an entry's bytes mean -----------------------------------------------------------------------

  /** The lock type's number, as the 32-bit number it is read as; zero if it is left out. */
  function LockCode(fs: seq<Field>): nat
  {
    (if LastOf(fs, 2).Some? && LastOf(fs, 2).value.Number? then LastOf(fs, 2).value.value else 0) % 0x1_0000_0000
  }

  /** The last key, the numbered lock with the listed holders, and the last state of the current value. */
  ghost predicate Means(fs: seq<Field>, e: Entry)
  {
    var lock, gs := e.value.lock, Gathered(fs, 4);
    && e.key == Record(LastOf(fs, 1))
    && (lock.typ == Read <==> LockCode(fs) == 2)
    && (lock.typ == Write <==> LockCode(fs) == 3)
    && (lock.typ == Create <==> LockCode(fs) == 4)
    && multiset(lock.holders) == multiset(AllOf(fs, 3)) && Increasing(lock.holders)
    && match e.value.current
       case Absent => LastOf(fs, 4).None?
       case External(writer) =>
         writer == Record(LastOf(gs, 1)) && LastState(gs).Some? && LastState(gs).value.tag == 2
       case Inline(writer, value) =>
         && writer == Record(LastOf(gs, 1)) && LastState(gs).Some? && LastState(gs).value.tag == 3
         && value == Record(LastState(gs))
       case Tombstone(writer) =>
         writer == Record(LastOf(gs, 1)) && LastState(gs).Some? && LastState(gs).value.tag == 4
  }

  /** As many holders as the lock needs: none, at least one for read, one for write and create. */
  predicate CountFits(code: nat, holders: nat)
  {
    if code == 2 then holders >= 1 else if code == 3 || code == 4 then holders == 1 else holders == 0
  }

  /** When fields make an entry. */
  ghost predicate Acceptable(fs: seq<Field>)
  {
    var ids, gs := AllOf(fs, 3), Gathered(fs, 4);
    && EntryTyped(fs)
    && (forall i :: 0 <= i < |ids| ==> |ids[i]| == 16)
    && (forall i, j :: 0 <= i < j < |ids| ==> ids[i] != ids[j])
    && CountFits(LockCode(fs), |ids|)
    && (LastOf(fs, 4).Some? ==> |Record(LastOf(gs, 1))| == 16 && LastState(gs).Some?)
  }

  lemma DistinctIncreases(ids: seq<Id>, hs: seq<Id>)
    requires multiset(ids) == multiset(hs)
    ensures Increasing(hs) ==> forall i, j :: 0 <= i < j < |ids| ==> ids[i] != ids[j]
    ensures |ids| == |hs|
  {
    assert |multiset(ids)| == |ids| && |multiset(hs)| == |hs|;
    if Increasing(hs) {
      forall i, j | 0 <= i < j < |ids| ensures ids[i] != ids[j] {
        if ids[i] == ids[j] {
          TwiceIn(ids, i, j);
          OnceIn(hs, ids[i]);
        }
      }
    }
  }

  lemma TwiceIn(ids: seq<Id>, i: nat, j: nat)
    requires i < j < |ids| && ids[i] == ids[j]
    ensures multiset(ids)[ids[i]] >= 2
  {
    assert ids == ids[..j] + [ids[j]] + ids[j + 1..];
    assert ids[..j][i] == ids[i];
    assert ids[i] in multiset(ids[..j]);
  }

  lemma OnceIn(hs: seq<Id>, x: Id)
    requires Increasing(hs)
    ensures multiset(hs)[x] <= 1
  {
    if k :| 0 <= k < |hs| && hs[k] == x {
      assert hs == hs[..k] + [x] + hs[k + 1..];
      forall m | 0 <= m < |hs| && m != k ensures hs[m] != x {
        IrreflexiveLess(x);
      }
      assert x !in hs[..k] && x !in hs[k + 1..];
    }
  }

  lemma OnceAmong(ids: seq<Id>, i: nat)
    requires i < |ids| && forall i, j :: 0 <= i < j < |ids| ==> ids[i] != ids[j]
    ensures multiset(ids)[ids[i]] == 1
  {
    assert ids == ids[..i] + [ids[i]] + ids[i + 1..];
    assert ids[i] !in ids[..i] && ids[i] !in ids[i + 1..];
  }

  lemma DistinctIsAccepted(ids: seq<Id>)
    requires forall i, j :: 0 <= i < j < |ids| ==> ids[i] != ids[j]
    ensures FromHolders(ids).Some?
  {
    hide SortIds, NonDecreasing;
    var sorted := SortIds(ids);
    SortIdsSorts(ids);
    if AdjacentEqual(sorted) {
      var k :| 0 <= k < |sorted| - 1 && sorted[k] == sorted[k + 1];
      TwiceIn(sorted, k, k + 1);
      assert sorted[k] in multiset(ids);
      assert sorted[k] in ids;
      var i :| 0 <= i < |ids| && ids[i] == sorted[k];
      OnceAmong(ids, i);
    }
  }

  /** Locks are read by the format's numbers and need the right number of distinct holders. */
  lemma LocksMean(n: nat, ids: seq<Id>)
    ensures var code := n % 0x1_0000_0000;
            && (LockFrom(n, ids).Some? <==>
                  && (forall i :: 0 <= i < |ids| ==> |ids[i]| == 16)
                  && (forall i, j :: 0 <= i < j < |ids| ==> ids[i] != ids[j]) && CountFits(code, |ids|))
            && (LockFrom(n, ids).Some? ==>
                  var lock := LockFrom(n, ids).value;
                  && (lock.typ == Read <==> code == 2) && (lock.typ == Write <==> code == 3)
                  && (lock.typ == Create <==> code == 4)
                  && multiset(lock.holders) == multiset(ids) && Increasing(lock.holders))
  {
    hide FromHolders, Increasing;
    if FromHolders(ids).Some? {
      var hs := FromHolders(ids).value;
      HoldersAreCanonical(ids, hs);
      DistinctIncreases(ids, hs);
    } else if forall i, j :: 0 <= i < j < |ids| ==> ids[i] != ids[j] {
      DistinctIsAccepted(ids);
    }
  }

  /**
   An entry's bytes are accepted exactly if their fields make an entry, and then mean exactly
   what the stored format says: lock types by number, current values by tag.
   */
  lemma {:induction false} DecodesByTheFormat(b: seq<Byte>)
    ensures DecodeEntry(b).Some? <==> TakeFields(b).Some? && Acceptable(TakeFields(b).value)
    ensures DecodeEntry(b).Some? ==> Means(TakeFields(b).value, DecodeEntry(b).value)
  {
    hide TakeFields, LockFrom, MergeEntries, MergeCurrents, Increasing, LastOf, LastState, AllOf, Gathered, CountFits;
    if TakeFields(b).Some? {
      var fs := TakeFields(b).value;
      EntriesMerge(RawEntry([], 0, [], None), fs);
      if EntryTyped(fs) {
        var raw := MergeEntries(RawEntry([], 0, [], None), fs).value;
        assert raw.lockedBy == AllOf(fs, 3);
        LocksMean(raw.lockType, raw.lockedBy);
        GatheredTyped(fs);
        CurrentsMerge(RawCurrent([], NoState), Gathered(fs, 4));
      }
    }
  }

  lemma {:induction false} GatheredTyped(fs: seq<Field>)
    requires EntryTyped(fs)
    ensures CurrentTyped(Gathered(fs, 4))
  {
    hide TakeFields;
    if fs != [] {
      EntryTypedHead(fs);
      GatheredTyped(fs[1..]);
    }
  }

  // What is written ------------------------------------------------------------------------------------

  /** The number a lock type is written as. */
  function NumberOf(typ: LockType): nat
  {
    match typ case Unlocked => 1 case Read => 2 case Write => 3 case Create => 4
  }

  /** The field that says where a current value is: tag 2 elsewhere, 3 here, 4 nowhere. */
  function StateField(c: Current): Field
    requires !c.Absent?
  {
    match c case External(_) => Number(2, 1) case Inline(_, value) => Chunk(3, value) case Tombstone(_) => Number(4, 1)
  }

  /** The fields of an entry's bytes: key, lock type, holders, current value, each as the format has it. */
  lemma EncodesByTheFormat(e: Entry)
    requires ValidSlot(e.value) && |EncodeEntry(e)| <= MAX_U64
    ensures TakeFields(EncodeEntry(e)).Some?
    ensures var fs, lock := TakeFields(EncodeEntry(e)).value, e.value.lock;
            && Means(fs, e) && LastOf(fs, 2).Some?
            && forall i :: 0 <= i < |fs| ==>
                 match fs[i].tag
                 case 1 => fs[i] == Chunk(1, e.key) && e.key != []
                 case 2 => fs[i] == Number(2, NumberOf(lock.typ))
                 case 3 => fs[i].Chunk? && fs[i].bytes in lock.holders
                 case 4 =>
                   && !e.value.current.Absent? && fs[i].Chunk?
                   && TakeFields(fs[i].bytes) == Some([Chunk(1, e.value.current.writer), StateField(e.value.current)])
                 case _ => false
  {
    hide TakeFields, PutFields, Means, MergeEntries, LockFrom, LastOf, Increasing, EntryFields;
    var fs := EntryFields(e);
    EntryFieldsEncodable(e);
    FieldsRoundTrip(fs);
    EntryRoundTrips(e);
    DecodesByTheFormat(EncodeEntry(e));
    LockFieldThere(e);
    FieldsByTag(e);
    var c := e.value.current;
    if !c.Absent? {
      FieldWithin(fs, |fs| - 1);
      CurrentRoundTrips(c);
      assert CurrentFields(c) == [Chunk(1, c.writer), StateField(c)];
    }
  }

  lemma FieldsByTag(e: Entry)
    ensures var fs, c := EntryFields(e), e.value.current;
            && (!c.Absent? ==> fs[|fs| - 1] == Chunk(4, PutFields(CurrentFields(c))))
            && forall i :: 0 <= i < |fs| ==>
                 match fs[i].tag
                 case 1 => fs[i] == Chunk(1, e.key) && e.key != []
                 case 2 => fs[i] == Number(2, NumberOf(e.value.lock.typ))
                 case 3 => fs[i].Chunk? && fs[i].bytes in e.value.lock.holders
                 case 4 => !c.Absent? && fs[i] == Chunk(4, PutFields(CurrentFields(c)))
                 case _ => false
  {
    hide PutFields, CurrentFields;
  }

  lemma LockFieldThere(e: Entry)
    ensures LastOf(EntryFields(e), 2).Some?
  {
    hide PutFields, CurrentFields;
    var fs := EntryFields(e);
    var k := if e.key == [] then 0 else 1;
    assert fs[k].tag == 2;
    FoundLast(fs, 2, k);
  }

  lemma {:induction false} FoundLast(fs: seq<Field>, tag: nat, i: nat)
    requires i < |fs| && fs[i].tag == tag
    ensures LastOf(fs, tag).Some?
  {
    if i > 0 {
      FoundLast(fs[1..], tag, i - 1);
    }
  }

  // Leaves ----------------------------------------------------------------------------------------------

  predicate EntryField(f: Field)
  {
    f.tag == 1 ==> f.Chunk? && DecodeEntry(f.bytes).Some?
  }

  ghost predicate AllDecode(bodies: seq<seq<Byte>>)
  {
    forall i :: 0 <= i < |bodies| ==> DecodeEntry(bodies[i]).Some?
  }

  ghost function Decoded(bodies: seq<seq<Byte>>): seq<Entry>
    requires AllDecode(bodies)
  {
    seq(|bodies|, i requires 0 <= i < |bodies| => DecodeEntry(bodies[i]).value)
  }

  lemma {:induction false} EntriesDecode(fs: seq<Field>)
    ensures DecodeEntries(fs).Some? <==> forall i :: 0 <= i < |fs| ==> EntryField(fs[i])
    ensures DecodeEntries(fs).Some? ==> AllDecode(AllOf(fs, 1)) && DecodeEntries(fs).value == Decoded(AllOf(fs, 1))
  {
    hide DecodeEntry;
    if fs != [] {
      EntriesDecode(fs[1..]);
      assert forall i :: 0 < i < |fs| ==> fs[i] == fs[1..][i - 1];
      assert forall i :: 0 <= i < |fs[1..]| ==> fs[1..][i] == fs[i + 1];
    }
  }

  /**
   A leaf's bytes are accepted exactly if every field 1 is an entry and their keys are
   distinct; the leaf then has these entries and no others.
   */
  lemma {:induction false} LeavesDecodeByTheFormat(b: seq<Byte>)
    ensures DecodeLeaf(b).Some? <==>
              && TakeFields(b).Some? && (forall i :: 0 <= i < |TakeFields(b).value| ==> EntryField(TakeFields(b).value[i]))
              && AllDecode(AllOf(TakeFields(b).value, 1)) && DistinctKeys(Decoded(AllOf(TakeFields(b).value, 1)))
    ensures DecodeLeaf(b).Some? ==>
              forall k :: Lookup(DecodeLeaf(b).value, k) == Lookup(Decoded(AllOf(TakeFields(b).value, 1)), k)
  {
    hide TakeFields, DecodeEntries, DecodeEntry, Collect, Lookup, DistinctKeys, EntryField, AllOf;
    if TakeFields(b).Some? {
      var fs := TakeFields(b).value;
      EntriesDecode(fs);
      if DecodeEntries(fs).Some? {
        var es := DecodeEntries(fs).value;
        CollectsExactly(es);
        DecodeEntriesValid(fs);
        if Collect([], es).Some? {
          CollectKeeps([], es);
          NothingFound();
        }
      }
    }
  }

  lemma NothingFound()
    ensures forall k :: Lookup<Slot>([], k).None?
  {
  }

  /** A leaf is written as its entries in order, each as a field 1. */
  lemma LeavesEncodeByTheFormat(leaf: seq<Entry>)
    requires Addressable(leaf)
    ensures TakeFields(EncodeLeaf(leaf)).Some? && |TakeFields(EncodeLeaf(leaf)).value| == |leaf|
    ensures forall i :: 0 <= i < |leaf| ==> TakeFields(EncodeLeaf(leaf)).value[i] == Chunk(1, EncodeEntry(leaf[i]))
  {
    hide EncodeEntry, TakeFields, PutFields;
    forall i | 0 <= i < |LeafFields(leaf)| ensures Encodable(LeafFields(leaf)[i]) {
    }
    FieldsRoundTrip(LeafFields(leaf));
  }

  // Down to the bytes ------------------------------------------------------------------------------------

  /** The number that groups of seven bits make, the lowest first. */
  function GroupsValue(b: seq<Byte>): nat
  {
    if b == [] then 0 else b[0] % 128 + 128 * GroupsValue(b[1..])
  }

  /** A varint is the number's groups of seven bits, all but the last one marked. */
  lemma {:induction false} VarintGroups(n: nat)
    ensures Varint(n) != [] && GroupsValue(Varint(n)) == n
    ensures forall i :: 0 <= i < |Varint(n)| ==> (Varint(n)[i] >= 128 <==> i < |Varint(n)| - 1)
  {
    if n < 128 {
      assert [n][1..] == [];
    } else {
      VarintGroups(n / 128);
      assert Varint(n)[1..] == Varint(n / 128);
    }
  }

  /** Short fields: a key byte of tag and wire type, then the number or the length and contents. */
  lemma ShortFields(tag: nat, value: nat, bytes: seq<Byte>)
    requires 1 <= tag < 16 && value < 128 && |bytes| < 128
    ensures PutField(Number(tag, value)) == [8 * tag, value]
    ensures PutField(Chunk(tag, bytes)) == [8 * tag + 2, |bytes|] + bytes
    ensures |bytes| == 8 ==> PutField(Fixed(tag, bytes)) == [8 * tag + 1] + bytes
    ensures |bytes| == 4 ==> PutField(Fixed(tag, bytes)) == [8 * tag + 5] + bytes
  {
  }

  /** A write lock on the key "k", byte by byte: key, lock type 3, one holder. */
  lemma WriteLockInBytes(id: Id)
    requires |id| == 16
    ensures EncodeEntry(Pair([107], Slot(Lock(Write, [id]), Absent))) == [10, 1, 107, 16, 3, 26, 16] + id
  {
    var e := Pair([107], Slot(Lock(Write, [id]), Absent));
    var a, b, c := Chunk(1, [107]), Number(2, 3), Chunk(3, id);
    assert EntryFields(e) == [a] + [b] + [c];
    ShortFields(1, 0, [107]);
    ShortFields(2, 3, []);
    ShortFields(3, 0, id);
    PutOne(a);
    PutOne(b);
    PutOne(c);
    PutFieldsAppend([a], [b]);
    PutFieldsAppend([a] + [b], [c]);
  }
}
