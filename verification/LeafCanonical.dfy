/** Which leaf bodies are the ones written: exactly those that are read and written back unchanged. */
module LeafCanonical {
  import opened Sequences
  import opened Lexicographic
  import opened OrderedMap
  import opened Wire
  import opened LeafCodec
  import opened LeafRoundTrip

  /** Reading, writing and reading again loses nothing more than the first reading did. */
  lemma RewritingIsStable(b: seq<Byte>)
    requires DecodeLeaf(b).Some? && Addressable(DecodeLeaf(b).value)
    ensures DecodeLeaf(EncodeLeaf(DecodeLeaf(b).value)) == DecodeLeaf(b)
  {
    DecodedLeavesAreValid(b);
    LeafRoundTrips(DecodeLeaf(b).value);
  }

  // Current values -----------------------------------------------------------------------------

  /** A writer, then one state: what a current value is written as. */
  predicate CurrentShaped(cs: seq<Field>)
  {
    && |cs| == 2
    && cs[0].Chunk? && cs[0].tag == 1 && |cs[0].bytes| == ID_BYTES
    && (cs[1] == Number(2, 1) || cs[1] == Number(4, 1) || (cs[1].Chunk? && cs[1].tag == 3))
  }

  predicate CanonicalCurrent(b: seq<Byte>)
  {
    TakeFields(b).Some? && TightFields(b) && CurrentShaped(TakeFields(b).value)
  }

  function CurrentOf(cs: seq<Field>): Current
    requires CurrentShaped(cs)
  {
    if cs[1].Chunk? then Inline(cs[0].bytes, cs[1].bytes)
    else if cs[1].tag == 2 then External(cs[0].bytes)
    else Tombstone(cs[0].bytes)
  }

  lemma CurrentOfFields(cs: seq<Field>)
    requires CurrentShaped(cs)
    ensures !CurrentOf(cs).Absent? && |CurrentOf(cs).writer| == ID_BYTES && CurrentFields(CurrentOf(cs)) == cs
  {
  }

  lemma CurrentIsCanonical(c: Current)
    requires !c.Absent? && |c.writer| == ID_BYTES && |PutFields(CurrentFields(c))| <= MAX_U64
    ensures CanonicalCurrent(PutFields(CurrentFields(c)))
  {
    hide TakeFields, PutFields, TightFields;
    CurrentRoundTrips(c);
    TightFieldsExactly(PutFields(CurrentFields(c)));
  }

  // Entries ----------------------------------------------------------------------------------------

  function KeyFields(fs: seq<Field>): nat
  {
    if fs != [] && fs[0].tag == 1 then 1 else 0
  }

  /** Where the holders end: before a current value, which comes last. */
  function HoldersEnd(fs: seq<Field>): nat
  {
    if fs != [] && fs[|fs| - 1].tag == 4 then |fs| - 1 else |fs|
  }

  function HoldersOf(fs: seq<Field>): seq<Id>
    requires KeyFields(fs) < HoldersEnd(fs) <= |fs|
    requires forall i :: KeyFields(fs) < i < HoldersEnd(fs) ==> fs[i].Chunk?
  {
    var k := KeyFields(fs) + 1;
    seq(HoldersEnd(fs) - k, i requires 0 <= i < HoldersEnd(fs) - k => fs[k + i].bytes)
  }

  /** A nonempty key if any, a lock type, the holders of that lock in order, a current value if any. */
  ghost predicate EntryShaped(fs: seq<Field>)
  {
    var k, n := KeyFields(fs), HoldersEnd(fs);
    && (k == 1 ==> fs[0].Chunk? && fs[0].bytes != [])
    && k < n && fs[k].Number? && fs[k].tag == 2 && 1 <= fs[k].value <= 4
    && (forall i :: k < i < n ==> fs[i].Chunk? && fs[i].tag == 3)
    && ValidLock(Lock(LockTypeOf(fs[k].value).value, HoldersOf(fs)))
    && (n < |fs| ==> fs[n].Chunk? && fs[n].tag == 4 && CanonicalCurrent(fs[n].bytes))
  }

  function EntryKey(fs: seq<Field>): Key
    requires KeyFields(fs) == 1 ==> fs[0].Chunk?
  {
    if KeyFields(fs) == 1 then fs[0].bytes else []
  }

  ghost function EntryOf(fs: seq<Field>): Entry
    requires EntryShaped(fs)
  {
    var k, n := KeyFields(fs), HoldersEnd(fs);
    Pair(EntryKey(fs),
         Slot(Lock(LockTypeOf(fs[k].value).value, HoldersOf(fs)),
              if n < |fs| then CurrentOf(TakeFields(fs[n].bytes).value) else Absent))
  }

  ghost predicate CanonicalEntry(b: seq<Byte>)
  {
    TakeFields(b).Some? && TightFields(b) && EntryShaped(TakeFields(b).value)
  }

  /** Fields of that shape are an entry's, and the entry is the one read off them. */
  lemma EntryOfFields(fs: seq<Field>)
    requires EntryShaped(fs)
    ensures ValidSlot(EntryOf(fs).value) && EntryFields(EntryOf(fs)) == fs
  {
    hide TakeFields, PutFields, TightFields, CurrentShaped, CurrentFields, ValidLock, CurrentOf, Wire.PutField;
    var e, k, n := EntryOf(fs), KeyFields(fs), HoldersEnd(fs);
    var l, c := e.value.lock, e.value.current;
    if n < |fs| {
      CurrentOfFields(TakeFields(fs[n].bytes).value);
      TightFieldsExactly(fs[n].bytes);
    }
    var first := if e.key == [] then [] else [Chunk(1, e.key)];
    var last := if c.Absent? then [] else [Chunk(4, PutFields(CurrentFields(c)))];
    assert first == fs[..k];
    assert [Number(2, LockNumber(l.typ))] == fs[k..k + 1];
    assert HolderFields(l.holders) == fs[k + 1..n];
    assert last == fs[n..];
    assert fs == fs[..k] + fs[k..k + 1] + fs[k + 1..n] + fs[n..];
  }

  lemma EntryIsShaped(e: Entry)
    requires ValidSlot(e.value) && |EncodeEntry(e)| <= MAX_U64
    ensures EntryShaped(EntryFields(e)) && EntryKey(EntryFields(e)) == e.key
  {
    hide TakeFields, PutFields, CanonicalCurrent, CurrentFields, ValidLock, EntryFields;
    var fs := EntryFields(e);
    var l, c := e.value.lock, e.value.current;
    var k, n := KeyFields(fs), HoldersEnd(fs);
    FieldPlaces(e);
    assert HoldersOf(fs) == l.holders;
    if !c.Absent? {
      FieldWithin(fs, n);
      CurrentIsCanonical(c);
    }
  }

  /** Which field of an entry is where. */
  lemma FieldPlaces(e: Entry)
    ensures var fs, hs, c := EntryFields(e), e.value.lock.holders, e.value.current;
            var k, n := KeyFields(fs), HoldersEnd(fs);
            && k == (if e.key == [] then 0 else 1) && n == k + 1 + |hs| && |fs| == n + (if c.Absent? then 0 else 1)
            && (k == 1 ==> fs[0] == Chunk(1, e.key))
            && fs[k] == Number(2, LockNumber(e.value.lock.typ))
            && (forall i :: 0 <= i < |hs| ==> fs[k + 1 + i] == Chunk(3, hs[i]))
            && (forall i :: k < i < n ==> fs[i].Chunk? && fs[i].tag == 3)
            && (!c.Absent? ==> fs[n] == Chunk(4, PutFields(CurrentFields(c))))
  {
    hide PutFields, CurrentFields;
  }

  lemma EntryIsCanonical(e: Entry)
    requires ValidSlot(e.value) && |EncodeEntry(e)| <= MAX_U64
    ensures CanonicalEntry(EncodeEntry(e)) && TakeFields(EncodeEntry(e)) == Some(EntryFields(e))
  {
    hide TakeFields, PutFields, TightFields, EntryShaped, EntryFields;
    EntryFieldsEncodable(e);
    FieldsRoundTrip(EntryFields(e));
    TightFieldsExactly(EncodeEntry(e));
    EntryIsShaped(e);
  }

  lemma {:induction false} CanonicalEntryIsWritten(b: seq<Byte>)
    requires CanonicalEntry(b)
    ensures var e := EntryOf(TakeFields(b).value);
            ValidSlot(e.value) && EncodeEntry(e) == b
  {
    hide TakeFields, PutFields, TightFields, EntryShaped, EntryFields, EntryOf;
    EntryOfFields(TakeFields(b).value);
    TightFieldsExactly(b);
  }

  // Leaves -------------------------------------------------------------------------------------------

  /** Entries and nothing else, each canonical, their keys ascending. */
  ghost predicate LeafShaped(fs: seq<Field>)
  {
    && (forall i :: 0 <= i < |fs| ==> fs[i].Chunk? && fs[i].tag == 1 && CanonicalEntry(fs[i].bytes))
    && (forall i, j :: 0 <= i < j < |fs| ==> Less(KeyIn(fs[i].bytes), KeyIn(fs[j].bytes)))
  }

  ghost function KeyIn(b: seq<Byte>): Key
    requires CanonicalEntry(b)
  {
    EntryKey(TakeFields(b).value)
  }

  /** Tight numbers, and the shape of a leaf all the way down: a condition on the bytes alone. */
  ghost predicate CanonicalLeaf(b: seq<Byte>)
  {
    TakeFields(b).Some? && TightFields(b) && LeafShaped(TakeFields(b).value)
  }

  ghost function LeafOf(fs: seq<Field>): seq<Entry>
    requires LeafShaped(fs)
  {
    seq(|fs|, i requires 0 <= i < |fs| => EntryOf(TakeFields(fs[i].bytes).value))
  }

  lemma LeafOfFields(fs: seq<Field>)
    requires LeafShaped(fs)
    ensures ValidLeaf(LeafOf(fs)) && LeafFields(LeafOf(fs)) == fs
  {
    hide CanonicalEntry, EncodeEntry, ValidSlot, TakeFields, Less;
    var leaf := LeafOf(fs);
    forall i | 0 <= i < |fs|
      ensures ValidSlot(leaf[i].value) && EncodeEntry(leaf[i]) == fs[i].bytes && leaf[i].key == KeyIn(fs[i].bytes)
    {
      CanonicalEntryIsWritten(fs[i].bytes);
    }
  }

  lemma LeafIsShaped(leaf: seq<Entry>)
    requires ValidLeaf(leaf) && Addressable(leaf)
    ensures LeafShaped(LeafFields(leaf))
  {
    hide CanonicalEntry, EncodeEntry, ValidSlot, TakeFields, Less, EntryKey, EntryFields;
    var fs := LeafFields(leaf);
    forall i | 0 <= i < |fs| ensures CanonicalEntry(fs[i].bytes) && KeyIn(fs[i].bytes) == leaf[i].key {
      EntryIsCanonical(leaf[i]);
      EntryIsShaped(leaf[i]);
    }
  }

  lemma WrittenLeavesAreAddressable(leaf: seq<Entry>)
    requires |EncodeLeaf(leaf)| <= MAX_U64
    ensures Addressable(leaf)
  {
    hide EncodeEntry, PutFields;
    forall i | 0 <= i < |leaf| ensures |EncodeEntry(leaf[i])| <= MAX_U64 {
      assert LeafFields(leaf)[i].bytes == EncodeEntry(leaf[i]);
      FieldWithin(LeafFields(leaf), i);
    }
  }

  lemma WrittenLeavesAreCanonical(leaf: seq<Entry>)
    requires ValidLeaf(leaf) && Addressable(leaf)
    ensures CanonicalLeaf(EncodeLeaf(leaf))
  {
    hide TakeFields, PutFields, TightFields, LeafShaped, EncodeEntry;
    forall i | 0 <= i < |LeafFields(leaf)| ensures Encodable(LeafFields(leaf)[i]) {
    }
    FieldsRoundTrip(LeafFields(leaf));
    TightFieldsExactly(EncodeLeaf(leaf));
    LeafIsShaped(leaf);
  }

  /**
   A body is decoded and encoded back to the very same bytes exactly when it is canonical.
   Other bodies that decode change: unknown fields go, entries and holders are put in order,
   numbers get their shortest form.
   */
  lemma RewritesToItselfExactly(b: seq<Byte>)
    requires |b| <= MAX_U64
    ensures DecodeLeaf(b).Some? && EncodeLeaf(DecodeLeaf(b).value) == b <==> CanonicalLeaf(b)
  {
    hide DecodeLeaf, EncodeLeaf, ValidLeaf, LeafShaped, Addressable, TakeFields, TightFields;
    if CanonicalLeaf(b) {
      var leaf := LeafOf(TakeFields(b).value);
      CanonicalLeafIsWritten(b);
      WrittenLeavesAreAddressable(leaf);
      LeafRoundTrips(leaf);
    }
    if DecodeLeaf(b).Some? && EncodeLeaf(DecodeLeaf(b).value) == b {
      DecodedLeavesAreValid(b);
      WrittenLeavesAreAddressable(DecodeLeaf(b).value);
      WrittenLeavesAreCanonical(DecodeLeaf(b).value);
    }
  }

  /** A body that holds only an unknown field is an empty leaf, and is written back as no bytes. */
  lemma UnknownFieldsAreDropped()
    ensures DecodeLeaf([16, 0]) == Some([]) && EncodeLeaf([]) == []
  {
    hide ReadVarint, TakeField, TakeFields;
    var f := Number(2, 0);
    ShortNumber(f, [16, 0]);
    PutOne(f);
    FieldsRoundTrip([f]);
    assert [f][1..] == [];
  }

  lemma ShortNumber(f: Field, b: seq<Byte>)
    requires f.Number? && f.tag < 16 && f.value < 128 && b == [f.tag * 8, f.value]
    ensures PutField(f) == b
  {
  }

  lemma {:induction false} CanonicalLeafIsWritten(b: seq<Byte>)
    requires CanonicalLeaf(b)
    ensures var leaf := LeafOf(TakeFields(b).value);
            ValidLeaf(leaf) && EncodeLeaf(leaf) == b
  {
    hide TakeFields, PutFields, TightFields, LeafShaped, LeafFields, ValidLeaf;
    LeafOfFields(TakeFields(b).value);
    TightFieldsExactly(b);
  }
}
