/** Leaf bodies as bytes: which bodies there are, what each is written as, and what is read back. */
module LeafCodec {
  import opened Sequences
  import opened Lexicographic
  import opened OrderedMap
  import opened Wire

  const ID_BYTES: nat := 16

  type Id = seq<Byte>

  datatype LockType = Unlocked | Read | Write | Create
  datatype Lock = Lock(typ: LockType, holders: seq<Id>)
  datatype Current = Absent | External(writer: Id) | Inline(writer: Id, value: seq<Byte>) | Tombstone(writer: Id)
  datatype Slot = Slot(lock: Lock, current: Current)

  type Entry = Pair<Slot>

  ghost predicate Increasing(ids: seq<Id>)
  {
    forall i, j :: 0 <= i < j < |ids| ==> Less(ids[i], ids[j])
  }

  ghost predicate AllIds(ids: seq<Id>)
  {
    forall i :: 0 <= i < |ids| ==> |ids[i]| == ID_BYTES
  }

  predicate Shaped(typ: LockType, holders: seq<Id>)
  {
    match typ
    case Unlocked => holders == []
    case Read => |holders| >= 1
    case Write => |holders| == 1
    case Create => |holders| == 1
  }

  ghost predicate ValidLock(l: Lock)
  {
    AllIds(l.holders) && Increasing(l.holders) && Shaped(l.typ, l.holders)
  }

  ghost predicate ValidSlot(s: Slot)
  {
    ValidLock(s.lock) && (!s.current.Absent? ==> |s.current.writer| == ID_BYTES)
  }

  /** Entries are kept in ascending key order. */
  ghost predicate ValidLeaf(leaf: seq<Entry>)
  {
    Ordered(leaf) && forall i :: 0 <= i < |leaf| ==> ValidSlot(leaf[i].value)
  }

  // Holder sets ------------------------------------------------------------------------------

  function InsertId(x: Id, ids: seq<Id>): seq<Id>
  {
    if ids == [] || !Less(ids[0], x) then [x] + ids else [ids[0]] + InsertId(x, ids[1..])
  }

  function SortIds(ids: seq<Id>): seq<Id>
  {
    if ids == [] then [] else InsertId(ids[0], SortIds(ids[1..]))
  }

  predicate AdjacentEqual(ids: seq<Id>)
  {
    exists i :: 0 <= i < |ids| - 1 && ids[i] == ids[i + 1]
  }

  /** The canonical holder set, or nothing when a holder is listed twice. */
  function FromHolders(ids: seq<Id>): Option<seq<Id>>
  {
    var sorted := SortIds(ids);
    if AdjacentEqual(sorted) then None else Some(sorted)
  }

  ghost predicate NonDecreasing(ids: seq<Id>)
  {
    forall i, j :: 0 <= i < j < |ids| ==> !Less(ids[j], ids[i])
  }

  lemma {:induction false} InsertIdSorts(x: Id, ids: seq<Id>)
    requires NonDecreasing(ids)
    ensures NonDecreasing(InsertId(x, ids)) && multiset(InsertId(x, ids)) == multiset(ids) + multiset{x}
    ensures InsertId(x, ids) != [] && (InsertId(x, ids)[0] == x || (ids != [] && InsertId(x, ids)[0] == ids[0]))
  {
    hide Less;
    if ids == [] || !Less(ids[0], x) {
      if ids != [] {
        ConsNonDecreasing(x, ids);
      }
    } else {
      InsertIdSorts(x, ids[1..]);
      var rest := InsertId(x, ids[1..]);
      LessAsymmetric(ids[0], x);
      ConsNonDecreasing(ids[0], rest);
      assert ids == [ids[0]] + ids[1..];
    }
  }

  lemma {:induction false} ConsNonDecreasing(x: Id, ids: seq<Id>)
    requires NonDecreasing(ids) && ids != [] && !Less(ids[0], x)
    ensures NonDecreasing([x] + ids)
  {
    forall j | 0 < j < |[x] + ids| ensures !Less(([x] + ids)[j], x) {
      NotLessTransitive(x, ids[0], ids[j - 1]);
    }
  }

  lemma {:induction false} NotLessTransitive(a: Id, b: Id, c: Id)
    requires !Less(b, a) && (b == c || !Less(c, b))
    ensures !Less(c, a)
  {
    if Less(c, a) && b != c {
      LessTotal(b, c);
      LessTransitive(b, c, a);
    }
  }

  lemma {:induction false} SortIdsSorts(ids: seq<Id>)
    ensures NonDecreasing(SortIds(ids)) && multiset(SortIds(ids)) == multiset(ids)
  {
    if ids != [] {
      SortIdsSorts(ids[1..]);
      InsertIdSorts(ids[0], SortIds(ids[1..]));
      assert ids == [ids[0]] + ids[1..];
    }
  }

  lemma {:induction false} Ascends(ids: seq<Id>, i: nat, j: nat)
    requires NonDecreasing(ids) && !AdjacentEqual(ids) && i < j < |ids|
    ensures Less(ids[i], ids[j])
    decreases j - i
  {
    LessTotal(ids[j - 1], ids[j]);
    assert ids[j - 1] != ids[j - 1 + 1];
    if i < j - 1 {
      Ascends(ids, i, j - 1);
      LessTransitive(ids[i], ids[j - 1], ids[j]);
    }
  }

  /** Without equal neighbours, a sorted sequence is strictly increasing. */
  lemma NoRepeats(ids: seq<Id>)
    requires NonDecreasing(ids)
    ensures !AdjacentEqual(ids) <==> Increasing(ids)
  {
    hide Less;
    if Increasing(ids) {
      forall i | 0 <= i < |ids| - 1 ensures ids[i] != ids[i + 1] {
        IrreflexiveLess(ids[i]);
      }
    }
    if !AdjacentEqual(ids) {
      forall i, j | 0 <= i < j < |ids| ensures Less(ids[i], ids[j]) {
        Ascends(ids, i, j);
      }
    }
  }

  /** Strictly increasing sequences with the same members are the same. */
  lemma {:induction false} SameMembersSameOrder(a: seq<Id>, b: seq<Id>)
    requires NonDecreasing(a) && NonDecreasing(b) && multiset(a) == multiset(b)
    ensures a == b
  {
    if a == [] || b == [] {
      assert |multiset(a)| == |a| && |multiset(b)| == |b|;
    } else {
      FirstIsLeast(a, b[0], b);
      FirstIsLeast(b, a[0], a);
      LessTotal(a[0], b[0]);
      assert a == [a[0]] + a[1..] && b == [b[0]] + b[1..];
      assert multiset(a[1..]) == multiset(a) - multiset{a[0]};
      assert multiset(b[1..]) == multiset(b) - multiset{b[0]};
      SameMembersSameOrder(a[1..], b[1..]);
    }
  }

  lemma {:induction false} FirstIsLeast(a: seq<Id>, x: Id, b: seq<Id>)
    requires NonDecreasing(a) && a != [] && b != [] && x == b[0] && multiset(a) == multiset(b)
    ensures !Less(x, a[0])
  {
    assert x in multiset(b);
    assert x in a;
    var i :| 0 <= i < |a| && a[i] == x;
    if i == 0 {
      IrreflexiveLess(x);
    }
  }

  lemma IncreasingIsSorted(ids: seq<Id>)
    requires Increasing(ids)
    ensures NonDecreasing(ids)
  {
    forall i, j | 0 <= i < j < |ids| ensures !Less(ids[j], ids[i]) {
      LessAsymmetric(ids[i], ids[j]);
    }
  }

  /** A list of holders yields exactly the increasing arrangement of its members, if there is one. */
  lemma HoldersAreCanonical(ids: seq<Id>, hs: seq<Id>)
    ensures FromHolders(ids) == Some(hs) <==> Increasing(hs) && multiset(ids) == multiset(hs)
  {
    var sorted := SortIds(ids);
    SortIdsSorts(ids);
    NoRepeats(sorted);
    if Increasing(hs) && multiset(ids) == multiset(hs) {
      IncreasingIsSorted(hs);
      SameMembersSameOrder(sorted, hs);
    }
  }

  // Encoding ---------------------------------------------------------------------------------

  function LockNumber(typ: LockType): nat
  {
    match typ case Unlocked => 1 case Read => 2 case Write => 3 case Create => 4
  }

  function CurrentFields(c: Current): seq<Field>
    requires !c.Absent?
  {
    (if c.writer == [] then [] else [Chunk(1, c.writer)]) +
    match c
    case External(_) => [Number(2, 1)]
    case Inline(_, value) => [Chunk(3, value)]
    case Tombstone(_) => [Number(4, 1)]
  }

  function HolderFields(holders: seq<Id>): seq<Field>
  {
    seq(|holders|, i requires 0 <= i < |holders| => Chunk(3, holders[i]))
  }

  function EntryFields(e: Entry): seq<Field>
  {
    (if e.key == [] then [] else [Chunk(1, e.key)])
    + [Number(2, LockNumber(e.value.lock.typ))]
    + HolderFields(e.value.lock.holders)
    + (if e.value.current.Absent? then [] else [Chunk(4, PutFields(CurrentFields(e.value.current)))])
  }

  function EncodeEntry(e: Entry): seq<Byte>
  {
    PutFields(EntryFields(e))
  }

  function LeafFields(leaf: seq<Entry>): seq<Field>
  {
    seq(|leaf|, i requires 0 <= i < |leaf| => Chunk(1, EncodeEntry(leaf[i])))
  }

  function EncodeLeaf(leaf: seq<Entry>): seq<Byte>
  {
    PutFields(LeafFields(leaf))
  }

  // Decoding ---------------------------------------------------------------------------------

  datatype RawState = NoState | RawExternal | RawInline(value: seq<Byte>) | RawTombstone
  datatype RawCurrent = RawCurrent(writer: seq<Byte>, state: RawState)
  datatype RawEntry = RawEntry(key: seq<Byte>, lockType: nat, lockedBy: seq<seq<Byte>>, current: Option<RawCurrent>)

  /** One field merged into the message read so far: the last scalar wins, unknown tags are skipped. */
  function MergeCurrent(raw: RawCurrent, f: Field): Option<RawCurrent>
  {
    match f.tag
    case 1 => if f.Chunk? then Some(RawCurrent(f.bytes, raw.state)) else None
    case 2 => if f.Number? then Some(RawCurrent(raw.writer, RawExternal)) else None
    case 3 => if f.Chunk? then Some(RawCurrent(raw.writer, RawInline(f.bytes))) else None
    case 4 => if f.Number? then Some(RawCurrent(raw.writer, RawTombstone)) else None
    case _ => Some(raw)
  }

  function MergeCurrents(raw: RawCurrent, fs: seq<Field>): Option<RawCurrent>
    decreases |fs|
  {
    if fs == [] then Some(raw)
    else match MergeCurrent(raw, fs[0]) case None => None case Some(r) => MergeCurrents(r, fs[1..])
  }

  function MergeEntry(raw: RawEntry, f: Field): Option<RawEntry>
  {
    match f.tag
    case 1 => if f.Chunk? then Some(raw.(key := f.bytes)) else None
    case 2 => if f.Number? then Some(raw.(lockType := f.value)) else None
    case 3 => if f.Chunk? then Some(raw.(lockedBy := raw.lockedBy + [f.bytes])) else None
    case 4 =>
      if !f.Chunk? then None
      else
        (match TakeFields(f.bytes)
         case None => None
         case Some(fs) =>
           match MergeCurrents(if raw.current.Some? then raw.current.value else RawCurrent([], NoState), fs)
           case None => None
           case Some(c) => Some(raw.(current := Some(c))))
    case _ => Some(raw)
  }

  function MergeEntries(raw: RawEntry, fs: seq<Field>): Option<RawEntry>
    decreases |fs|
  {
    if fs == [] then Some(raw)
    else match MergeEntry(raw, fs[0]) case None => None case Some(r) => MergeEntries(r, fs[1..])
  }

  /** The enumeration is a 32-bit number; values it does not name are unknown. */
  function LockTypeOf(n: nat): Option<LockType>
  {
    var v := n % 0x1_0000_0000;
    if v == 1 then Some(Unlocked) else if v == 2 then Some(Read) else if v == 3 then Some(Write)
    else if v == 4 then Some(Create) else None
  }

  /** An unknown type is accepted only for the empty lock, which older bodies left out. */
  function LockFrom(n: nat, lockedBy: seq<seq<Byte>>): Option<Lock>
  {
    if exists i :: 0 <= i < |lockedBy| && |lockedBy[i]| != ID_BYTES then None
    else
      match FromHolders(lockedBy)
      case None => None
      case Some(holders) =>
        match LockTypeOf(n)
        case None => if holders == [] then Some(Lock(Unlocked, [])) else None
        case Some(typ) => if Shaped(typ, holders) then Some(Lock(typ, holders)) else None
  }

  function CurrentFrom(raw: Option<RawCurrent>): Option<Current>
  {
    match raw
    case None => Some(Absent)
    case Some(c) =>
      if |c.writer| != ID_BYTES then None
      else
        match c.state
        case NoState => None
        case RawExternal => Some(External(c.writer))
        case RawInline(value) => Some(Inline(c.writer, value))
        case RawTombstone => Some(Tombstone(c.writer))
  }

  function DecodeEntry(b: seq<Byte>): Option<Entry>
  {
    match TakeFields(b)
    case None => None
    case Some(fs) =>
      match MergeEntries(RawEntry([], 0, [], None), fs)
      case None => None
      case Some(raw) =>
        match LockFrom(raw.lockType, raw.lockedBy)
        case None => None
        case Some(lock) =>
          match CurrentFrom(raw.current)
          case None => None
          case Some(current) => Some(Pair(raw.key, Slot(lock, current)))
  }

  /** The entries of the message in the order they appear; unknown fields are skipped. */
  function DecodeEntries(fs: seq<Field>): Option<seq<Entry>>
  {
    if fs == [] then Some([])
    else if fs[0].tag != 1 then DecodeEntries(fs[1..])
    else if !fs[0].Chunk? then None
    else
      match DecodeEntry(fs[0].bytes)
      case None => None
      case Some(e) => match DecodeEntries(fs[1..]) case None => None case Some(es) => Some([e] + es)
  }

  /** Collects entries by key; a key that appears twice is refused. */
  function Collect(leaf: seq<Entry>, es: seq<Entry>): Option<seq<Entry>>
    decreases |es|
  {
    if es == [] then Some(leaf)
    else if Lookup(leaf, es[0].key).Some? then None
    else Collect(Put(leaf, es[0].key, es[0].value), es[1..])
  }

  function DecodeLeaf(b: seq<Byte>): Option<seq<Entry>>
  {
    match TakeFields(b)
    case None => None
    case Some(fs) => match DecodeEntries(fs) case None => None case Some(es) => Collect([], es)
  }

  /** The insertion loop that rebuilds a leaf from its decoded entries. */
  method FromEntries(es: seq<Entry>) returns (leaf: Option<seq<Entry>>)
    ensures leaf == Collect([], es)
  {
    var entries := [];
    var i := 0;
    while i < |es|
      invariant 0 <= i <= |es|
      invariant Collect([], es) == Collect(entries, es[i..])
    {
      if Lookup(entries, es[i].key).Some? {
        return None;
      }
      entries := Put(entries, es[i].key, es[i].value);
      assert es[i..][1..] == es[i + 1..];
      i := i + 1;
    }
    leaf := Some(entries);
  }
}
