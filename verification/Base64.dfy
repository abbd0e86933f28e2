/**
 The order-preserving, unpadded base64 codec of object paths: the bit grouping of section 4
 of RFC 4648 over an alphabet in ascending ASCII order. Strings are their ASCII bytes.
 */
module Base64 {
  import opened Sequences
  import opened Lexicographic

  type Digit = x: nat | x < 64

  const NUMERALS: string := "0123456789"
  const UPPER: string := "ABCDEFGHIJKLMNOPQRSTUVWXYZ"
  const LOWER: string := "abcdefghijklmnopqrstuvwxyz"
  const ALPHABET: string := NUMERALS + "=" + UPPER + "_" + LOWER

  function Symbol(d: Digit): (b: Byte)
  {
    if d < 10 then 48 + d else if d == 10 then 61 else if d < 37 then 54 + d else if d == 37 then 95 else 59 + d
  }

  /** The digit a byte stands for, when it is in the alphabet. */
  function DigitOf(b: Byte): (d: Option<Digit>)
    ensures d.Some? ==> Symbol(d.value) == b
  {
    if 48 <= b < 58 then Some(b - 48) else if b == 61 then Some(10) else if 65 <= b < 91 then Some(b - 54)
    else if b == 95 then Some(37) else if 97 <= b < 123 then Some(b - 59) else None
  }

  /** The alphabet is ascending, and every digit has its own symbol. */
  lemma SymbolsAscend(d: Digit, e: Digit)
    ensures d < e <==> Symbol(d) < Symbol(e)
    ensures DigitOf(Symbol(d)) == Some(d)
  {
  }

  lemma AlphabetSpelled()
    ensures |ALPHABET| == 64 && forall d: Digit :: ALPHABET[d] as int == Symbol(d)
  {
    assert forall i :: 0 <= i < 10 ==> NUMERALS[i] as int == 48 + i;
    assert forall i :: 0 <= i < 26 ==> UPPER[i] as int == 65 + i;
    assert forall i :: 0 <= i < 26 ==> LOWER[i] as int == 97 + i;
  }

  // Encoding -----------------------------------------------------------------------------------

  function First(a: Byte): Digit { a as int / 4 }
  function Second(a: Byte, b: Byte): Digit { a as int % 4 * 16 + b as int / 16 }
  function Third(b: Byte, c: Byte): Digit { b as int % 16 * 4 + c as int / 64 }
  function Fourth(c: Byte): Digit { c as int % 64 }

  /** Six bits at a time; a short last group is filled up with zero bits. */
  function Digits(s: seq<Byte>): seq<Digit>
  {
    if s == [] then []
    else if |s| == 1 then [First(s[0]), Second(s[0], 0)]
    else if |s| == 2 then [First(s[0]), Second(s[0], s[1]), Third(s[1], 0)]
    else [First(s[0]), Second(s[0], s[1]), Third(s[1], s[2]), Fourth(s[2])] + Digits(s[3..])
  }

  function Symbols(ds: seq<Digit>): seq<Byte>
  {
    seq(|ds|, i requires 0 <= i < |ds| => Symbol(ds[i]))
  }

  function Encode(s: seq<Byte>): seq<Byte>
  {
    Symbols(Digits(s))
  }

  /** The ends of the alphabet's ranges; as it ascends, nothing else fits in between. */
  lemma SymbolsSpelled()
    ensures Symbol(0) == '0' as int && Symbol(9) == '9' as int && Symbol(10) == '=' as int
    ensures Symbol(11) == 'A' as int && Symbol(36) == 'Z' as int && Symbol(37) == '_' as int
    ensures Symbol(38) == 'a' as int && Symbol(63) == 'z' as int
  {
  }

  /** Strings of up to three bytes, digit by digit. */
  lemma ShortEncodings(a: Byte, b: Byte, c: Byte)
    ensures Encode([a]) == [Symbol(First(a)), Symbol(Second(a, 0))]
    ensures Encode([a, b]) == [Symbol(First(a)), Symbol(Second(a, b)), Symbol(Third(b, 0))]
    ensures Encode([a, b, c]) == [Symbol(First(a)), Symbol(Second(a, b)), Symbol(Third(b, c)), Symbol(Fourth(c))]
  {
    hide Symbol, First, Second, Third, Fourth;
    assert [a, b, c][3..] == [];
    assert Digits([a, b, c]) == [First(a), Second(a, b), Third(b, c), Fourth(c)];
  }

  /** Known encodings: "(" is "=0", "f" is "OV", "fo" is "Oaw" and "foo" is "Oaxj". */
  lemma KnownEncodings()
    ensures Encode([40]) == [61, 48] && Encode([102]) == [79, 86]
    ensures Encode([102, 111]) == [79, 97, 119] && Encode([102, 111, 111]) == [79, 97, 120, 106]
  {
    hide Encode;
    ShortEncodings(40, 0, 0);
    ShortEncodings(102, 111, 111);
  }

  /** Four digits are the same 24-bit number as their three bytes. */
  lemma GroupIsTheNumber(a: Byte, b: Byte, c: Byte)
    ensures First(a) * 262144 + Second(a, b) * 4096 + Third(b, c) * 64 + Fourth(c) == a * 65536 + b * 256 + c
  {
    assert a == 4 * (a / 4) + a % 4 && b == 16 * (b / 16) + b % 16 && c == 64 * (c / 64) + c % 64;
  }

  // Encoding keeps order -----------------------------------------------------------------------

  lemma {:induction false} SymbolsKeepOrder(a: seq<Digit>, b: seq<Digit>)
    requires Less(a, b)
    ensures Less(Symbols(a), Symbols(b))
  {
    if a != [] {
      SymbolsAscend(a[0], b[0]);
      if a[0] == b[0] {
        SymbolsKeepOrder(a[1..], b[1..]);
        assert Symbols(a)[1..] == Symbols(a[1..]) && Symbols(b)[1..] == Symbols(b[1..]);
      }
    }
  }

  /** The digits after the first, in terms of what is left of a string after its first byte. */
  function Rest1(a: Byte, s: seq<Byte>): seq<Digit>
  {
    if s == [] then [Second(a, 0)] else [Second(a, s[0])] + Rest2(s[0], s[1..])
  }

  function Rest2(b: Byte, s: seq<Byte>): (ds: seq<Digit>)
    ensures ds != []
  {
    if s == [] then [Third(b, 0)] else [Third(b, s[0]), Fourth(s[0])] + Digits(s[1..])
  }

  lemma {:induction false} DigitsUnfold(s: seq<Byte>)
    requires s != []
    ensures Digits(s) == [First(s[0])] + Rest1(s[0], s[1..])
  {
    if |s| >= 3 {
      assert s[1..][1..][1..] == s[3..];
    }
  }

  /** A larger byte shows in the digit it starts in or, that being equal, in the next one. */
  lemma ThirdDecides(b: Byte, x: Byte, y: Byte)
    requires x < y
    ensures Third(b, x) < Third(b, y) || (Third(b, x) == Third(b, y) && Fourth(x) < Fourth(y))
  {
  }

  lemma SecondDecides(a: Byte, x: Byte, y: Byte)
    requires x < y
    ensures Second(a, x) < Second(a, y) || (Second(a, x) == Second(a, y) && x % 16 < y % 16)
  {
  }

  lemma {:induction false} Rest2KeepsOrder(b: Byte, s: seq<Byte>, t: seq<Byte>)
    requires Less(s, t)
    requires s != [] && s[0] == t[0] ==> Less(Digits(s[1..]), Digits(t[1..]))
    ensures Less(Rest2(b, s), Rest2(b, t))
  {
    hide Digits, Third, Fourth;
    if s == [] {
      if 0 < t[0] {
        ThirdDecides(b, 0, t[0]);
      }
      if Third(b, 0) == Third(b, t[0]) {
        PrefixLess([Third(b, 0)], [Fourth(t[0])] + Digits(t[1..]));
        assert Rest2(b, t) == [Third(b, 0)] + ([Fourth(t[0])] + Digits(t[1..]));
      }
    } else if s[0] < t[0] {
      ThirdDecides(b, s[0], t[0]);
      if Third(b, s[0]) == Third(b, t[0]) {
        LessAfter([Third(b, s[0])], Fourth(s[0]), Digits(s[1..]), Fourth(t[0]), Digits(t[1..]));
      }
    } else {
      LessCommon([Third(b, s[0]), Fourth(s[0])], Digits(s[1..]), Digits(t[1..]));
    }
  }

  lemma FirstDecides(x: Byte, y: Byte)
    requires x < y
    ensures First(x) < First(y) || (First(x) == First(y) && x % 4 < y % 4)
  {
  }

  lemma {:induction false} LessByHead(a: seq<nat>, b: seq<nat>)
    requires a != [] && b != [] && a[0] < b[0]
    ensures Less(a, b)
  {
  }

  /** What is left of a smaller byte makes smaller digits, whatever follows. */
  lemma HighThird(b: Byte, s: seq<Byte>, c: Byte, t: seq<Byte>)
    requires b % 16 < c % 16
    ensures Less(Rest2(b, s), Rest2(c, t))
  {
    hide Digits, Less;
    LessByHead(Rest2(b, s), Rest2(c, t));
  }

  lemma HighSecond(a: Byte, s: seq<Byte>, c: Byte, t: seq<Byte>)
    requires a % 4 < c % 4
    ensures Less(Rest1(a, s), Rest1(c, t))
  {
    hide Rest2, Less;
    LessByHead(Rest1(a, s), Rest1(c, t));
  }

  lemma {:induction false} Rest1KeepsOrder(a: Byte, s: seq<Byte>, t: seq<Byte>)
    requires Less(s, t)
    requires s != [] && s[0] == t[0] ==> Less(Rest2(s[0], s[1..]), Rest2(t[0], t[1..]))
    ensures Less(Rest1(a, s), Rest1(a, t))
  {
    hide Second, Rest2;
    if s == [] {
      if 0 < t[0] {
        SecondDecides(a, 0, t[0]);
      }
      if Second(a, 0) == Second(a, t[0]) {
        PrefixLess([Second(a, 0)], Rest2(t[0], t[1..]));
      }
    } else if s[0] < t[0] {
      SecondDecides(a, s[0], t[0]);
      if Second(a, s[0]) == Second(a, t[0]) {
        HighThird(s[0], s[1..], t[0], t[1..]);
        LessCommon([Second(a, s[0])], Rest2(s[0], s[1..]), Rest2(t[0], t[1..]));
      }
    } else {
      LessCommon([Second(a, s[0])], Rest2(s[0], s[1..]), Rest2(t[0], t[1..]));
    }
  }

  lemma {:induction false} DigitsKeepOrder(s: seq<Byte>, t: seq<Byte>)
    requires Less(s, t)
    ensures Less(Digits(s), Digits(t))
    decreases |s|
  {
    hide Rest2, Rest1, First;
    if s == [] {
      DigitsUnfold(t);
    } else {
      DigitsUnfold(s);
      DigitsUnfold(t);
      var s1, t1 := s[1..], t[1..];
      if s[0] == t[0] {
        assert Less(s1, t1);
        if s1 != [] && s1[0] == t1[0] {
          var s2, t2 := s1[1..], t1[1..];
          assert Less(s2, t2);
          if s2 != [] && s2[0] == t2[0] {
            DigitsKeepOrder(s2[1..], t2[1..]);
          }
          Rest2KeepsOrder(s1[0], s2, t2);
        }
        Rest1KeepsOrder(s[0], s1, t1);
        LessCommon([First(s[0])], Rest1(s[0], s1), Rest1(t[0], t1));
      } else {
        FirstDecides(s[0], t[0]);
        if First(s[0]) == First(t[0]) {
          HighSecond(s[0], s1, t[0], t1);
          LessCommon([First(s[0])], Rest1(s[0], s1), Rest1(t[0], t1));
        }
      }
    }
  }

  /** Byte strings of any lengths are ordered exactly as their encodings are. */
  lemma {:induction false} EncodeKeepsOrder(a: seq<Byte>, b: seq<Byte>)
    ensures Less(a, b) <==> Less(Encode(a), Encode(b))
  {
    if Less(a, b) {
      DigitsKeepOrder(a, b);
      SymbolsKeepOrder(Digits(a), Digits(b));
    } else {
      LessTotal(a, b);
      if Less(b, a) {
        DigitsKeepOrder(b, a);
        SymbolsKeepOrder(Digits(b), Digits(a));
        LessAsymmetric(Encode(b), Encode(a));
      } else {
        IrreflexiveLess(Encode(a));
      }
    }
  }

  // Decoding -----------------------------------------------------------------------------------

  datatype Decoded = Ok(bytes: seq<Byte>) | InvalidByte(byte: Byte) | InvalidLength

  /** The bytes of whole digits; the spare bits of a short last group are dropped. */
  function Bytes(ds: seq<Digit>): seq<Byte>
  {
    if |ds| < 2 then []
    else if |ds| == 2 then [High(ds[0], ds[1])]
    else if |ds| == 3 then [High(ds[0], ds[1]), Middle(ds[1], ds[2])]
    else [High(ds[0], ds[1]), Middle(ds[1], ds[2]), Low(ds[2], ds[3])] + Bytes(ds[4..])
  }

  function High(d: Digit, e: Digit): Byte { d as int * 4 + e as int / 16 }
  function Middle(e: Digit, f: Digit): Byte { e as int % 16 * 16 + f as int / 4 }
  function Low(f: Digit, g: Digit): Byte { f as int % 4 * 64 + g as int }

  lemma GroupBack(d: Digit, e: Digit, f: Digit, g: Digit)
    ensures First(High(d, e)) == d && Second(High(d, e), Middle(e, f)) == e
    ensures Third(Middle(e, f), Low(f, g)) == f && Fourth(Low(f, g)) == g
    ensures Second(High(d, e), 0) == e / 16 * 16 && Third(Middle(e, f), 0) == f / 4 * 4
  {
  }

  lemma GroupForth(a: Byte, b: Byte, c: Byte)
    ensures High(First(a), Second(a, b)) == a && Middle(Second(a, b), Third(b, c)) == b
    ensures Low(Third(b, c), Fourth(c)) == c
  {
  }

  datatype Read = Digits(digits: seq<Digit>) | Foreign(byte: Byte)

  /** Reads symbols from left to right up to the first one that is not in the alphabet. */
  function ReadSymbols(t: seq<Byte>): Read
  {
    if t == [] then Read.Digits([])
    else
      match DigitOf(t[0])
      case None => Foreign(t[0])
      case Some(d) =>
        match ReadSymbols(t[1..])
        case Foreign(b) => Foreign(b)
        case Digits(ds) => Read.Digits([d] + ds)
  }

  /** Whole groups are read first, so a lone last symbol is never looked at. */
  function Decode(t: seq<Byte>): Decoded
  {
    var whole := if |t| % 4 == 1 then t[..|t| - 1] else t;
    match ReadSymbols(whole)
    case Foreign(b) => InvalidByte(b)
    case Digits(ds) => if |t| % 4 == 1 then InvalidLength else Ok(Bytes(ds))
  }

  ghost predicate AllSymbols(t: seq<Byte>)
  {
    forall i :: 0 <= i < |t| ==> DigitOf(t[i]).Some?
  }

  lemma {:induction false} ReadFacts(t: seq<Byte>)
    ensures match ReadSymbols(t)
            case Digits(ds) => AllSymbols(t) && Symbols(ds) == t
            case Foreign(b) => exists k :: 0 <= k < |t| && t[k] == b && DigitOf(b).None? && AllSymbols(t[..k])
  {
    if t != [] && DigitOf(t[0]).Some? {
      ReadFacts(t[1..]);
      match ReadSymbols(t[1..]) {
        case Digits(ds) =>
          var all := ReadSymbols(t).digits;
          assert Symbols(all) == [t[0]] + Symbols(ds);
        case Foreign(b) =>
          var k :| 0 <= k < |t[1..]| && t[1..][k] == b && AllSymbols(t[1..][..k]);
          assert t[k + 1] == b;
          var front := t[..k + 1];
          forall i | 0 <= i < |front| ensures DigitOf(front[i]).Some? {
            assert i > 0 ==> front[i] == t[1..][..k][i - 1];
          }
      }
    } else if t != [] {
      assert AllSymbols(t[..0]);
    }
  }

  /** Decoding succeeds exactly on alphabet symbols in a length other than 1 modulo 4. */
  lemma DecodesExactly(t: seq<Byte>)
    ensures Decode(t).Ok? <==> AllSymbols(t) && |t| % 4 != 1
    ensures Decode(t).InvalidLength? <==> |t| % 4 == 1 && AllSymbols(t[..|t| - 1])
    ensures Decode(t).InvalidByte? ==>
              exists k :: 0 <= k < |t| && t[k] == Decode(t).byte && DigitOf(t[k]).None? && AllSymbols(t[..k])
  {
    var whole := if |t| % 4 == 1 then t[..|t| - 1] else t;
    ReadFacts(whole);
    if ReadSymbols(whole).Foreign? {
      var b := ReadSymbols(whole).byte;
      var k :| 0 <= k < |whole| && whole[k] == b && DigitOf(b).None? && AllSymbols(whole[..k]);
      assert whole[..k] == t[..k] && t[k] == b;
      assert !AllSymbols(whole);
    }
  }

  // Round trips --------------------------------------------------------------------------------

  lemma {:induction false} BytesOfDigits(s: seq<Byte>, ds: seq<Digit>)
    requires ds == Digits(s)
    ensures Bytes(ds) == s
  {
    hide First, Second, Third, Fourth, High, Middle, Low;
    if |s| == 1 {
      GroupForth(s[0], 0, 0);
    } else if |s| == 2 {
      GroupForth(s[0], s[1], 0);
    } else if |s| >= 3 {
      GroupForth(s[0], s[1], s[2]);
      assert ds[4..] == Digits(s[3..]);
      BytesOfDigits(s[3..], ds[4..]);
      assert s == [s[0], s[1], s[2]] + s[3..];
    }
  }

  lemma {:induction false} DigitsCount(s: seq<Byte>)
    ensures |Digits(s)| == |s| / 3 * 4 + (if |s| % 3 == 0 then 0 else |s| % 3 + 1) && |Digits(s)| % 4 != 1
  {
    hide First, Second, Third, Fourth;
    if |s| >= 3 {
      DigitsCount(s[3..]);
    }
  }

  lemma {:induction false} ReadBack(ds: seq<Digit>)
    ensures ReadSymbols(Symbols(ds)) == Read.Digits(ds)
  {
    if ds != [] {
      SymbolsAscend(ds[0], ds[0]);
      ReadBack(ds[1..]);
      assert Symbols(ds)[1..] == Symbols(ds[1..]);
    }
  }

  lemma DecodeEncode(s: seq<Byte>)
    ensures Decode(Encode(s)) == Ok(s)
  {
    hide Digits, Bytes, ReadSymbols, Symbol;
    BytesOfDigits(s, Digits(s));
    DigitsCount(s);
    ReadBack(Digits(s));
  }

  /** The spare bits of the last group are zero. */
  predicate ZeroSpare(ds: seq<Digit>)
  {
    (|ds| % 4 == 2 ==> ds[|ds| - 1] % 16 == 0) && (|ds| % 4 == 3 ==> ds[|ds| - 1] % 4 == 0)
  }

  lemma {:induction false} DigitsOfBytes(ds: seq<Digit>, bytes: seq<Byte>)
    requires |ds| % 4 != 1 && bytes == Bytes(ds)
    ensures Digits(bytes) == ds <==> ZeroSpare(ds)
  {
    hide Digits, Bytes, First, Second, Third, Fourth, High, Middle, Low;
    if |ds| >= 4 {
      GroupOfDigits(ds);
      DigitsOfGroup(High(ds[0], ds[1]), Middle(ds[1], ds[2]), Low(ds[2], ds[3]), Bytes(ds[4..]));
      GroupBack(ds[0], ds[1], ds[2], ds[3]);
      DigitsOfBytes(ds[4..], Bytes(ds[4..]));
      assert ds == ds[..4] + ds[4..];
      assert |ds[4..]| > 0 ==> ds[4..][|ds[4..]| - 1] == ds[|ds| - 1];
    } else {
      DigitsOfShort(ds);
    }
  }

  lemma {:induction false} DigitsOfShort(ds: seq<Digit>)
    requires |ds| < 4 && |ds| != 1
    ensures Digits(Bytes(ds)) == ds <==> ZeroSpare(ds)
  {
    hide First, Second, Third, Fourth, High, Middle, Low;
    if |ds| == 2 {
      GroupBack(ds[0], ds[1], 0, 0);
    } else if |ds| == 3 {
      GroupBack(ds[0], ds[1], ds[2], 0);
    }
  }

  lemma {:induction false} BytesCount(ds: seq<Digit>)
    requires |ds| % 4 != 1
    ensures |Bytes(ds)| == |ds| / 4 * 3 + (if |ds| % 4 == 0 then 0 else |ds| % 4 - 1)
  {
    hide High, Middle, Low;
    if |ds| >= 4 {
      BytesCount(ds[4..]);
    }
  }

  lemma {:induction false} GroupOfDigits(ds: seq<Digit>)
    requires |ds| >= 4
    ensures Bytes(ds) == [High(ds[0], ds[1]), Middle(ds[1], ds[2]), Low(ds[2], ds[3])] + Bytes(ds[4..])
  {
  }

  lemma {:induction false} DigitsOfGroup(a: Byte, b: Byte, c: Byte, rest: seq<Byte>)
    ensures Digits([a, b, c] + rest) == [First(a), Second(a, b), Third(b, c), Fourth(c)] + Digits(rest)
  {
    hide First, Second, Third, Fourth;
    assert ([a, b, c] + rest)[3..] == rest;
  }

  /** A decodable string is the canonical encoding exactly when its spare bits are zero. */
  lemma {:induction false} CanonicalExactly(t: seq<Byte>)
    requires Decode(t).Ok?
    ensures ReadSymbols(t).Digits?
    ensures Encode(Decode(t).bytes) == t <==> ZeroSpare(ReadSymbols(t).digits)
    ensures |Decode(t).bytes| == |t| / 4 * 3 + (if |t| % 4 == 0 then 0 else |t| % 4 - 1)
  {
    hide Digits, Bytes, Symbol;
    var ds := ReadSymbols(t).digits;
    ReadFacts(t);
    BytesCount(ds);
    DigitsOfBytes(ds, Bytes(ds));
    if Encode(Decode(t).bytes) == t {
      ReadBack(Digits(Bytes(ds)));
    }
  }

  // Fixed-width IDs and 12-bit values ------------------------------------------------------------

  const ID_LEN: nat := 16
  const ID_ENCODED_LEN: nat := 22

  /** The identifier a path component names: only the canonical encoding is accepted. */
  function ParseId(t: seq<Byte>): Option<seq<Byte>>
  {
    if |t| != ID_ENCODED_LEN then None
    else
      match Decode(t)
      case Ok(id) => if Encode(id) != t || |id| != ID_LEN then None else Some(id)
      case _ => None
  }

  /** Accepted components and 16-byte identifiers are in one-to-one correspondence. */
  lemma ParseIdAcceptsExactlyEncodings(t: seq<Byte>, id: seq<Byte>)
    ensures ParseId(t) == Some(id) <==> |id| == ID_LEN && t == Encode(id)
  {
    if |id| == ID_LEN && t == Encode(id) {
      hide Digits, Decode;
      DigitsCount(id);
      DecodeEncode(id);
    }
  }

  function EncodeU12(v: nat): seq<Byte>
    requires v < 4096
  {
    [Symbol(v / 64), Symbol(v % 64)]
  }

  function DecodeU12(t: seq<Byte>): Option<nat>
  {
    if |t| != 2 || DigitOf(t[0]).None? || DigitOf(t[1]).None? then None
    else Some(DigitOf(t[0]).value * 64 + DigitOf(t[1]).value)
  }

  lemma U12RoundTrips(v: nat, t: seq<Byte>)
    requires v < 4096
    ensures DecodeU12(t) == Some(v) <==> t == EncodeU12(v)
  {
    SymbolsAscend(v / 64, v / 64);
    SymbolsAscend(v % 64, v % 64);
  }

  // The loops -----------------------------------------------------------------------------------

  /** The reverse table: each byte's digit, or -1 outside the alphabet. */
  method BuildReverse() returns (table: array<int>)
    ensures table.Length == 256
    ensures forall b: Byte :: table[b] == match DigitOf(b) case Some(d) => d case None => -1
  {
    AlphabetSpelled();
    table := new int[256](_ => -1);
    var i := 0;
    while i < 64
      invariant 0 <= i <= 64
      invariant forall b: Byte :: table[b] == if DigitOf(b).Some? && DigitOf(b).value < i then DigitOf(b).value else -1
    {
      SymbolsAscend(i, i);
      table[ALPHABET[i] as int] := i;
      i := i + 1;
    }
  }

  lemma Div64(n: int, q: int, r: int)
    requires n == 64 * q + r && 0 <= r < 64
    ensures n / 64 == q && n % 64 == r
  {
  }

  lemma Div256(n: int, q: int, r: int)
    requires n == 256 * q + r && 0 <= r < 256
    ensures n / 256 == q && n % 256 == r
  {
  }

  lemma Div4096(n: int, q: int, r: int)
    requires n == 4096 * q + r && 0 <= r < 4096
    ensures n / 4096 == q
  {
  }

  lemma Div65536(n: int, q: int, r: int)
    requires n == 65536 * q + r && 0 <= r < 65536
    ensures n / 65536 == q
  {
  }

  lemma Div262144(n: int, q: int, r: int)
    requires n == 262144 * q + r && 0 <= r < 262144
    ensures n / 262144 == q
  {
  }

  /** Shifting and masking a 24-bit group yields its four digits. */
  lemma ShiftedParts(n: int, d: int, u: int, v: int, w: int, p: int, q: int)
    requires 0 <= d < 64 && 0 <= u < 4 && 0 <= v < 16 && 0 <= w < 16 && 0 <= p < 4 && 0 <= q < 64
    requires n == 65536 * (4 * d + u) + 256 * (16 * v + w) + (64 * p + q)
    ensures n / 262144 % 64 == d && n / 4096 % 64 == u * 16 + v && n / 64 % 64 == w * 4 + p && n % 64 == q
  {
    Div262144(n, d, 65536 * u + 4096 * v + 256 * w + 64 * p + q);
    Div64(d, 0, d);
    Div4096(n, 64 * d + 16 * u + v, 256 * w + 64 * p + q);
    Div64(64 * d + 16 * u + v, d, 16 * u + v);
    Div64(n, 4096 * d + 1024 * u + 64 * v + 4 * w + p, q);
    Div64(4096 * d + 1024 * u + 64 * v + 4 * w + p, 64 * d + 16 * u + v, 4 * w + p);
  }

  lemma ShiftedDigits(a: Byte, b: Byte, c: Byte)
    ensures var n := a as int * 65536 + b as int * 256 + c as int;
            n / 262144 % 64 == First(a) && n / 4096 % 64 == Second(a, b) && n / 64 % 64 == Third(b, c) && n % 64 == Fourth(c)
  {
    var x, y, z := a as int, b as int, c as int;
    ShiftedParts(x * 65536 + y * 256 + z, x / 4, x % 4, y / 16, y % 16, z / 64, z % 64);
  }

  lemma SymbolsAppend(a: seq<Digit>, b: seq<Digit>)
    ensures Symbols(a + b) == Symbols(a) + Symbols(b)
  {
  }

  /** Pushes the symbols of the top `count` digits of a 24-bit group. */
  method PushGroup(a: Byte, b: Byte, c: Byte, count: nat) returns (out: seq<Byte>)
    requires 2 <= count <= 4
    ensures out == Symbols([First(a), Second(a, b), Third(b, c), Fourth(c)][..count])
  {
    var n := a as int * 65536 + b as int * 256 + c as int;
    ShiftedDigits(a, b, c);
    out := [Symbol(n / 262144 % 64), Symbol(n / 4096 % 64)];
    if count > 2 {
      out := out + [Symbol(n / 64 % 64)];
    }
    if count > 3 {
      out := out + [Symbol(n % 64)];
    }
  }

  method EncodeLoop(input: seq<Byte>) returns (out: seq<Byte>)
    ensures out == Encode(input)
  {
    hide First, Second, Third, Fourth, Symbols, Symbol;
    out := [];
    var i := 0;
    while i + 3 <= |input|
      invariant 0 <= i <= |input|
      invariant out + Symbols(Digits(input[i..])) == Encode(input)
    {
      var group := PushGroup(input[i], input[i + 1], input[i + 2], 4);
      var head := [First(input[i]), Second(input[i], input[i + 1]), Third(input[i + 1], input[i + 2]), Fourth(input[i + 2])];
      assert head[..4] == head && input[i..][3..] == input[i + 3..];
      assert Digits(input[i..]) == head + Digits(input[i + 3..]);
      SymbolsAppend(head, Digits(input[i + 3..]));
      out := out + group;
      i := i + 3;
    }
    var rest := input[i..];
    if |input| - i == 1 {
      var group := PushGroup(input[i], 0, 0, 2);
      assert Digits(rest) == [First(input[i]), Second(input[i], 0), Third(0, 0), Fourth(0)][..2];
      out := out + group;
    } else if |input| - i == 2 {
      var group := PushGroup(input[i], input[i + 1], 0, 3);
      assert Digits(rest) == [First(input[i]), Second(input[i], input[i + 1]), Third(input[i + 1], 0), Fourth(0)][..3];
      out := out + group;
    } else {
      NoSymbols();
    }
  }

  lemma NoSymbols()
    ensures Symbols([]) == []
  {
  }

  /** What reading one stretch after another comes to. */
  function Then(first: Read, next: Read): Read
  {
    match first
    case Foreign(_) => first
    case Digits(ds) => match next case Foreign(_) => next case Digits(es) => Read.Digits(ds + es)
  }

  lemma {:induction false} ReadAppend(a: seq<Byte>, b: seq<Byte>)
    ensures ReadSymbols(a + b) == Then(ReadSymbols(a), ReadSymbols(b))
  {
    if a == [] {
      assert a + b == b;
      assert ReadSymbols(b).Digits? ==> [] + ReadSymbols(b).digits == ReadSymbols(b).digits;
    } else {
      assert (a + b)[1..] == a[1..] + b;
      ReadAppend(a[1..], b);
      if DigitOf(a[0]).Some? && ReadSymbols(a[1..]).Digits? && ReadSymbols(b).Digits? {
        var d, ds, es := DigitOf(a[0]).value, ReadSymbols(a[1..]).digits, ReadSymbols(b).digits;
        assert [d] + (ds + es) == [d] + ds + es;
      }
    }
  }

  lemma {:induction false} BytesAppend(ds: seq<Digit>, es: seq<Digit>)
    requires |ds| % 4 == 0
    ensures Bytes(ds + es) == Bytes(ds) + Bytes(es)
  {
    if ds == [] {
      assert ds + es == es;
    } else {
      assert (ds + es)[4..] == ds[4..] + es;
      BytesAppend(ds[4..], es);
    }
  }

  /** Reads a stretch of symbols, stopping at the first foreign byte. */
  method ReadStretch(t: seq<Byte>) returns (r: Read)
    ensures r == ReadSymbols(t)
    ensures r.Digits? ==> |r.digits| == |t|
  {
    var ds: seq<Digit> := [];
    for i := 0 to |t|
      invariant ReadSymbols(t[..i]) == Read.Digits(ds) && |ds| == i
    {
      assert t == t[..i] + t[i..] && t[..i + 1] == t[..i] + [t[i]];
      ReadAppend(t[..i], t[i..]);
      ReadAppend(t[..i], [t[i]]);
      assert [t[i]][1..] == [];
      match DigitOf(t[i]) {
        case None => return Foreign(t[i]);
        case Some(d) => ds := ds + [d];
      }
    }
    assert t[..|t|] == t;
    r := Read.Digits(ds);
  }

  /** A group of digits joined into one 24-bit number and cut into bytes. */
  method PullGroup(ds: seq<Digit>) returns (out: seq<Byte>)
    requires 2 <= |ds| <= 4
    ensures out == Bytes(ds)
  {
    var f: Digit := if |ds| > 2 then ds[2] else 0;
    var g: Digit := if |ds| > 3 then ds[3] else 0;
    var n := ds[0] as int * 262144 + ds[1] as int * 4096 + f as int * 64 + g as int;
    ShiftedBytes(ds[0], ds[1], f, g);
    out := [n / 65536 % 256];
    if |ds| > 2 {
      out := out + [n / 256 % 256];
    }
    if |ds| > 3 {
      out := out + [n % 256];
      assert ds[4..] == [];
    }
  }

  lemma JoinedParts(n: int, d: int, e1: int, e0: int, f1: int, f0: int, g: int)
    requires 0 <= d < 64 && 0 <= e1 < 4 && 0 <= e0 < 16 && 0 <= f1 < 16 && 0 <= f0 < 4 && 0 <= g < 64
    requires n == 262144 * d + 4096 * (16 * e1 + e0) + 64 * (4 * f1 + f0) + g
    ensures n / 65536 % 256 == d * 4 + e1 && n / 256 % 256 == e0 * 16 + f1 && n % 256 == f0 * 64 + g
  {
    Div65536(n, 4 * d + e1, 4096 * e0 + 256 * f1 + 64 * f0 + g);
    Div256(4 * d + e1, 0, 4 * d + e1);
    Div256(n, 1024 * d + 256 * e1 + 16 * e0 + f1, 64 * f0 + g);
    Div256(1024 * d + 256 * e1 + 16 * e0 + f1, 4 * d + e1, 16 * e0 + f1);
  }

  lemma ShiftedBytes(d: Digit, e: Digit, f: Digit, g: Digit)
    ensures var n := d as int * 262144 + e as int * 4096 + f as int * 64 + g as int;
            n / 65536 % 256 == High(d, e) && n / 256 % 256 == Middle(e, f) && n % 256 == Low(f, g)
  {
    var x, y, z, w := d as int, e as int, f as int, g as int;
    JoinedParts(x * 262144 + y * 4096 + z * 64 + w, x, y / 16, y % 16, z / 4, z % 4, w);
  }

  method DecodeLoop(t: seq<Byte>) returns (r: Decoded)
    ensures r == Decode(t)
  {
    hide ReadSymbols, Bytes, Decode;
    NothingRead();
    var out: seq<Byte> := [];
    ghost var done: seq<Digit> := [];
    var i := 0;
    while i + 4 <= |t|
      invariant 0 <= i <= |t| && i % 4 == 0
      invariant ReadSymbols(t[..i]) == Read.Digits(done) && |done| == i && out == Bytes(done)
    {
      var group := ReadStretch(t[i..i + 4]);
      GroupRead(t, i, done);
      if group.Foreign? {
        ForeignStops(t, i + 4);
        return InvalidByte(group.byte);
      }
      BytesAppend(done, group.digits);
      var bytes := PullGroup(group.digits);
      out, done := out + bytes, done + group.digits;
      i := i + 4;
    }
    RestRead(t, i, done);
    if |t| - i == 1 {
      return InvalidLength;
    }
    if |t| == i {
      return Ok(out);
    }
    var rest := ReadStretch(t[i..]);
    if rest.Foreign? {
      return InvalidByte(rest.byte);
    }
    var bytes := PullGroup(rest.digits);
    r := Ok(out + bytes);
  }

  lemma NothingRead()
    ensures ReadSymbols([]) == Read.Digits([]) && Bytes([]) == []
  {
  }

  /** One more whole group of symbols. */
  lemma GroupRead(t: seq<Byte>, i: nat, done: seq<Digit>)
    requires i + 4 <= |t| && ReadSymbols(t[..i]) == Read.Digits(done)
    ensures ReadSymbols(t[..i + 4]) == Then(Read.Digits(done), ReadSymbols(t[i..i + 4]))
  {
    assert t[..i + 4] == t[..i] + t[i..i + 4];
    ReadAppend(t[..i], t[i..i + 4]);
  }

  /** What is left after the whole groups decides the outcome. */
  lemma {:induction false} RestRead(t: seq<Byte>, i: nat, done: seq<Digit>)
    requires i <= |t| < i + 4 && i % 4 == 0
    requires ReadSymbols(t[..i]) == Read.Digits(done) && |done| == i
    ensures |t| - i == 1 ==> Decode(t) == InvalidLength
    ensures |t| == i ==> Decode(t) == Ok(Bytes(done))
    ensures |t| - i > 1 ==>
              match ReadSymbols(t[i..])
              case Foreign(b) => Decode(t) == InvalidByte(b)
              case Digits(ds) => Decode(t) == Ok(Bytes(done) + Bytes(ds))
  {
    hide ReadSymbols, Bytes;
    assert |t| % 4 == |t| - i;
    if |t| == i {
      assert t[..i] == t;
    } else if |t| - i > 1 {
      assert t == t[..i] + t[i..];
      ReadAppend(t[..i], t[i..]);
      if ReadSymbols(t[i..]).Digits? {
        BytesAppend(done, ReadSymbols(t[i..]).digits);
      }
    }
  }

  /** A foreign byte among whole groups decides the outcome. */
  lemma ForeignStops(t: seq<Byte>, i: nat)
    requires i <= |t| && i % 4 == 0 && ReadSymbols(t[..i]).Foreign?
    ensures Decode(t) == InvalidByte(ReadSymbols(t[..i]).byte)
  {
    var whole := if |t| % 4 == 1 then t[..|t| - 1] else t;
    assert whole == t[..i] + whole[i..];
    ReadAppend(t[..i], whole[i..]);
  }
}
