/**
 The in-memory object store: conditional reads, writes and deletes on an ordered map, and
 paged listing whose cursors survive changes made between pages.
 */
module MemoryBackends {
  import opened Sequences
  import opened Lexicographic
  import opened OrderedMap

  type Path = Key
  type Contents = seq<Byte>
  type Objects = seq<Pair<Contents>>

  datatype Reply<+T> = Ok(value: T) | NotFound | Precondition | InvalidCursor | BadPrefix

  // Listing ------------------------------------------------------------------------------------

  /** A cursor is bound to its prefix; its token names the last path listed. */
  datatype Cursor = Cursor(prefix: Path, token: seq<Byte>)
  datatype Page = Page(paths: seq<Path>, next: Option<Cursor>)

  const SLASH: Byte := 47
  const MARK: seq<Byte> := [109, 58]     // "m:"

  predicate StartsWith(path: Path, prefix: Path)
  {
    prefix <= path
  }

  predicate ValidPrefix(prefix: Path)
  {
    prefix == [] || prefix[|prefix| - 1] == SLASH
  }

  function EncodeCursor(prefix: Path, last: Path): Cursor
  {
    Cursor(prefix, MARK + last)
  }

  function DecodeCursor(prefix: Path, token: seq<Byte>): Option<Path>
  {
    if !(MARK <= token) then None
    else
      var last := token[|MARK|..];
      if StartsWith(last, prefix) then Some(last) else None
  }

  function Keys(objects: Objects): seq<Path>
  {
    seq(|objects|, i requires 0 <= i < |objects| => objects[i].key)
  }

  /** Where a listing starts: at the prefix, or after the last path of the previous page. */
  predicate AtOrPast(path: Path, prefix: Path, after: Option<Path>)
  {
    match after case None => !Less(path, prefix) case Some(last) => Less(last, path)
  }

  /** The range of keys from the start on. */
  function From(keys: seq<Path>, prefix: Path, after: Option<Path>): seq<Path>
  {
    if keys == [] || AtOrPast(keys[0], prefix, after) then keys else From(keys[1..], prefix, after)
  }

  function TakeWhile(keys: seq<Path>, prefix: Path): seq<Path>
  {
    if keys == [] || !StartsWith(keys[0], prefix) then [] else [keys[0]] + TakeWhile(keys[1..], prefix)
  }

  function Matches(objects: Objects, prefix: Path, after: Option<Path>): seq<Path>
  {
    TakeWhile(From(Keys(objects), prefix, after), prefix)
  }

  function MakePage(matches: seq<Path>, prefix: Path, limit: nat): Page
    requires limit > 0
  {
    if |matches| <= limit then Page(matches, None)
    else Page(matches[..limit], Some(EncodeCursor(prefix, matches[limit - 1])))
  }

  function List(objects: Objects, prefix: Path, cursor: Option<Cursor>, limit: nat): Reply<Page>
    requires limit > 0
  {
    if !ValidPrefix(prefix) then BadPrefix
    else if cursor.None? then Ok(MakePage(Matches(objects, prefix, None), prefix, limit))
    else if cursor.value.prefix != prefix then InvalidCursor
    else
      match DecodeCursor(prefix, cursor.value.token)
      case None => InvalidCursor
      case Some(last) => Ok(MakePage(Matches(objects, prefix, Some(last)), prefix, limit))
  }

  /** A page is the front of what matches: all of it, or as many as the limit and a cursor for the rest. */
  lemma PagesFillTheLimit(matches: seq<Path>, prefix: Path, limit: nat)
    requires limit > 0
    ensures var page := MakePage(matches, prefix, limit);
            && page.paths <= matches && |page.paths| <= limit
            && (page.next.None? <==> page.paths == matches)
            && (page.next.Some? ==> |page.paths| == limit && page.next.value == EncodeCursor(prefix, page.paths[limit - 1]))
  {
  }

  ghost predicate Ascending(paths: seq<Path>)
  {
    forall i, j :: 0 <= i < j < |paths| ==> Less(paths[i], paths[j])
  }

  // What a page is made of: all matching keys, although the scan stops at the first mismatch --------

  /** Every key that has the prefix and comes after the cursor. */
  ghost predicate Wanted(path: Path, prefix: Path, after: Option<Path>)
  {
    StartsWith(path, prefix) && (after.Some? ==> Less(after.value, path))
  }

  lemma {:induction false} PrefixNotAbove(path: Path, prefix: Path)
    requires StartsWith(path, prefix)
    ensures !Less(path, prefix)
  {
    if prefix != [] {
      PrefixNotAbove(path[1..], prefix[1..]);
    }
  }

  /** Paths with a common prefix are contiguous: what lies between two of them has it too. */
  lemma {:induction false} BetweenSharesPrefix(a: Path, b: Path, prefix: Path)
    requires !Less(a, prefix) && StartsWith(b, prefix) && (a == b || Less(a, b))
    ensures StartsWith(a, prefix)
  {
    if prefix != [] && a != b {
      assert a != [];
      assert a[0] == b[0] == prefix[0];
      BetweenSharesPrefix(a[1..], b[1..], prefix[1..]);
      assert a == [a[0]] + a[1..] && prefix == [prefix[0]] + prefix[1..];
    }
  }

  lemma {:induction false} FromFacts(keys: seq<Path>, prefix: Path, after: Option<Path>)
    requires Ascending(keys)
    ensures Ascending(From(keys, prefix, after))
    ensures forall k :: k in From(keys, prefix, after) <==> k in keys && AtOrPast(k, prefix, after)
  {
    if keys != [] {
      var rest := keys[1..];
      assert keys == [keys[0]] + rest;
      if AtOrPast(keys[0], prefix, after) {
        forall k | k in keys ensures AtOrPast(k, prefix, after) {
          if k != keys[0] {
            var i :| 0 < i < |keys| && keys[i] == k;
            StaysPast(keys[0], k, prefix, after);
          }
        }
      } else {
        FromFacts(rest, prefix, after);
      }
    }
  }

  lemma {:induction false} StaysPast(a: Path, b: Path, prefix: Path, after: Option<Path>)
    requires AtOrPast(a, prefix, after) && Less(a, b)
    ensures AtOrPast(b, prefix, after)
  {
    match after
    case None =>
      if Less(b, prefix) {
        LessTransitive(a, b, prefix);
      }
    case Some(last) => LessTransitive(last, a, b);
  }

  lemma {:induction false} TakeWhileFacts(keys: seq<Path>, prefix: Path)
    requires Ascending(keys) && forall k :: k in keys ==> !Less(k, prefix)
    ensures TakeWhile(keys, prefix) <= keys
    ensures forall k :: k in TakeWhile(keys, prefix) <==> k in keys && StartsWith(k, prefix)
  {
    if keys != [] {
      var rest := keys[1..];
      assert keys == [keys[0]] + rest;
      if StartsWith(keys[0], prefix) {
        TakeWhileFacts(rest, prefix);
      } else {
        forall k | k in keys && StartsWith(k, prefix) ensures false {
          var i :| 0 <= i < |keys| && keys[i] == k;
          BetweenSharesPrefix(keys[0], k, prefix);
        }
      }
    }
  }

  lemma {:induction false} KeysAscend(objects: Objects)
    requires Ordered(objects)
    ensures Ascending(Keys(objects))
    ensures forall k :: k in Keys(objects) <==> Lookup(objects, k).Some?
  {
    forall k ensures k in Keys(objects) <==> Lookup(objects, k).Some? {
      LookupMissing(objects, k);
      if k in Keys(objects) {
        var i :| 0 <= i < |objects| && Keys(objects)[i] == k;
        assert objects[i].key == k;
      }
      if Lookup(objects, k).Some? {
        var i :| 0 <= i < |objects| && objects[i] == Pair(k, Lookup(objects, k).value);
        assert Keys(objects)[i] == k;
      }
    }
  }

  /** A cursor's path has the prefix, so everything after it is at or past the prefix. */
  lemma {:induction false} AfterIsPast(path: Path, prefix: Path, last: Path)
    requires StartsWith(last, prefix) && Less(last, path)
    ensures !Less(path, prefix)
  {
    PrefixNotAbove(last, prefix);
    if Less(path, prefix) {
      LessTransitive(last, path, prefix);
    }
  }

  /** The scan finds, in order, exactly the stored paths that are wanted. */
  lemma {:induction false} MatchesExactly(objects: Objects, prefix: Path, after: Option<Path>)
    requires Ordered(objects) && (after.Some? ==> StartsWith(after.value, prefix))
    ensures Ascending(Matches(objects, prefix, after))
    ensures forall k :: k in Matches(objects, prefix, after) <==> Lookup(objects, k).Some? && Wanted(k, prefix, after)
  {
    hide Lookup, From, TakeWhile;
    var range := From(Keys(objects), prefix, after);
    KeysAscend(objects);
    FromFacts(Keys(objects), prefix, after);
    forall k | k in range ensures !Less(k, prefix) {
      if after.Some? {
        AfterIsPast(k, prefix, after.value);
      }
    }
    TakeWhileFacts(range, prefix);
    forall k ensures k in Matches(objects, prefix, after) <==> Lookup(objects, k).Some? && Wanted(k, prefix, after) {
      if StartsWith(k, prefix) {
        PrefixNotAbove(k, prefix);
      }
    }
  }

  /** The cursors accepted for a prefix are exactly those that name a path with that prefix after "m:". */
  lemma CursorsExactly(prefix: Path, token: seq<Byte>, last: Path)
    ensures DecodeCursor(prefix, token) == Some(last) <==> token == [109, 58] + last && prefix <= last
  {
    assert token == [109, 58] + last ==> token[2..] == last;
    assert [109, 58] <= token ==> token == [109, 58] + token[2..];
  }

  /** A call is refused exactly for a prefix that ends inside a name, or for a cursor of another listing. */
  lemma ListRefusesExactly(objects: Objects, prefix: Path, cursor: Option<Cursor>, limit: nat)
    requires limit > 0
    ensures var r := List(objects, prefix, cursor, limit);
            && (r.Ok? || r == BadPrefix || r == InvalidCursor)
            && (r == BadPrefix <==> prefix != [] && prefix[|prefix| - 1] != SLASH)
            && (r.Ok? <==>
                  && r != BadPrefix
                  && (cursor.Some? ==>
                        cursor.value.prefix == prefix &&
                        exists last :: prefix <= last && cursor.value.token == [109, 58] + last))
  {
    if cursor.Some? {
      var token := cursor.value.token;
      if DecodeCursor(prefix, token).Some? {
        CursorsExactly(prefix, token, DecodeCursor(prefix, token).value);
      } else if last :| prefix <= last && token == [109, 58] + last {
        CursorsExactly(prefix, token, last);
      }
    }
  }

  lemma CursorRoundTrips(prefix: Path, last: Path)
    requires StartsWith(last, prefix)
    ensures DecodeCursor(prefix, EncodeCursor(prefix, last).token) == Some(last)
  {
    assert (MARK + last)[|MARK|..] == last;
  }

  // Listing page by page while the store changes -----------------------------------------------------

  /** One call: the store's contents when it is made, and its limit. */
  datatype Call = Call(objects: Objects, limit: nat)

  /** What a listing collects: the paths so far, and whether it came to an end. */
  datatype Listing = Listing(paths: seq<Path>, complete: bool)

  /** Listing as a client does it: each page's cursor goes into the next call. */
  function Walk(calls: seq<Call>, prefix: Path, cursor: Option<Cursor>): Reply<Listing>
    requires forall i :: 0 <= i < |calls| ==> calls[i].limit > 0
    decreases |calls|
  {
    if calls == [] then Ok(Listing([], false))
    else
      match List(calls[0].objects, prefix, cursor, calls[0].limit)
      case Ok(page) =>
        (if page.next.None? then Ok(Listing(page.paths, true))
         else
           match Walk(calls[1..], prefix, page.next)
           case Ok(rest) => Ok(Listing(page.paths + rest.paths, rest.complete))
           case error => error)
      case NotFound => NotFound
      case Precondition => Precondition
      case InvalidCursor => InvalidCursor
      case BadPrefix => BadPrefix
  }

  /** The same without cursors: each call goes on from the last path of the page before. */
  function Continue(calls: seq<Call>, prefix: Path, after: Option<Path>): Listing
    requires forall i :: 0 <= i < |calls| ==> calls[i].limit > 0
    decreases |calls|
  {
    if calls == [] then Listing([], false)
    else
      var page := MakePage(Matches(calls[0].objects, prefix, after), prefix, calls[0].limit);
      match page.next
      case None => Listing(page.paths, true)
      case Some(cursor) =>
        var rest := Continue(calls[1..], prefix, Some(page.paths[calls[0].limit - 1]));
        Listing(page.paths + rest.paths, rest.complete)
  }

  /** Passing each page's cursor to the next call is listing on from the last path. */
  lemma CursorContinues(objects: Objects, prefix: Path, last: Path, limit: nat)
    requires limit > 0 && ValidPrefix(prefix) && StartsWith(last, prefix)
    ensures List(objects, prefix, Some(EncodeCursor(prefix, last)), limit) ==
            Ok(MakePage(Matches(objects, prefix, Some(last)), prefix, limit))
  {
    CursorRoundTrips(prefix, last);
  }

  function CursorAfter(prefix: Path, after: Option<Path>): Option<Cursor>
  {
    match after case None => None case Some(last) => Some(EncodeCursor(prefix, last))
  }

  /** A client's cursors are always accepted, and lose nothing of where the page before ended. */
  lemma {:induction false} WalkContinues(calls: seq<Call>, prefix: Path, after: Option<Path>)
    requires ValidCalls(calls) && ValidPrefix(prefix) && (after.Some? ==> StartsWith(after.value, prefix))
    ensures Walk(calls, prefix, CursorAfter(prefix, after)) == Ok(Continue(calls, prefix, after))
    decreases |calls|
  {
    hide Matches, Less;
    if calls != [] {
      var matches, limit := Matches(calls[0].objects, prefix, after), calls[0].limit;
      if after.Some? {
        CursorContinues(calls[0].objects, prefix, after.value, limit);
      }
      MatchesExactly(calls[0].objects, prefix, after);
      if |matches| > limit {
        assert matches[limit - 1] in matches;
        WalkContinues(calls[1..], prefix, Some(matches[limit - 1]));
      }
    }
  }

  /** Only the prefix can be refused, and then the first call does it. */
  lemma {:induction false} WalkNeedsPrefix(calls: seq<Call>, prefix: Path)
    requires ValidCalls(calls) && calls != []
    ensures if ValidPrefix(prefix) then Walk(calls, prefix, None) == Ok(Continue(calls, prefix, None))
            else Walk(calls, prefix, None) == BadPrefix
  {
    hide Matches, Less, Continue;
    if ValidPrefix(prefix) {
      WalkContinues(calls, prefix, None);
    }
  }

  ghost predicate Present(calls: seq<Call>, path: Path)
  {
    forall i :: 0 <= i < |calls| ==> Lookup(calls[i].objects, path).Some?
  }

  ghost predicate ValidCalls(calls: seq<Call>)
  {
    forall i :: 0 <= i < |calls| ==> calls[i].limit > 0 && Ordered(calls[i].objects)
  }

  /** Up to the last path of a full page, the page is all there is. */
  lemma {:induction false} PageIsComplete(matches: seq<Path>, limit: nat, k: Path)
    requires Ascending(matches) && 0 < limit < |matches| && k in matches
    ensures k in matches[..limit] || Less(matches[limit - 1], k)
  {
    var i :| 0 <= i < |matches| && matches[i] == k;
    if i < limit {
      assert matches[..limit][i] == k;
    }
  }

  lemma AscendingAppend(a: seq<Path>, b: seq<Path>)
    requires Ascending(a) && Ascending(b)
    requires a != [] && forall y :: y in b ==> Less(a[|a| - 1], y)
    ensures Ascending(a + b)
  {
    forall i, j | 0 <= i < j < |a + b| ensures Less((a + b)[i], (a + b)[j]) {
      if i < |a| <= j {
        var y := b[j - |a|];
        assert y in b;
        if i < |a| - 1 {
          LessTransitive(a[i], a[|a| - 1], y);
        }
      }
    }
  }

  /**
   However the store changes between pages, the listing is strictly ascending, lists only
   wanted paths, and if it comes to an end it has every path that was there all along.
   */
  lemma {:induction false} ContinueFacts(calls: seq<Call>, prefix: Path, after: Option<Path>)
    requires ValidCalls(calls) && (after.Some? ==> StartsWith(after.value, prefix))
    ensures var l := Continue(calls, prefix, after);
            && Ascending(l.paths)
            && (forall k :: k in l.paths ==> Wanted(k, prefix, after))
            && (l.complete ==> forall k :: Wanted(k, prefix, after) && Present(calls, k) ==> k in l.paths)
    decreases |calls|
  {
    hide Matches, Lookup, Less;
    if calls != [] {
      var matches, limit := Matches(calls[0].objects, prefix, after), calls[0].limit;
      MatchesExactly(calls[0].objects, prefix, after);
      if |matches| > limit {
        var head, last := matches[..limit], matches[limit - 1];
        assert last in matches && head[limit - 1] == last;
        assert MakePage(matches, prefix, limit).paths == head;
        ContinueFacts(calls[1..], prefix, Some(last));
        var rest := Continue(calls[1..], prefix, Some(last));
        AscendingAppend(head, rest.paths);
        forall k | k in head + rest.paths ensures Wanted(k, prefix, after) {
          if k in rest.paths && after.Some? {
            LessTransitive(after.value, last, k);
          }
        }
        if rest.complete {
          forall k | Wanted(k, prefix, after) && Present(calls, k) ensures k in head + rest.paths {
            assert k in matches;
            PageIsComplete(matches, limit, k);
            assert Present(calls[1..], k);
          }
        }
      } else {
        forall k | Wanted(k, prefix, after) && Present(calls, k) ensures k in matches {
          assert Lookup(calls[0].objects, k).Some?;
        }
      }
    }
  }

  lemma AscendingOnce(paths: seq<Path>, k: Path)
    requires Ascending(paths) && k in paths
    ensures multiset(paths)[k] == 1
  {
    var i :| 0 <= i < |paths| && paths[i] == k;
    assert paths == paths[..i] + [k] + paths[i + 1..];
    forall j | 0 <= j < |paths| && j != i ensures paths[j] != k {
      IrreflexiveLess(k);
    }
    assert k !in paths[..i] && k !in paths[i + 1..];
  }

  /** A complete listing has every path that was present throughout exactly once, in order. */
  lemma {:induction false} PagedListingIsComplete(calls: seq<Call>, prefix: Path, listing: Listing, k: Path)
    requires ValidCalls(calls) && Walk(calls, prefix, None) == Ok(listing) && listing.complete
    ensures Ascending(listing.paths)
    ensures StartsWith(k, prefix) && Present(calls, k) ==> multiset(listing.paths)[k] == 1
    ensures k in listing.paths ==> StartsWith(k, prefix)
  {
    hide Continue;
    WalkNeedsPrefix(calls, prefix);
    ContinueFacts(calls, prefix, None);
    if k in listing.paths {
      AscendingOnce(listing.paths, k);
    }
  }

  /** With no changes between pages, listing page by page is the one sorted scan. */
  lemma {:induction false} QuietListing(calls: seq<Call>, objects: Objects, prefix: Path, after: Option<Path>, k: Path)
    requires Ordered(objects) && ValidCalls(calls) && forall i :: 0 <= i < |calls| ==> calls[i].objects == objects
    requires after.Some? ==> StartsWith(after.value, prefix)
    requires Continue(calls, prefix, after).complete
    ensures k in Continue(calls, prefix, after).paths <==> Lookup(objects, k).Some? && Wanted(k, prefix, after)
    decreases |calls|
  {
    hide Matches, Lookup, Less;
    ContinueFacts(calls, prefix, after);
    MatchesExactly(objects, prefix, after);
    var matches, limit := Matches(objects, prefix, after), calls[0].limit;
    if |matches| > limit {
      var last := matches[limit - 1];
      assert last in matches;
      QuietListing(calls[1..], objects, prefix, Some(last), k);
    }
    if Lookup(objects, k).Some? && Wanted(k, prefix, after) {
      assert Present(calls, k);
    }
  }

  /** Ascending sequences with the same members are the same. */
  lemma {:induction false} AscendingUnique(a: seq<Path>, b: seq<Path>)
    requires Ascending(a) && Ascending(b) && forall k :: k in a <==> k in b
    ensures a == b
  {
    if a == [] || b == [] {
      var k := if a != [] then a[0] else if b != [] then b[0] else [];
      assert k in a <==> k in b;
    } else {
      FirstIsLeast(a, b);
      FirstIsLeast(b, a);
      LessTotal(a[0], b[0]);
      forall k ensures k in a[1..] <==> k in b[1..] {
        TailMembers(a, k);
        TailMembers(b, k);
      }
      AscendingUnique(a[1..], b[1..]);
      assert a == [a[0]] + a[1..] && b == [b[0]] + b[1..];
    }
  }

  lemma FirstIsLeast(a: seq<Path>, b: seq<Path>)
    requires Ascending(a) && a != [] && b != [] && b[0] in a
    ensures !Less(b[0], a[0])
  {
    var i :| 0 <= i < |a| && a[i] == b[0];
    if i == 0 {
      IrreflexiveLess(a[0]);
    } else {
      LessAsymmetric(a[0], a[i]);
    }
  }

  lemma TailMembers(a: seq<Path>, k: Path)
    requires Ascending(a) && a != []
    ensures k in a[1..] <==> k in a && k != a[0]
  {
    assert a == [a[0]] + a[1..];
    if k in a[1..] {
      var i :| 0 <= i < |a[1..]| && a[1..][i] == k;
      IrreflexiveLess(a[0]);
      assert Less(a[0], a[i + 1]);
    }
  }

  /** So a quiet listing, whatever its page limits, is the sorted sequence of the keys with the prefix. */
  lemma {:induction false} QuietListingIsTheScan(calls: seq<Call>, objects: Objects, prefix: Path, listing: Listing)
    requires Ordered(objects) && ValidCalls(calls) && forall i :: 0 <= i < |calls| ==> calls[i].objects == objects
    requires Walk(calls, prefix, None) == Ok(listing) && listing.complete
    ensures listing.paths == Matches(objects, prefix, None)
    ensures forall k :: k in Matches(objects, prefix, None) <==> Lookup(objects, k).Some? && StartsWith(k, prefix)
  {
    hide Continue, Matches, Lookup, Less;
    WalkNeedsPrefix(calls, prefix);
    ContinueFacts(calls, prefix, None);
    MatchesExactly(objects, prefix, None);
    forall k ensures k in Continue(calls, prefix, None).paths <==> k in Matches(objects, prefix, None) {
      QuietListing(calls, objects, prefix, None, k);
    }
    AscendingUnique(Continue(calls, prefix, None).paths, Matches(objects, prefix, None));
  }

  // Conditional operations ---------------------------------------------------------------------------

  function Remove<V>(ps: seq<Pair<V>>, k: Key): seq<Pair<V>>
  {
    if ps == [] then [] else if ps[0].key == k then ps[1..] else [ps[0]] + Remove(ps[1..], k)
  }

  lemma {:induction false} RemoveFacts<V(!new)>(ps: seq<Pair<V>>, k: Key)
    requires Ordered(ps)
    ensures Ordered(Remove(ps, k))
    ensures forall x :: Lookup(Remove(ps, k), x) == if x == k then None else Lookup(ps, x)
    ensures forall p :: p in Remove(ps, k) ==> p in ps
  {
    if ps != [] {
      OrderedTail(ps);
      if ps[0].key == k {
        forall x ensures Lookup(ps[1..], x) == if x == k then None else Lookup(ps, x) {
          TailLookup(ps, x);
        }
      } else {
        RemoveFacts(ps[1..], k);
        var rest := Remove(ps[1..], k);
        forall x ensures Lookup([ps[0]] + rest, x) == if x == k then None else Lookup(ps, x) {
          assert ([ps[0]] + rest)[1..] == rest;
        }
        if rest != [] {
          assert rest[0] in rest;
        }
        ConsOrdered(ps[0], rest);
      }
    }
  }

  class MemoryBackend {
    var objects: Objects
    const revision: Contents -> seq<Byte>     // the content hash, as a token

    ghost predicate Valid()
      reads this
    {
      Ordered(objects)
    }

    constructor (revision: Contents -> seq<Byte>)
      ensures Valid() && objects == [] && this.revision == revision
    {
      objects := [];
      this.revision := revision;
    }

    method Read(path: Path) returns (r: Reply<(Contents, seq<Byte>)>)
      ensures r == match Lookup(objects, path) case None => NotFound case Some(c) => Ok((c, revision(c)))
    {
      match Lookup(objects, path) {
        case None => r := NotFound;
        case Some(c) => r := Ok((c, revision(c)));
      }
    }

    method ReadIfModified(path: Path, expected: seq<Byte>) returns (r: Reply<(Contents, seq<Byte>)>)
      ensures match Lookup(objects, path)
              case None => r == NotFound
              case Some(c) => r == if revision(c) == expected then Precondition else Ok((c, revision(c)))
    {
      r := Read(path);
      if r.Ok? && r.value.1 == expected {
        r := Precondition;
      }
    }

    /** Replaces the contents only if the object is there with the expected revision. */
    method WriteIf(path: Path, value: Contents, expected: seq<Byte>) returns (r: Reply<seq<Byte>>)
      requires Valid()
      modifies this`objects
      ensures Valid()
      ensures match Lookup(old(objects), path)
              case None => r == NotFound && objects == old(objects)
              case Some(c) =>
                if revision(c) != expected then r == Precondition && objects == old(objects)
                else r == Ok(revision(value)) &&
                     forall x :: Lookup(objects, x) == if x == path then Some(value) else Lookup(old(objects), x)
    {
      match Lookup(objects, path) {
        case None => r := NotFound;
        case Some(c) =>
          if revision(c) != expected {
            return Precondition;
          }
          r := Store(path, value);
      }
    }

    method WriteIfNotExists(path: Path, value: Contents) returns (r: Reply<seq<Byte>>)
      requires Valid()
      modifies this`objects
      ensures Valid()
      ensures if Lookup(old(objects), path).Some? then r == Precondition && objects == old(objects)
              else r == Ok(revision(value)) &&
                   forall x :: Lookup(objects, x) == if x == path then Some(value) else Lookup(old(objects), x)
    {
      if Lookup(objects, path).Some? {
        return Precondition;
      }
      r := Store(path, value);
    }

    method Store(path: Path, value: Contents) returns (r: Reply<seq<Byte>>)
      requires Valid()
      modifies this`objects
      ensures Valid() && r == Ok(revision(value))
      ensures forall x :: Lookup(objects, x) == if x == path then Some(value) else Lookup(old(objects), x)
    {
      PutOrdered(objects, path, value);
      forall x ensures Lookup(Put(objects, path, value), x) == if x == path then Some(value) else Lookup(objects, x) {
        PutLookup(objects, path, value, x);
      }
      objects := Put(objects, path, value);
      r := Ok(revision(value));
    }

    method DeleteIf(path: Path, expected: seq<Byte>) returns (r: Reply<()>)
      requires Valid()
      modifies this`objects
      ensures Valid()
      ensures match Lookup(old(objects), path)
              case None => r == NotFound && objects == old(objects)
              case Some(c) =>
                if revision(c) != expected then r == Precondition && objects == old(objects)
                else r == Ok(()) &&
                     forall x :: Lookup(objects, x) == if x == path then None else Lookup(old(objects), x)
    {
      match Lookup(objects, path) {
        case None => r := NotFound;
        case Some(c) =>
          if revision(c) != expected {
            return Precondition;
          }
          RemoveFacts(objects, path);
          objects := Remove(objects, path);
          r := Ok(());
      }
    }

    /** One page: reads only the range it needs, and stops at the first path without the prefix. */
    method ListPage(prefix: Path, cursor: Option<Cursor>, limit: nat) returns (r: Reply<Page>)
      requires limit > 0
      ensures r == List(objects, prefix, cursor, limit)
    {
      hide TakeWhile, From, Keys, EncodeCursor;
      if !ValidPrefix(prefix) {
        return BadPrefix;
      }
      var after: Option<Path> := None;
      if cursor.Some? {
        if cursor.value.prefix != prefix {
          return InvalidCursor;
        }
        after := DecodeCursor(prefix, cursor.value.token);
        if after.None? {
          return InvalidCursor;
        }
      }
      var paths, more := ScanPage(From(Keys(objects), prefix, after), prefix, limit);
      r := Ok(Page(paths, if more then Some(EncodeCursor(prefix, paths[|paths| - 1])) else None));
    }

    /** Takes matching keys up to the limit and looks whether another one follows. */
    method ScanPage(range: seq<Path>, prefix: Path, limit: nat) returns (paths: seq<Path>, more: bool)
      requires limit > 0
      ensures var all := TakeWhile(range, prefix);
              paths == (if |all| <= limit then all else all[..limit]) && (more <==> |all| > limit)
    {
      paths := [];
      var i := 0;
      while i < |range| && StartsWith(range[i], prefix) && i < limit
        invariant 0 <= i <= |range| && i == |paths| <= limit
        invariant TakeWhile(range, prefix) == paths + TakeWhile(range[i..], prefix)
      {
        assert range[i..][1..] == range[i + 1..];
        paths := paths + [range[i]];
        i := i + 1;
      }
      more := i < |range| && StartsWith(range[i], prefix);
    }
  }
}
