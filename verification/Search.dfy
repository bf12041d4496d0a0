/**
Finding a needle in a cord chunk by chunk (`find` and what it is made of in cord.rs).
*/
module Search {
  import opened Heap
  import opened Substrings
  import opened ChunkLists
  import opened ChunkIters
  import opened Comparing

  /** `needle` occurs in `hay` at `p`. */
  ghost predicate Occurs(hay: seq<byte>, needle: seq<byte>, p: nat) {
    p + |needle| <= |hay| && hay[p..p + |needle|] == needle
  }

  /** `needle` does not occur at any position in `[from, to)`. */
  ghost predicate NoneIn(hay: seq<byte>, needle: seq<byte>, from: int, to: int) {
    forall p: nat :: from <= p < to ==> !Occurs(hay, needle, p)
  }

  /** The position of the first occurrence, or none. */
  ghost predicate IsFirst(hay: seq<byte>, needle: seq<byte>, r: Option<nat>) {
    && (r.Some? ==> Occurs(hay, needle, r.value) && NoneIn(hay, needle, 0, r.value))
    && (r.None? ==> NoneIn(hay, needle, 0, |hay| + 1))
  }

  /** What a search returns, spelt out. */
  lemma FirstIs(hay: seq<byte>, needle: seq<byte>, r: Option<nat>)
    ensures IsFirst(hay, needle, r) && r.Some? ==>
      r.value + |needle| <= |hay| && hay[r.value..r.value + |needle|] == needle
    ensures IsFirst(hay, needle, r) ==> forall before, after ::
      hay == before + needle + after ==> r.Some? && r.value <= |before|
  {
    forall before: seq<byte>, after: seq<byte> | IsFirst(hay, needle, r) && hay == before + needle + after
      ensures r.Some? && r.value <= |before|
    {
      assert hay[|before|..|before| + |needle|] == needle;
      assert Occurs(hay, needle, |before|);
    }
  }

  /** The first occurrence within one chunk (`memmem`). */
  method FindInChunk(chunk: seq<byte>, needle: seq<byte>) returns (r: Option<nat>)
    ensures IsFirst(chunk, needle, r)
  {
    var i := 0;
    while i + |needle| <= |chunk|
      invariant NoneIn(chunk, needle, 0, i)
      decreases |chunk| - i
    {
      if chunk[i..i + |needle|] == needle {
        r := Some(i);
        return;
      }
      i := i + 1;
    }
    r := None;
  }

  /** The first place of `b` in `chunk[from..to]` (`memchr`). */
  method FindByte(b: byte, chunk: seq<byte>, from: nat, to: nat) returns (r: Option<nat>)
    requires from <= to <= |chunk|
    ensures r.Some? ==> from <= r.value < to && chunk[r.value] == b && forall q :: from <= q < r.value ==> chunk[q] != b
    ensures r.None? ==> forall q :: from <= q < to ==> chunk[q] != b
  {
    var i := from;
    while i < to
      invariant from <= i <= to && forall q :: from <= q < i ==> chunk[q] != b
    {
      if chunk[i] == b {
        r := Some(i);
        return;
      }
      i := i + 1;
    }
    r := None;
  }

  /** A copy of a forward position. */
  method CloneOf(it: ForwardChunks) returns (copy: ForwardChunks)
    requires it.Valid()
    ensures fresh(copy) && copy.Valid() && copy.all == it.all
    ensures copy.lo == it.lo && copy.hi == it.hi && copy.at == it.at && copy.current == it.current
  {
    copy := new ForwardChunks(it.all);
    copy.at, copy.current, copy.remaining := it.at, it.current, it.remaining;
    copy.lo, copy.hi := it.lo, it.hi;
  }

  /** The bytes at a position begin with the position's chunk. */
  lemma ChunkIsNext(it: ForwardChunks)
    requires it.Valid()
    ensures it.current <= it.Rest() && |it.Rest()| == it.remaining && (it.current == [] <==> it.Rest() == [])
  {
    if it.remaining > 0 {
      it.FrontChunk();
    }
  }

  /** Whether the bytes at `position`, which is used up, start with `needle`. */
  method IsSliceAt(position: ForwardChunks, needle0: seq<byte>) returns (r: bool)
    requires position.Valid() && needle0 != []
    modifies position
    ensures r <==> needle0 <= old(position.Rest())
  {
    hide Flatten, Start;
    var needle := needle0;
    ghost var hay := position.Rest();
    ghost var k: nat := 0;
    while true
      invariant position.Valid() && needle != []
      invariant k <= |needle0| && needle == needle0[k..] && k <= |hay| && position.Rest() == hay[k..]
      invariant hay[..k] == needle0[..k]
      decreases |needle|
    {
      ChunkIsNext(position);
      var chunk := position.current;
      if chunk == [] {
        return false;
      }
      var n := if |chunk| < |needle| then |chunk| else |needle|;
      Matches(hay, needle0, k, chunk, n);
      if chunk[..n] != needle[..n] {
        return false;
      }
      needle := needle[n..];
      if needle == [] {
        return true;
      }
      position.AdvanceBytes(n);
      k := k + n;
    }
  }

  /** Comparing the part of a needle that lies within a chunk. */
  lemma Matches(hay: seq<byte>, needle: seq<byte>, k: nat, chunk: seq<byte>, n: nat)
    requires k <= |needle| && k <= |hay| && hay[..k] == needle[..k] && chunk <= hay[k..]
    requires n <= |chunk| && n <= |needle| - k
    ensures chunk[..n] == needle[k..][..n] ==> hay[..k + n] == needle[..k + n]
    ensures chunk[..n] != needle[k..][..n] ==> !(needle <= hay)
    ensures hay[k..k + n] == chunk[..n]
  {
    assert hay[k..][..n] == chunk[..n];
    assert hay[k..k + n] == hay[k..][..n];
    assert hay[..k + n] == hay[..k] + hay[k..k + n];
    assert needle[..k + n] == needle[..k] + needle[k..][..n];
    if needle <= hay {
      assert hay[k..k + n] == needle[k..][..n];
    }
  }

  /** Whether the bytes at `hay`, which is used up, start with the chunks of `needle`. */
  method IsSubcordAt(hay: ForwardChunks, needle: seq<seq<byte>>) returns (r: bool)
    requires hay.Valid()
    modifies hay
    ensures r <==> Flatten(needle) <= old(hay.Rest())
  {
    hide Flatten, Start;
    ghost var bytes := hay.Rest();
    ghost var all := Flatten(needle);
    ghost var k: nat := 0;
    var i := 0;
    StartEnds(needle);
    r := true;
    while i < |needle| && r
      invariant 0 <= i <= |needle| && hay.Valid()
      invariant !r ==> !(all <= bytes)
      invariant r ==>
        k == Start(needle, i) <= |bytes| && k <= |all| && hay.Rest() == bytes[k..] && bytes[..k] == all[..k]
    {
      ChunkAt(needle, i);
      r := MatchPiece(hay, needle[i], bytes, all, k);
      k := k + |needle[i]|;
      i := i + 1;
    }
  }

  /** Consumes `piece`, a part of the needle, if it comes next. */
  method MatchPiece(hay: ForwardChunks, piece0: seq<byte>, ghost bytes: seq<byte>, ghost all: seq<byte>, ghost k0: nat)
    returns (r: bool)
    requires hay.Valid() && k0 + |piece0| <= |all| && k0 <= |bytes| && all[k0..k0 + |piece0|] == piece0
    requires hay.Rest() == bytes[k0..] && bytes[..k0] == all[..k0]
    modifies hay
    ensures hay.Valid()
    ensures !r ==> !(all <= bytes)
    ensures r ==>
      k0 + |piece0| <= |bytes| && hay.Rest() == bytes[k0 + |piece0|..] && bytes[..k0 + |piece0|] == all[..k0 + |piece0|]
  {
    hide Flatten, Start;
    var piece := piece0;
    ghost var k, end := k0, k0 + |piece0|;
    while piece != []
      invariant hay.Valid()
      invariant k + |piece| == end && k <= |bytes| && piece == all[k..end]
      invariant hay.Rest() == bytes[k..] && bytes[..k] == all[..k]
      decreases |piece|
    {
      ChunkIsNext(hay);
      var chunk := hay.current;
      if chunk == [] {
        return false;
      }
      var n := if |chunk| < |piece| then |chunk| else |piece|;
      Matches(bytes, all, k, chunk, n);
      PieceOf(all, k, end, n);
      if chunk[..n] != piece[..n] {
        return false;
      }
      hay.AdvanceBytes(n);
      piece := piece[n..];
      k := k + n;
    }
    r := true;
  }

  lemma PieceOf(all: seq<byte>, k: nat, end: nat, n: nat)
    requires k + n <= end <= |all|
    ensures all[k..][..n] == all[k..end][..n] && all[k..end][n..] == all[k + n..end]
  {
  }

  // --- `find_impl` ---------------------------------------------------------------------------------

  /** Occurrences within the first chunk are occurrences in the rest. */
  lemma InChunk(hay: seq<byte>, needle: seq<byte>, q: nat, chunk: seq<byte>, j: nat)
    requires q <= |hay| && chunk <= hay[q..] && j + |needle| <= |chunk|
    ensures Occurs(hay, needle, q + j) <==> Occurs(chunk, needle, j)
  {
    assert hay[q..][..|chunk|] == chunk;
    assert hay[q + j..q + j + |needle|] == chunk[j..j + |needle|];
  }

  /** An occurrence begins with the needle's first byte. */
  lemma FirstByte(hay: seq<byte>, needle: seq<byte>, q: nat, chunk: seq<byte>, j: nat)
    requires q <= |hay| && chunk <= hay[q..] && j < |chunk| && needle != [] && Occurs(hay, needle, q + j)
    ensures chunk[j] == needle[0]
  {
    assert hay[q..][j] == chunk[j];
    assert hay[q + j..q + j + |needle|][0] == hay[q + j];
  }

  lemma OccursIsPrefix(hay: seq<byte>, needle: seq<byte>, p: nat)
    requires p <= |hay|
    ensures Occurs(hay, needle, p) <==> needle <= hay[p..]
  {
    if p + |needle| <= |hay| {
      assert hay[p..][..|needle|] == hay[p..p + |needle|];
    }
  }

  /** Whether the needle occurs `at` bytes behind a position. */
  method MatchesAt(it: ForwardChunks, needle: seq<byte>, at: nat, ghost hay: seq<byte>, ghost q: nat)
    returns (matches: bool)
    requires it.Valid() && needle != [] && q <= |hay| && it.Rest() == hay[q..] && at <= it.remaining
    ensures matches <==> Occurs(hay, needle, q + at)
  {
    hide Flatten, Start, Occurs;
    RestLength(it, hay, q);
    var position := CloneOf(it);
    position.AdvanceBytes(at);
    assert hay[q..][at..] == hay[q + at..];
    matches := IsSliceAt(position, needle);
    OccursIsPrefix(hay, needle, q + at);
  }

  /** The first occurrence that begins at `offset` or later, but before `end`, in the front chunk. */
  method FindAcross(it: ForwardChunks, needle: seq<byte>, offset0: nat, end: nat, ghost hay: seq<byte>, ghost q: nat)
    returns (r: Option<nat>)
    requires it.Valid() && needle != [] && q <= |hay| && it.Rest() == hay[q..] && end <= |it.current|
    ensures r.Some? ==> offset0 <= r.value < end && Occurs(hay, needle, q + r.value)
    ensures NoneIn(hay, needle, q + offset0, q + if r.Some? then r.value else end)
  {
    hide Flatten, Start, Occurs;
    ChunkIsNext(it);
    var chunk := it.current;
    var offset := offset0;
    r := None;
    while offset < end
      invariant offset0 <= offset && r.None?
      invariant NoneIn(hay, needle, q + offset0, q + offset)
      decreases end - offset
    {
      var candidate := FindByte(needle[0], chunk, offset, end);
      NotBefore(hay, needle, q, chunk, offset, if candidate.Some? then candidate.value else end);
      if candidate.None? {
        return;
      }
      var matches := MatchesAt(it, needle, candidate.value, hay, q);
      if matches {
        r := candidate;
        return;
      }
      offset := candidate.value + 1;
    }
  }

  lemma NotBefore(hay: seq<byte>, needle: seq<byte>, q: nat, chunk: seq<byte>, from: nat, to: nat)
    requires q <= |hay| && chunk <= hay[q..] && needle != [] && from <= to <= |chunk|
    requires forall j :: from <= j < to ==> chunk[j] != needle[0]
    ensures NoneIn(hay, needle, q + from, q + to)
  {
    hide Occurs;
    forall p: nat | q + from <= p < q + to ensures !Occurs(hay, needle, p) {
      if Occurs(hay, needle, p) {
        FirstByte(hay, needle, q, chunk, p - q);
      }
    }
  }

  /** Positions in a chunk without a match in it, other than the last few, hold no match at all. */
  lemma NotInside(hay: seq<byte>, needle: seq<byte>, q: nat, chunk: seq<byte>, to: nat)
    requires q <= |hay| && chunk <= hay[q..] && NoneIn(chunk, needle, 0, to)
    requires to == 0 || to + |needle| <= |chunk| + 1
    ensures NoneIn(hay, needle, q, q + to)
  {
    hide Occurs;
    forall p: nat | q <= p < q + to ensures !Occurs(hay, needle, p) {
      InChunk(hay, needle, q, chunk, p - q);
    }
  }

  /** Moves `it` to the first occurrence of `needle` at or behind its position, if there is one. */
  method FindImpl(it: ForwardChunks, needle: seq<byte>, ghost hay: seq<byte>, ghost q0: nat) returns (found: bool)
    requires it.Valid() && needle != [] && q0 <= |hay| && it.Rest() == hay[q0..]
    modifies it
    ensures it.Valid() && it.lo >= old(it.lo) && it.hi == old(it.hi)
    ensures found ==> q0 + (it.lo - old(it.lo)) <= |hay| && it.Rest() == hay[q0 + (it.lo - old(it.lo))..]
    ensures found ==> Occurs(hay, needle, q0 + (it.lo - old(it.lo)))
    ensures NoneIn(hay, needle, q0, if found then q0 + (it.lo - old(it.lo)) else |hay| + 1)
  {
    hide Flatten, Start, Occurs;
    found := false;
    ghost var q := q0;
    while it.remaining >= |needle|
      invariant it.Valid() && it.lo >= old(it.lo) && it.hi == old(it.hi)
      invariant q == q0 + (it.lo - old(it.lo)) <= |hay| && it.Rest() == hay[q..] && !found
      invariant NoneIn(hay, needle, q0, q)
      decreases it.remaining
    {
      ChunkIsNext(it);
      var chunk := it.current;
      var n := FindNear(it, needle, hay, q);
      assert hay[q..][n.1..] == hay[q + n.1..];
      it.AdvanceBytes(n.1);
      if n.0 {
        found := true;
        return;
      }
      q := q + n.1;
    }
    ShortRest(it, hay, needle, q);
  }

  lemma ShortRest(it: ForwardChunks, hay: seq<byte>, needle: seq<byte>, q: nat)
    requires it.Valid() && q <= |hay| && it.Rest() == hay[q..] && it.remaining < |needle|
    ensures NoneIn(hay, needle, q, |hay| + 1)
  {
    assert |hay[q..]| == it.remaining;
  }

  /**
  Whether an occurrence begins in the front chunk, and how far to move: to the first one, or past
  the chunk.
  */
  method FindNear(it: ForwardChunks, needle: seq<byte>, ghost hay: seq<byte>, ghost q: nat) returns (r: (bool, nat))
    requires it.Valid() && needle != [] && q <= |hay| && it.Rest() == hay[q..] && it.remaining >= |needle|
    ensures r.1 <= it.remaining && (r.0 || r.1 > 0)
    ensures r.0 ==> Occurs(hay, needle, q + r.1)
    ensures NoneIn(hay, needle, q, q + r.1)
  {
    hide Flatten, Start, Occurs;
    ChunkIsNext(it);
    var chunk := it.current;
    var inside := None;
    if |chunk| >= |needle| {
      inside := FindInChunk(chunk, needle);
    }
    if inside.Some? {
      r := (true, inside.value);
      FoundInside(hay, needle, q, chunk, inside.value);
    } else {
      var offset := if |chunk| > |needle| - 1 then |chunk| - (|needle| - 1) else 0;
      var limit := it.remaining - |needle| + 1;
      var end := if |chunk| < limit then |chunk| else limit;
      NotInside(hay, needle, q, chunk, offset);
      var across := FindAcross(it, needle, offset, end, hay, q);
      if across.Some? {
        r := (true, across.value);
      } else {
        r := (false, |chunk|);
        TooLate(hay, needle, q, end, |chunk|, it.remaining);
      }
    }
  }

  lemma FoundInside(hay: seq<byte>, needle: seq<byte>, q: nat, chunk: seq<byte>, p: nat)
    requires q <= |hay| && chunk <= hay[q..] && IsFirst(chunk, needle, Some(p))
    ensures Occurs(hay, needle, q + p) && NoneIn(hay, needle, q, q + p)
  {
    InChunk(hay, needle, q, chunk, p);
    forall k: nat | q <= k < q + p ensures !Occurs(hay, needle, k) {
      InChunk(hay, needle, q, chunk, k - q);
    }
  }

  lemma TooLate(hay: seq<byte>, needle: seq<byte>, q: nat, end: nat, size: nat, remaining: nat)
    requires q <= |hay| && |hay| - q == remaining >= |needle|
    requires end == if size < remaining - |needle| + 1 then size else remaining - |needle| + 1
    ensures NoneIn(hay, needle, q + end, q + size)
  {
  }

  // --- `find` --------------------------------------------------------------------------------------

  /** Where the whole needle occurs, its first chunk does. */
  lemma FirstChunkOccurs(hay: seq<byte>, chunk: seq<byte>, more: seq<byte>, p: nat)
    requires p <= |hay|
    ensures Occurs(hay, chunk + more, p) <==>
      Occurs(hay, chunk, p) && p + |chunk| <= |hay| && more <= hay[p + |chunk|..]
  {
    var needle := chunk + more;
    if p + |needle| <= |hay| {
      assert hay[p..p + |needle|] == hay[p..p + |chunk|] + hay[p + |chunk|..p + |needle|];
      assert hay[p + |chunk|..][..|more|] == hay[p + |chunk|..p + |needle|];
      if Occurs(hay, needle, p) {
        assert hay[p..p + |needle|][..|chunk|] == chunk && hay[p..p + |needle|][|chunk|..] == more;
      }
    }
  }

  lemma NoneOfLonger(hay: seq<byte>, chunk: seq<byte>, more: seq<byte>, from: int, to: int)
    requires NoneIn(hay, chunk, from, to)
    ensures NoneIn(hay, chunk + more, from, to)
  {
    hide Occurs;
    forall p: nat | from <= p < to ensures !Occurs(hay, chunk + more, p) {
      if Occurs(hay, chunk + more, p) {
        LongerFits(hay, chunk + more, p);
        FirstChunkOccurs(hay, chunk, more, p);
      }
    }
  }

  lemma LongerFits(hay: seq<byte>, needle: seq<byte>, p: nat)
    requires Occurs(hay, needle, p)
    ensures p + |needle| <= |hay|
  {
  }

  /** Too little is left for the needle. */
  lemma NoRoom(hay: seq<byte>, needle: seq<byte>, q: nat)
    requires |hay| - q < |needle|
    ensures NoneIn(hay, needle, q, |hay| + 1)
  {
  }

  lemma NoneTwice(hay: seq<byte>, needle: seq<byte>, a: int, b: int, c: int)
    requires NoneIn(hay, needle, a, b) && NoneIn(hay, needle, b, c)
    ensures NoneIn(hay, needle, a, c)
  {
    hide Occurs;
  }

  /**
  The position of the first occurrence of the needle, whatever the chunks of the cord and of the
  needle are.
  */
  method Find(hay: seq<seq<byte>>, needle: seq<seq<byte>>) returns (r: Option<nat>)
    requires NonEmpty(hay) && NonEmpty(needle)
    ensures IsFirst(Flatten(hay), Flatten(needle), r)
  {
    hide Flatten, Start;
    var size, len := Length(needle), Length(hay);
    ghost var h, n := Flatten(hay), Flatten(needle);
    if size == 0 {
      r := Some(0);
      assert h[0..0] == n;
    } else if size > len {
      r := None;
      NoRoom(h, n, 0);
    } else if size == len {
      var equal := Equals(hay, needle);
      r := if equal then Some(0) else None;
      WholeNeedle(h, n);
    } else {
      NeedleParts(needle);
      var it := new ForwardChunks(hay);
      assert h[0..] == h;
      if |needle[0]| == size {
        var found := FindImpl(it, needle[0], h, 0);
        SingleChunk(needle);
        var p := Position(it);
        r := if found then Some(p) else None;
      } else {
        r := FindLoop(it, needle, size, h, n);
      }
    }
  }

  /** Where a position stands. */
  method Position(it: ForwardChunks) returns (p: nat)
    requires it.Valid()
    ensures p == it.lo
  {
    p := Length(it.all) - it.remaining;
  }

  lemma WholeNeedle(hay: seq<byte>, needle: seq<byte>)
    requires |hay| == |needle| > 0
    ensures IsFirst(hay, needle, if hay == needle then Some(0) else None)
  {
    assert hay[0..|needle|] == hay;
    forall p: nat | 0 < p < |hay| + 1 ensures !Occurs(hay, needle, p) {
    }
  }

  lemma NeedleParts(needle: seq<seq<byte>>)
    requires Flatten(needle) != [] && NonEmpty(needle)
    ensures needle != [] && Flatten(needle) == needle[0] + Flatten(needle[1..]) && needle[0] != []
    ensures NonEmpty(needle[1..])
  {
  }

  lemma SingleChunk(needle: seq<seq<byte>>)
    requires needle != [] && Flatten(needle) == needle[0] + Flatten(needle[1..]) && |needle[0]| == |Flatten(needle)|
    ensures Flatten(needle) == needle[0]
  {
  }

  /** Whether the chunks `pieces` follow `skip` bytes behind a position. */
  method FollowsAt(it: ForwardChunks, skip: nat, pieces: seq<seq<byte>>, ghost h: seq<byte>, ghost q: nat)
    returns (r: bool)
    requires it.Valid() && q + skip <= |h| && it.Rest() == h[q..] && skip <= it.remaining
    ensures r <==> Flatten(pieces) <= h[q + skip..]
  {
    hide Flatten, Start;
    var copy := CloneOf(it);
    copy.AdvanceBytes(skip);
    assert h[q..][skip..] == h[q + skip..];
    r := IsSubcordAt(copy, pieces);
  }

  /** A needle in several chunks: candidates for the first chunk, checked one by one. */
  method FindLoop(it: ForwardChunks, needle: seq<seq<byte>>, size: nat, ghost h: seq<byte>, ghost n: seq<byte>)
    returns (r: Option<nat>)
    requires it.Valid() && it.lo == 0 && it.Rest() == h && needle != [] && needle[0] != [] && n == Flatten(needle)
    requires n == needle[0] + Flatten(needle[1..]) && size == |n| < |h|
    modifies it
    ensures IsFirst(h, n, r)
  {
    hide Flatten, Start, Occurs, NoneIn, IsFirst;
    assert h[0..] == h;
    NoneYet(h, n);
    r := None;
    var done := false;
    while !done
      invariant done ==> IsFirst(h, n, r)
      invariant !done ==> it.Valid() && it.lo <= |h| && it.Rest() == h[it.lo..] && NoneIn(h, n, 0, it.lo)
      decreases if done then 0 else it.remaining + 1
    {
      done, r := FindStep(it, needle, size, h, n);
    }
  }

  lemma NoneYet(h: seq<byte>, n: seq<byte>)
    ensures NoneIn(h, n, 0, 0)
  {
  }

  /** One round of the search: done, or at least one position further. */
  method FindStep(it: ForwardChunks, needle: seq<seq<byte>>, size: nat, ghost h: seq<byte>, ghost n: seq<byte>)
    returns (done: bool, r: Option<nat>)
    requires it.Valid() && it.lo <= |h| && it.Rest() == h[it.lo..] && needle != [] && needle[0] != []
    requires n == Flatten(needle) && n == needle[0] + Flatten(needle[1..]) && size == |n| && NoneIn(h, n, 0, it.lo)
    modifies it
    ensures done ==> IsFirst(h, n, r)
    ensures !done ==> it.Valid() && it.lo <= |h| && it.Rest() == h[it.lo..] && NoneIn(h, n, 0, it.lo)
    ensures !done ==> it.remaining < old(it.remaining)
  {
    hide Flatten, Start, Occurs, NoneIn, IsFirst;
    done, r := true, None;
    var chunk := needle[0];
    ghost var more, q := Flatten(needle[1..]), it.lo;
    var found := FindImpl(it, chunk, h, q);
    NoneOfLonger(h, chunk, more, q, if found then it.lo else |h| + 1);
    NoneTwice(h, n, 0, q, if found then it.lo else |h| + 1);
    if found {
      q := it.lo;
      RestLength(it, h, q);
      if it.remaining < size {
        NoRoom(h, n, q);
        NoneTwice(h, n, 0, q, |h| + 1);
        NotFound(h, n);
      } else {
        var follows := FollowsAt(it, |chunk|, needle[1..], h, q);
        FirstChunkOccurs(h, chunk, more, q);
        var p := Position(it);
        FoundOrNot(h, n, q, follows);
        if follows {
          r := Some(p);
        } else {
          assert h[q..][1..] == h[q + 1..];
          it.AdvanceBytes(1);
          done, r := FindRest(it, needle, size, h, n);
        }
      }
    } else {
      NotFound(h, n);
    }
  }

  /** After the last candidate was passed over: whether enough is left to go on. */
  method FindRest(it: ForwardChunks, needle: seq<seq<byte>>, size: nat, ghost h: seq<byte>, ghost n: seq<byte>)
    returns (done: bool, r: Option<nat>)
    requires it.Valid() && it.lo <= |h| && it.Rest() == h[it.lo..] && n == Flatten(needle) && size == |n|
    requires NoneIn(h, n, 0, it.lo)
    ensures done ==> IsFirst(h, n, r)
  {
    hide Flatten, Start, Occurs, NoneIn, IsFirst;
    done, r := false, None;
    ghost var q := it.lo;
    RestLength(it, h, q);
    if it.remaining < size {
      done := true;
      NoRoom(h, n, q);
      NoneTwice(h, n, 0, q, |h| + 1);
      NotFound(h, n);
    } else if it.remaining == size {
      done := true;
      var last := FollowsAt(it, 0, needle, h, q);
      OccursIsPrefix(h, n, q);
      FoundOrNot(h, n, q, last);
      if last {
        var p := Position(it);
        r := Some(p);
      } else {
        NoRoom(h, n, q + 1);
        NoneTwice(h, n, 0, q + 1, |h| + 1);
        NotFound(h, n);
      }
    }
  }

  lemma NotFound(h: seq<byte>, n: seq<byte>)
    requires NoneIn(h, n, 0, |h| + 1)
    ensures IsFirst(h, n, None)
  {
  }

  lemma FoundOrNot(h: seq<byte>, n: seq<byte>, q: nat, found: bool)
    requires NoneIn(h, n, 0, q) && (found <==> Occurs(h, n, q))
    ensures found ==> IsFirst(h, n, Some(q))
    ensures !found ==> NoneIn(h, n, 0, q + 1)
  {
    hide Occurs;
  }

  lemma RestLength(it: ForwardChunks, h: seq<byte>, q: nat)
    requires it.Valid() && q <= |h| && it.Rest() == h[q..]
    ensures it.remaining == |h| - q
  {
    assert |h[q..]| == |it.Rest()|;
  }
}
