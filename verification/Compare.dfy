/**
Comparing and hashing cords chunk by chunk (cord.rs), and comparing inline cords by two words
(inline_data.rs).
*/
module Comparing {
  import opened Heap
  import opened Substrings
  import opened ChunkLists
  import opened ChunkIters

  datatype Ordering = Less | Equal | Greater

  /** Lexicographic order of bytes. */
  function Lex(a: seq<byte>, b: seq<byte>): Ordering {
    if a == [] then (if b == [] then Equal else Less)
    else if b == [] then Greater
    else if a[0] < b[0] then Less
    else if a[0] > b[0] then Greater
    else Lex(a[1..], b[1..])
  }

  lemma {:induction false} LexEqual(a: seq<byte>, b: seq<byte>)
    ensures Lex(a, b) == Equal <==> a == b
  {
    if a != [] && b != [] {
      LexEqual(a[1..], b[1..]);
      assert a == [a[0]] + a[1..] && b == [b[0]] + b[1..];
    }
  }

  /** Equal parts of the same length may be compared first. */
  lemma {:induction false} LexSplit(a: seq<byte>, b: seq<byte>, n: nat)
    requires n <= |a| && n <= |b|
    ensures Lex(a, b) == if a[..n] == b[..n] then Lex(a[n..], b[n..]) else Lex(a[..n], b[..n])
  {
    LexEqual(a[..n], b[..n]);
    if n > 0 {
      assert a[..n] == [a[0]] + a[1..][..n - 1] && b[..n] == [b[0]] + b[1..][..n - 1];
      assert a[..n][1..] == a[1..][..n - 1] && b[..n][1..] == b[1..][..n - 1];
      if a[0] == b[0] {
        LexSplit(a[1..], b[1..], n - 1);
        assert a[1..][n - 1..] == a[n..] && b[1..][n - 1..] == b[n..];
      }
    } else {
      assert a[0..] == a && b[0..] == b && a[..0] == b[..0];
    }
  }

  /** Compares two slices (`memcmp`). */
  method CompareSlices(a: seq<byte>, b: seq<byte>) returns (r: Ordering)
    ensures r == Lex(a, b)
  {
    var i := 0;
    assert a[0..] == a && b[0..] == b;
    while i < |a| && i < |b| && a[i] == b[i]
      invariant i <= |a| && i <= |b| && Lex(a, b) == Lex(a[i..], b[i..])
    {
      assert a[i..][1..] == a[i + 1..] && b[i..][1..] == b[i + 1..];
      i := i + 1;
    }
    r := if i == |a| then (if i == |b| then Equal else Less)
         else if i == |b| then Greater
         else if a[i] < b[i] then Less
         else Greater;
  }

  /** The next chunk, unless something is left of this one. */
  method Refill(it: ForwardChunks, chunk: seq<byte>) returns (r: seq<byte>)
    requires it.Valid()
    modifies it
    ensures it.Valid() && r + it.Rest() == chunk + old(it.Rest())
    ensures r == [] <==> chunk + old(it.Rest()) == []
  {
    hide Flatten, Start;
    r := chunk;
    if chunk == [] {
      var next := it.Next();
      if next.Some? {
        r := next.value;
      }
    }
  }

  /** What is left to compare: `size` bytes, which is all of at least one side. */
  predicate ToCompare(x: seq<byte>, y: seq<byte>, size: nat) {
    size <= |x| && size <= |y| && (size == |x| || size == |y|)
  }

  /** Both sides begin with a chunk, of which the first `n` bytes are compared. */
  lemma ChunkFirst(lc: seq<byte>, lrest: seq<byte>, rc: seq<byte>, rrest: seq<byte>, size: nat, n: nat)
    requires ToCompare(lc + lrest, rc + rrest, size) && n == if |lc| < |rc| then |lc| else |rc|
    ensures
      var x, y := lc + lrest, rc + rrest;
      && n <= size && x[n..] == lc[n..] + lrest && y[n..] == rc[n..] + rrest && ToCompare(x[n..], y[n..], size - n)
      && Lex(x[..size], y[..size]) ==
         (if lc[..n] == rc[..n] then Lex(x[n..][..size - n], y[n..][..size - n]) else Lex(lc[..n], rc[..n]))
  {
    var x, y := lc + lrest, rc + rrest;
    LexSplit(x[..size], y[..size], n);
    assert x[..size][..n] == lc[..n] && y[..size][..n] == rc[..n];
    assert x[..size][n..] == x[n..][..size - n] && y[..size][n..] == y[n..][..size - n];
  }

  /** One round: refills both chunks and compares as much as both have. */
  method CompareRound(left: ForwardChunks, right: ForwardChunks, lc0: seq<byte>, rc0: seq<byte>, size: nat)
    returns (result: Ordering, lc: seq<byte>, rc: seq<byte>, n: nat)
    requires left.Valid() && right.Valid() && left != right && size > 0
    requires ToCompare(lc0 + left.Rest(), rc0 + right.Rest(), size)
    modifies left, right
    ensures left.Valid() && right.Valid()
    ensures
      var x, y := lc0 + old(left.Rest()), rc0 + old(right.Rest());
      && 0 < n <= size && lc + left.Rest() == x[n..] && rc + right.Rest() == y[n..]
      && ToCompare(x[n..], y[n..], size - n)
      && Lex(x[..size], y[..size]) == if result == Equal then Lex(x[n..][..size - n], y[n..][..size - n]) else result
  {
    hide Flatten, Start, Lex;
    lc := Refill(left, lc0);
    rc := Refill(right, rc0);
    n := if |lc| < |rc| then |lc| else |rc|;
    ChunkFirst(lc, left.Rest(), rc, right.Rest(), size, n);
    result := CompareSlices(lc[..n], rc[..n]);
    LexEqual(lc[..n], rc[..n]);
    lc, rc := lc[n..], rc[n..];
  }

  /** Compares `size` bytes of two chunk lists of which the first `compared` are equal. */
  method CompareSlowPath(l: seq<seq<byte>>, r: seq<seq<byte>>, compared: nat, size: nat) returns (result: Ordering)
    requires NonEmpty(l) && NonEmpty(r) && l != [] && r != [] && ToCompare(Flatten(l), Flatten(r), size)
    requires compared == (if |l[0]| < |r[0]| then |l[0]| else |r[0]|) && l[0][..compared] == r[0][..compared]
    ensures result == Lex(Flatten(l)[..size], Flatten(r)[..size])
  {
    hide Flatten, Start, Lex;
    var left := new ForwardChunks(l);
    var right := new ForwardChunks(r);
    var lc, rc := FirstOf(left, l), FirstOf(right, r);
    left.Step();
    right.Step();
    ChunkFirst(lc, left.Rest(), rc, right.Rest(), size, compared);
    lc, rc := lc[compared..], rc[compared..];
    var more: nat := size - compared;
    result := Equal;
    while more > 0
      invariant left.Valid() && right.Valid() && left != right && ToCompare(lc + left.Rest(), rc + right.Rest(), more)
      invariant Lex(Flatten(l)[..size], Flatten(r)[..size])
          == Lex((lc + left.Rest())[..more], (rc + right.Rest())[..more])
      invariant result == Equal
      decreases more
    {
      var n;
      result, lc, rc, n := CompareRound(left, right, lc, rc, more);
      if result != Equal {
        return;
      }
      more := more - n;
    }
    LexEqual((lc + left.Rest())[..more], (rc + right.Rest())[..more]);
  }

  function FirstOf(it: ForwardChunks, all: seq<seq<byte>>): (chunk: seq<byte>)
    requires it.Valid() && it.all == all && all != [] && it.lo == 0
    reads it
    ensures chunk == all[0] == it.current && 0 < |it.current| <= it.remaining
  {
    assert Flatten(all) == all[0] + Flatten(all[1..]);
    assert Start(all, 0) == 0 by { StartEnds(all); }
    ChunkAt(all, 0);
    ChunkAt(all, it.at);
    it.current
  }

  /** Compares the first `size` bytes of two chunk lists, first chunk with first chunk to begin with. */
  method ComparePrefix(l: seq<seq<byte>>, r: seq<seq<byte>>, size: nat) returns (result: Ordering)
    requires NonEmpty(l) && NonEmpty(r) && ToCompare(Flatten(l), Flatten(r), size)
    ensures result == Lex(Flatten(l)[..size], Flatten(r)[..size])
  {
    hide Flatten, Start, Lex;
    var lc: seq<byte>, rc: seq<byte> := if l == [] then [] else l[0], if r == [] then [] else r[0];
    var n := if |lc| < |rc| then |lc| else |rc|;
    result := CompareSlices(lc[..n], rc[..n]);
    LexEqual(lc[..n], rc[..n]);
    FlattenFirst(l);
    FlattenFirst(r);
    ChunkFirst(lc, Flatten(if l == [] then [] else l[1..]), rc, Flatten(if r == [] then [] else r[1..]), size, n);
    if n != size && result == Equal {
      result := CompareSlowPath(l, r, n, size);
    } else {
      LexEqual(Flatten(l)[n..][..size - n], Flatten(r)[n..][..size - n]);
    }
  }

  lemma FlattenFirst(chunks: seq<seq<byte>>)
    ensures chunks == [] ==> Flatten(chunks) == []
    ensures chunks != [] ==> Flatten(chunks) == chunks[0] + Flatten(chunks[1..])
  {
  }

  /** The order of two cords: that of their bytes, however they are chunked. */
  method Compare(l: seq<seq<byte>>, r: seq<seq<byte>>) returns (result: Ordering)
    requires NonEmpty(l) && NonEmpty(r)
    ensures result == Lex(Flatten(l), Flatten(r))
  {
    hide Flatten, Start, Lex;
    var lsize, rsize := Length(l), Length(r);
    var size := if lsize < rsize then lsize else rsize;
    result := ComparePrefix(l, r, size);
    LexSplit(Flatten(l), Flatten(r), size);
    LexEqual(Flatten(l)[..size], Flatten(r)[..size]);
    if result == Equal && lsize != rsize {
      result := if lsize < rsize then Less else Greater;
    }
    LexEnds(Flatten(l)[size..], Flatten(r)[size..]);
  }

  lemma LexEnds(a: seq<byte>, b: seq<byte>)
    ensures a == [] && b == [] ==> Lex(a, b) == Equal
    ensures a == [] && b != [] ==> Lex(a, b) == Less
    ensures a != [] && b == [] ==> Lex(a, b) == Greater
  {
  }

  /** Whether two cords hold the same bytes. */
  method Equals(l: seq<seq<byte>>, r: seq<seq<byte>>) returns (result: bool)
    requires NonEmpty(l) && NonEmpty(r)
    ensures result <==> Flatten(l) == Flatten(r)
  {
    hide Flatten, Start, Lex;
    var lsize, rsize := Length(l), Length(r);
    result := false;
    if lsize == rsize {
      var order := ComparePrefix(l, r, rsize);
      result := order == Equal;
      LexEqual(Flatten(l)[..rsize], Flatten(r)[..rsize]);
      assert Flatten(l)[..rsize] == Flatten(l) && Flatten(r)[..rsize] == Flatten(r);
    }
  }

  // --- Inline cords --------------------------------------------------------------------------------

  const INLINE: nat := 15

  /** The storage of an inline cord: its bytes, and zeros behind them. */
  ghost predicate ZeroTailed(tail: seq<byte>, size: nat) {
    |tail| == INLINE && size <= INLINE && forall i :: size <= i < INLINE ==> tail[i] == 0
  }

  /** Eight bytes as a big-endian word. */
  function Word(s: seq<byte>): nat {
    if s == [] then 0 else Word(s[..|s| - 1]) * 256 + s[|s| - 1] as nat
  }

  /** Words are ordered like the bytes they are made of. */
  lemma {:induction false} WordOrder(a: seq<byte>, b: seq<byte>)
    requires |a| == |b|
    ensures Word(a) == Word(b) <==> a == b
    ensures Word(a) < Word(b) <==> Lex(a, b) == Less
  {
    if a != [] {
      var n := |a| - 1;
      WordOrder(a[..n], b[..n]);
      LexSplit(a, b, n);
      LexEqual(a[..n], b[..n]);
      assert a == a[..n] + [a[n]] && b == b[..n] + [b[n]];
      assert a[n..] == [a[n]] && b[n..] == [b[n]];
      OneByte(a[n], b[n]);
      WordStep(Word(a[..n]), Word(b[..n]), a[n] as nat, b[n] as nat);
    }
  }

  lemma OneByte(x: byte, y: byte)
    ensures Lex([x], [y]) == if x < y then Less else if x > y then Greater else Equal
  {
    assert Lex([x][1..], [y][1..]) == Equal;
  }

  lemma WordStep(p: nat, q: nat, x: nat, y: nat)
    requires x < 256 && y < 256
    ensures p * 256 + x == q * 256 + y <==> p == q && x == y
    ensures p * 256 + x < q * 256 + y <==> p < q || (p == q && x < y)
  {
  }

  function Zeros(n: nat): (s: seq<byte>)
    ensures |s| == n && forall i :: 0 <= i < n ==> s[i] == 0
  {
    seq(n, _ => 0)
  }

  /** Padding with zeros keeps the order of sequences that it does not make equal. */
  lemma {:induction false} PaddedOrder(a: seq<byte>, b: seq<byte>, n: nat)
    requires |a| <= n && |b| <= n && Lex(a + Zeros(n - |a|), b + Zeros(n - |b|)) != Equal
    ensures Lex(a, b) == Lex(a + Zeros(n - |a|), b + Zeros(n - |b|))
    decreases n
  {
    var pa, pb := a + Zeros(n - |a|), b + Zeros(n - |b|);
    LexEqual(pa, pb);
    assert a == [] && b == [] ==> pa == pb;
    if a != [] || b != [] {
      var a', b' := if a == [] then [] else a[1..], if b == [] then [] else b[1..];
      assert pa[1..] == a' + Zeros(n - 1 - |a'|) && pb[1..] == b' + Zeros(n - 1 - |b'|);
      if pa[0] == pb[0] {
        PaddedOrder(a', b', n - 1);
        if a == [] || b == [] {
          LexEnds(a', b');
          LexEqual(a', b');
        }
      }
    }
  }

  /** Compares two inline cords by two overlapping words each, and then by size. */
  method CompareInline(l: seq<byte>, lsize: nat, r: seq<byte>, rsize: nat) returns (result: Ordering)
    requires ZeroTailed(l, lsize) && ZeroTailed(r, rsize)
    ensures result == Lex(l[..lsize], r[..rsize])
  {
    hide Lex, Word;
    var x, y := Word(l[0..8]), Word(r[0..8]);
    WordOrder(l[0..8], r[0..8]);
    WordOrder(r[0..8], l[0..8]);
    LexSplit(l, r, 8);
    assert l[..8] == l[0..8] && r[..8] == r[0..8];
    var first := x == y;
    if first {
      x, y := Word(l[7..15]), Word(r[7..15]);
      WordOrder(l[7..15], r[7..15]);
      SecondWord(l, r);
    }
    InlineOrder(l, lsize, r, rsize);
    if first && x == y {
      result := if lsize < rsize then Less else if lsize > rsize then Greater else Equal;
    } else {
      result := if x < y then Less else Greater;
      LexEqual(l, r);
      if first {
        LexEqual(l[7..15], r[7..15]);
      } else {
        LexEqual(l[0..8], r[0..8]);
      }
    }
  }

  /** The second word begins with a byte that is already known to be equal. */
  lemma SecondWord(l: seq<byte>, r: seq<byte>)
    requires |l| == INLINE && |r| == INLINE && l[0..8] == r[0..8]
    ensures Lex(l, r) == Lex(l[7..15], r[7..15]) && (l[7..15] == r[7..15] <==> l == r)
  {
    LexSplit(l, r, 7);
    assert l[..7] == l[0..8][..7] && r[..7] == r[0..8][..7];
    assert l[7..] == l[7..15] && r[7..] == r[7..15];
    assert l == l[..7] + l[7..] && r == r[..7] + r[7..];
  }

  lemma InlineOrder(l: seq<byte>, lsize: nat, r: seq<byte>, rsize: nat)
    requires ZeroTailed(l, lsize) && ZeroTailed(r, rsize)
    ensures l != r ==> Lex(l[..lsize], r[..rsize]) == Lex(l, r)
    ensures l == r ==>
      Lex(l[..lsize], r[..rsize]) == if lsize < rsize then Less else if lsize > rsize then Greater else Equal
  {
    assert l == l[..lsize] + Zeros(INLINE - lsize) && r == r[..rsize] + Zeros(INLINE - rsize);
    if l != r {
      LexEqual(l, r);
      PaddedOrder(l[..lsize], r[..rsize], INLINE);
    } else {
      var n := if lsize < rsize then lsize else rsize;
      LexSplit(l[..lsize], r[..rsize], n);
      assert l[..lsize][..n] == r[..rsize][..n];
      LexEnds(l[..lsize][n..], r[..rsize][n..]);
    }
  }

  // --- Hashing ---------------------------------------------------------------------------------------

  const BLOCK: nat := 1024

  /** The blocks in which a hasher is given `bytes`: each full but the last. */
  function Blocks(bytes: seq<byte>): seq<seq<byte>> {
    if bytes == [] then [] else if |bytes| <= BLOCK then [bytes] else [bytes[..BLOCK]] + Blocks(bytes[BLOCK..])
  }

  /** Blocks in front of others do not change them if they are full. */
  lemma {:induction false} BlocksAppend(a: seq<byte>, b: seq<byte>)
    requires |a| % BLOCK == 0
    ensures Blocks(a + b) == Blocks(a) + Blocks(b)
    decreases |a|
  {
    if a == [] {
      assert a + b == b;
    } else {
      FullBlock(|a|);
      assert (a + b)[..BLOCK] == a[..BLOCK] && (a + b)[BLOCK..] == a[BLOCK..] + b;
      BlocksAppend(a[BLOCK..], b);
      assert Blocks(a) == [a[..BLOCK]] + Blocks(a[BLOCK..]) by {
        if |a| == BLOCK {
          assert a[..BLOCK] == a && a[BLOCK..] == [];
        }
      }
      if |a + b| == BLOCK {
        assert b == [] && a[..BLOCK] == a && a[BLOCK..] == [];
        assert a + b == a && Blocks(a) == [a];
      }
    }
  }

  lemma FullBlock(n: nat)
    requires n > 0 && n % BLOCK == 0
    ensures n >= BLOCK && (n - BLOCK) % BLOCK == 0
  {
  }

  /** What is written to a hasher after the length, for contiguous bytes. */
  method HashSlice(flat: seq<byte>) returns (writes: seq<seq<byte>>)
    ensures writes == Blocks(flat)
  {
    writes := [];
    var i := 0;
    assert flat[0..] == flat;
    while i < |flat|
      invariant 0 <= i <= |flat| && writes + Blocks(flat[i..]) == Blocks(flat)
    {
      var n := if |flat| - i < BLOCK then |flat| - i else BLOCK;
      assert flat[i..][..n] == flat[i..i + n] && flat[i..][n..] == flat[i + n..];
      if i + n == |flat| {
        assert flat[i..i + n] == flat[i..] && flat[i + n..] == [];
      }
      assert Blocks(flat[i..]) == [flat[i..i + n]] + Blocks(flat[i + n..]);
      writes := writes + [flat[i..i + n]];
      i := i + n;
    }
  }

  /** What is written to a hasher after the length, for a cord in several chunks. */
  method HashWrites(chunks: seq<seq<byte>>) returns (writes: seq<seq<byte>>)
    requires NonEmpty(chunks)
    ensures writes == Blocks(Flatten(chunks))
  {
    hide Flatten, Start, Blocks;
    writes := [];
    var buffer: seq<byte> := [];
    ghost var done: seq<byte> := [];
    var it := new ForwardChunks(chunks);
    ghost var all := it.Rest();
    NoBlocks();
    var chunk := it.Next();
    ghost var seen: seq<byte> := [];
    assert seen + Pending(chunk) + it.Rest() == all;
    while chunk.Some?
      invariant it.Valid() && |buffer| < BLOCK && |done| % BLOCK == 0 && writes == Blocks(done)
      invariant done + buffer == seen && seen + Pending(chunk) + it.Rest() == all
      invariant chunk.None? ==> it.Rest() == []
      decreases |it.Rest()| + (if chunk.Some? then 1 else 0)
    {
      writes, buffer, done := WriteChunk(writes, buffer, chunk.value, done);
      seen := seen + chunk.value;
      ghost var rest := it.Rest();
      chunk := it.Next();
      assert rest == Pending(chunk) + it.Rest();
      Regrouped(seen, Pending(chunk), it.Rest(), rest);
    }
    assert seen == all;
    BlocksAppend(done, buffer);
    LastBlock(buffer);
    if buffer != [] {
      writes := writes + [buffer];
    }
  }

  /** A chunk that was taken but not yet used. */
  function Pending(chunk: Option<seq<byte>>): seq<byte> {
    if chunk.Some? then chunk.value else []
  }

  lemma Regrouped(a: seq<byte>, b: seq<byte>, c: seq<byte>, rest: seq<byte>)
    requires rest == b + c
    ensures a + b + c == a + rest
  {
  }

  /** Moves `chunk` into the buffer, writing it out whenever it is full. */
  method WriteChunk(writes0: seq<seq<byte>>, buffer0: seq<byte>, chunk0: seq<byte>, ghost done0: seq<byte>)
    returns (writes: seq<seq<byte>>, buffer: seq<byte>, ghost done: seq<byte>)
    requires |buffer0| < BLOCK && |done0| % BLOCK == 0 && writes0 == Blocks(done0)
    ensures |buffer| < BLOCK && |done| % BLOCK == 0 && writes == Blocks(done)
    ensures done + buffer == done0 + buffer0 + chunk0
  {
    hide Blocks;
    writes, buffer, done := writes0, buffer0, done0;
    var chunk := chunk0;
    while chunk != []
      invariant |buffer| < BLOCK && |done| % BLOCK == 0 && writes == Blocks(done)
      invariant done + buffer + chunk == done0 + buffer0 + chunk0
      decreases |chunk|
    {
      var n := if |chunk| < BLOCK - |buffer| then |chunk| else BLOCK - |buffer|;
      assert buffer + chunk == buffer + chunk[..n] + chunk[n..];
      buffer := buffer + chunk[..n];
      chunk := chunk[n..];
      if |buffer| == BLOCK {
        BlocksAppend(done, buffer);
        LastBlock(buffer);
        writes := writes + [buffer];
        done := done + buffer;
        buffer := [];
      }
    }
  }

  lemma NoBlocks()
    ensures Blocks([]) == []
  {
  }

  lemma LastBlock(buffer: seq<byte>)
    requires |buffer| <= BLOCK
    ensures Blocks(buffer) == if buffer == [] then [] else [buffer]
  {
  }
}
