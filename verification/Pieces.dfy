/**
A range of a list of chunks, in pieces: whole chunks, but for the first and the last one, which may
be cut. What an iterator still has to yield is such a range.
*/
module Pieces {
  import opened Heap
  import opened ChunkLists

  /** The bytes from `lo` to `hi`. */
  function Cut(chunks: seq<seq<byte>>, lo: nat, hi: nat): seq<seq<byte>> {
    if chunks == [] || hi <= lo then []
    else
      var m := |chunks[0]|;
      var end := if hi < m then hi else m;
      if m <= lo then Cut(chunks[1..], lo - m, hi - m)
      else [chunks[0][lo..end]] + Cut(chunks[1..], 0, hi - end)
  }

  lemma StartNext(chunks: seq<seq<byte>>, i: nat)
    requires 0 < i <= |chunks|
    ensures Start(chunks, i) == |chunks[0]| + Start(chunks[1..], i - 1)
  {
    assert chunks[..i] == [chunks[0]] + chunks[1..][..i - 1];
    FlattenJoin([chunks[0]], chunks[1..][..i - 1]);
    FlattenOne(chunks[0]);
  }

  /** All of a list without empty chunks. */
  lemma {:induction false} CutWhole(chunks: seq<seq<byte>>)
    requires NonEmpty(chunks)
    ensures Cut(chunks, 0, |Flatten(chunks)|) == chunks
  {
    if chunks != [] {
      assert chunks[0][0..|chunks[0]|] == chunks[0];
      CutWhole(chunks[1..]);
    }
  }

  /** The pieces hold something each, and together the bytes of the range. */
  lemma {:induction false} CutBytes(chunks: seq<seq<byte>>, lo: nat, hi: nat)
    requires lo <= hi <= |Flatten(chunks)|
    ensures NonEmpty(Cut(chunks, lo, hi)) && Flatten(Cut(chunks, lo, hi)) == Flatten(chunks)[lo..hi]
  {
    if chunks != [] && lo < hi {
      var m, end := |chunks[0]|, if hi < |chunks[0]| then hi else |chunks[0]|;
      if m <= lo {
        PartBehind(chunks[0], Flatten(chunks[1..]), lo, hi);
        CutBytes(chunks[1..], lo - m, hi - m);
      } else {
        PartAcross(chunks[0], Flatten(chunks[1..]), lo, hi);
        CutBytes(chunks[1..], 0, hi - end);
        assert Cut(chunks, lo, hi)[1..] == Cut(chunks[1..], 0, hi - end);
      }
    }
  }

  lemma PartBehind(a: seq<byte>, b: seq<byte>, lo: nat, hi: nat)
    requires |a| <= lo <= hi <= |a| + |b|
    ensures (a + b)[lo..hi] == b[lo - |a|..hi - |a|]
  {
  }

  lemma PartAcross(a: seq<byte>, b: seq<byte>, lo: nat, hi: nat)
    requires lo <= |a| && lo <= hi <= |a| + |b|
    ensures
      var end := if hi < |a| then hi else |a|;
      (a + b)[lo..hi] == a[lo..end] + b[0..hi - end]
  {
  }

  /** The first piece is what chunk `i` has from `lo` on. */
  lemma {:induction false} CutFront(chunks: seq<seq<byte>>, i: nat, lo: nat, hi: nat)
    requires i < |chunks| && Start(chunks, i) <= lo < hi && lo < Start(chunks, i + 1)
    ensures
      var start, end := Start(chunks, i), if hi < Start(chunks, i + 1) then hi else Start(chunks, i + 1);
      && end - start <= |chunks[i]|
      && Cut(chunks, lo, hi) == [chunks[i][lo - start..end - start]] + Cut(chunks, end, hi)
    decreases i
  {
    hide Flatten, Start;
    StartNext(chunks, i + 1);
    StartEnds(chunks);
    StartEnds(chunks[1..]);
    if i > 0 {
      StartNext(chunks, i);
      CutFront(chunks[1..], i - 1, lo - |chunks[0]|, hi - |chunks[0]|);
    }
  }

  /** The last piece is what chunk `i` has up to `hi`. */
  lemma {:induction false} CutBack(chunks: seq<seq<byte>>, i: nat, lo: nat, hi: nat)
    requires i < |chunks| && Start(chunks, i) < hi <= Start(chunks, i + 1) && lo < hi
    ensures
      var start, begin := Start(chunks, i), if lo < Start(chunks, i) then Start(chunks, i) else lo;
      && hi - start <= |chunks[i]|
      && Cut(chunks, lo, hi) == Cut(chunks, lo, begin) + [chunks[i][begin - start..hi - start]]
    decreases i
  {
    hide Flatten, Start, Cut;
    StartNext(chunks, i + 1);
    if i == 0 {
      StartEnds(chunks);
      StartEnds(chunks[1..]);
      CutHead(chunks, lo, hi);
    } else {
      var m, start := |chunks[0]|, Start(chunks, i);
      StartNext(chunks, i);
      var first, begin := if lo < m then 0 else lo - m, if lo < start then start else lo;
      CutBack(chunks[1..], i - 1, first, hi - m);
      var start' := Start(chunks[1..], i - 1);
      var begin' := if first < start' then start' else first;
      assert start' == start - m && begin' == begin - m && chunks[1..][i - 1] == chunks[i];
      CutTail(chunks, lo, begin, hi, [chunks[1..][i - 1][begin' - start'..hi - m - start']]);
    }
  }

  lemma CutHead(chunks: seq<seq<byte>>, lo: nat, hi: nat)
    requires chunks != [] && lo < hi <= |chunks[0]|
    ensures Cut(chunks, lo, lo) == [] && Cut(chunks, lo, hi) == [chunks[0][lo..hi]]
  {
    assert Cut(chunks[1..], 0, 0) == [];
  }

  lemma CutTail(chunks: seq<seq<byte>>, lo: nat, begin: nat, hi: nat, last: seq<seq<byte>>)
    requires chunks != [] && lo <= begin < hi && |chunks[0]| <= begin
    requires
      var m := |chunks[0]|;
      var first := if lo < m then 0 else lo - m;
      Cut(chunks[1..], first, hi - m) == Cut(chunks[1..], first, begin - m) + last
    ensures Cut(chunks, lo, hi) == Cut(chunks, lo, begin) + last
  {
    var m := |chunks[0]|;
    if lo < m {
      assert Cut(chunks, lo, begin) == [chunks[0][lo..m]] + Cut(chunks[1..], 0, begin - m);
      assert Cut(chunks, lo, hi) == [chunks[0][lo..m]] + Cut(chunks[1..], 0, hi - m);
    }
  }

  /** The pieces without their first `n` bytes. */
  function Drop(pieces: seq<seq<byte>>, n: nat): seq<seq<byte>> {
    if n == 0 || pieces == [] then pieces
    else if n < |pieces[0]| then [pieces[0][n..]] + pieces[1..]
    else Drop(pieces[1..], n - |pieces[0]|)
  }

  /** All that is dropped are whole pieces and the first part of one. */
  lemma {:induction false} DropIs(pieces: seq<seq<byte>>, k: nat, n: nat)
    requires NonEmpty(pieces) && k < |pieces| && Start(pieces, k) <= n < Start(pieces, k + 1)
    ensures n - Start(pieces, k) < |pieces[k]|
    ensures Drop(pieces, n) == [pieces[k][n - Start(pieces, k)..]] + pieces[k + 1..]
    decreases k
  {
    hide Flatten, Start;
    StartNext(pieces, k + 1);
    StartEnds(pieces);
    StartEnds(pieces[1..]);
    if k > 0 {
      StartNext(pieces, k);
      StartMono(pieces[1..], 0, k - 1);
      DropIs(pieces[1..], k - 1, n - |pieces[0]|);
      assert pieces[1..][k..] == pieces[k + 1..];
    } else {
      assert pieces == [pieces[0][0..]] + pieces[1..];
    }
  }

  lemma DropCons(first: seq<byte>, others: seq<seq<byte>>, n: nat)
    requires n > 0
    ensures
      Drop([first] + others, n) == if n < |first| then [first[n..]] + others else Drop(others, n - |first|)
  {
    assert ([first] + others)[1..] == others;
  }

  lemma {:induction false} CutDrop(chunks: seq<seq<byte>>, lo: nat, n: nat, hi: nat)
    requires lo + n <= hi
    ensures Cut(chunks, lo + n, hi) == Drop(Cut(chunks, lo, hi), n)
  {
    hide Drop;
    DropNone(Cut(chunks, lo, hi), n);
    if chunks != [] && lo < hi && n > 0 {
      var m := |chunks[0]|;
      if m <= lo {
        CutDrop(chunks[1..], lo - m, n, hi - m);
      } else {
        var end := if hi < m then hi else m;
        DropCons(chunks[0][lo..end], Cut(chunks[1..], 0, hi - end), n);
        if lo + n < end {
          assert chunks[0][lo..end][n..] == chunks[0][lo + n..end];
        } else {
          CutDrop(chunks[1..], 0, lo + n - end, hi - end);
        }
      }
    }
  }

  lemma DropNone(pieces: seq<seq<byte>>, n: nat)
    ensures n == 0 || pieces == [] ==> Drop(pieces, n) == pieces
  {
  }
}
