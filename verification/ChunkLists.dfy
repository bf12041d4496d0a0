/**
Lists of chunks: the bytes of a cord in the pieces in which they are stored.
*/
module ChunkLists {
  import opened Heap
  import opened Arenas

  function Flatten(chunks: seq<seq<byte>>): seq<byte> {
    if chunks == [] then [] else chunks[0] + Flatten(chunks[1..])
  }

  lemma {:induction false} FlattenJoin(a: seq<seq<byte>>, b: seq<seq<byte>>)
    ensures Flatten(a + b) == Flatten(a) + Flatten(b)
  {
    if a == [] {
      assert a + b == b;
    } else {
      assert (a + b)[1..] == a[1..] + b;
      FlattenJoin(a[1..], b);
    }
  }

  lemma FlattenOne(chunk: seq<byte>)
    ensures Flatten([chunk]) == chunk
  {
    assert [chunk][1..] == [];
  }

  lemma FlattenAppend(chunks: seq<seq<byte>>, chunk: seq<byte>)
    ensures Flatten(chunks + [chunk]) == Flatten(chunks) + chunk
  {
    FlattenJoin(chunks, [chunk]);
    FlattenOne(chunk);
  }

  /** No chunk of a cord is empty. */
  ghost predicate NonEmpty(chunks: seq<seq<byte>>) {
    forall i :: 0 <= i < |chunks| ==> chunks[i] != []
  }

  /** Where chunk `i` starts. */
  ghost function Start(chunks: seq<seq<byte>>, i: nat): nat
    requires i <= |chunks|
  {
    |Flatten(chunks[..i])|
  }

  /** Chunk `i` as a part of the whole. */
  lemma ChunkAt(chunks: seq<seq<byte>>, i: nat)
    requires i < |chunks|
    ensures Start(chunks, i + 1) == Start(chunks, i) + |chunks[i]| <= |Flatten(chunks)|
    ensures Flatten(chunks)[Start(chunks, i)..Start(chunks, i + 1)] == chunks[i]
  {
    assert chunks[..i + 1] == chunks[..i] + [chunks[i]];
    FlattenAppend(chunks[..i], chunks[i]);
    assert chunks == chunks[..i + 1] + chunks[i + 1..];
    FlattenJoin(chunks[..i + 1], chunks[i + 1..]);
  }

  lemma StartEnds(chunks: seq<seq<byte>>)
    ensures Start(chunks, 0) == 0 && Start(chunks, |chunks|) == |Flatten(chunks)|
  {
    assert chunks[..0] == [] && chunks[..|chunks|] == chunks;
  }

  /** Taking part of a chunk from the front of a range. */
  lemma TakeFront(total: seq<byte>, lo: nat, hi: nat, chunk: seq<byte>, n: nat)
    requires lo <= hi <= |total| && lo + |chunk| <= |total| && total[lo..lo + |chunk|] == chunk && n <= |chunk|
    requires n <= hi - lo
    ensures total[lo..hi] == chunk[..n] + total[lo + n..hi]
  {
    assert total[lo..lo + n] == chunk[..n];
  }

  /** Taking part of a chunk from the back of a range. */
  lemma TakeBack(total: seq<byte>, lo: nat, hi: nat, chunk: seq<byte>, n: nat)
    requires lo <= hi <= |total| && |chunk| <= hi && total[hi - |chunk|..hi] == chunk && n <= |chunk| && n <= hi - lo
    ensures total[lo..hi] == total[lo..hi - n] + chunk[|chunk| - n..]
  {
    assert total[hi - n..hi] == chunk[|chunk| - n..];
  }

  // --- The chunks of a tree ---------------------------------------------------------------------

  /** The bytes of data edges, one chunk each. */
  function ChunksOf(h: Heap, es: seq<Id>): (r: seq<seq<byte>>)
    ensures |r| == |es| && forall i :: 0 <= i < |es| ==> r[i] == DataBytes(h, es[i])
  {
    if es == [] then [] else [DataBytes(h, es[0])] + ChunksOf(h, es[1..])
  }

  lemma {:induction false} FlattenChunks(h: Heap, es: seq<Id>)
    ensures Flatten(ChunksOf(h, es)) == Cat(h, es)
  {
    if es != [] {
      FlattenChunks(h, es[1..]);
      assert ChunksOf(h, es)[1..] == ChunksOf(h, es[1..]);
    }
  }

  lemma ChunksOfPrefix(h: Heap, es: seq<Id>, n: nat)
    requires n <= |es|
    ensures ChunksOf(h, es)[..n] == ChunksOf(h, es[..n])
  {
  }

  /** Every chunk of a tree holds something, and together they are its bytes. */
  lemma TreeChunks(h: Heap, x: Id)
    requires Shape(h) && x in h
    ensures NonEmpty(ChunksOf(h, Leaves(h, x))) && Flatten(ChunksOf(h, Leaves(h, x))) == Bytes(h, x)
  {
    hide RepOk, DataBytes;
    LeavesAreData(h, x);
    FlattenChunks(h, Leaves(h, x));
    var es := Leaves(h, x);
    forall i | 0 <= i < |es| ensures DataBytes(h, es[i]) != [] {
      assert IsEdge(h, 0, es[i]);
      BytesOfData(h, es[i]);
    }
  }

  /** A place in a tree as a place in its list of chunks. */
  lemma PlaceInChunks(h: Heap, root: Id, behind: seq<Id>, e: Id, ahead: seq<Id>)
    requires Shape(h) && root in h && Leaves(h, root) == behind + [e] + ahead
    ensures
      var all := ChunksOf(h, Leaves(h, root));
      && |behind| < |all| && all[|behind|] == DataBytes(h, e)
      && Start(all, |behind|) == |Cat(h, behind)| && Start(all, |behind| + 1) + |Cat(h, ahead)| == |Flatten(all)|
      && Flatten(all) == Cat(h, behind) + DataBytes(h, e) + Cat(h, ahead)
  {
    hide RepOk, DataBytes, Flatten, Leaves, Cat;
    var es := Leaves(h, root);
    var all := ChunksOf(h, es);
    ChunksOfPrefix(h, es, |behind|);
    assert es[..|behind|] == behind && es[|behind|] == e;
    FlattenChunks(h, behind);
    FlattenChunks(h, es);
    CatAppend(h, behind + [e], ahead);
    CatAppend(h, behind, [e]);
    CatOne(h, e);
    ChunkAt(all, |behind|);
  }

  lemma DataNotEmpty(h: Heap, es: seq<Id>)
    requires Shape(h) && AllEdges(h, 0, es)
    ensures |Cat(h, es)| == 0 <==> es == []
  {
    if es != [] {
      assert es[0] in es && IsEdge(h, 0, es[0]);
      BytesOfData(h, es[0]);
    }
  }

  lemma StartMono(chunks: seq<seq<byte>>, i: nat, j: nat)
    requires i <= j <= |chunks|
    ensures Start(chunks, i) <= Start(chunks, j)
  {
    assert chunks[..j] == chunks[..i] + chunks[i..j];
    FlattenJoin(chunks[..i], chunks[i..j]);
  }

  /** The chunks of a tree do not change while cells and references are added. */
  lemma ChunksExtend(h: Heap, h': Heap, x: Id)
    requires Shape(h) && Shape(h') && Extends(h, h') && x in h
    ensures x in h' && ChunksOf(h', Leaves(h', x)) == ChunksOf(h, Leaves(h, x))
  {
    hide RepOk, DataBytes;
    LeavesFrame(h, h', {}, x);
    LeavesAreData(h, x);
    var es := Leaves(h, x);
    forall i | 0 <= i < |es| ensures DataBytes(h', es[i]) == DataBytes(h, es[i]) {
      assert IsEdge(h, 0, es[i]);
      DataFrame(h, h', {}, es[i]);
    }
  }
}
