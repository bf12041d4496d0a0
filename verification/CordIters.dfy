/**
Double-ended iteration over the chunks and the bytes of a cord (iter.rs), with the state that the
source keeps: a reader for the front and, once it is needed, another one for the back. A cord that is
not a btree has a single chunk and no reader.
*/
module CordIters {
  import opened Heap
  import opened Substrings
  import opened ChunkLists
  import opened Pieces
  import opened Readers

  /** The objects of a reader. */
  ghost function Parts(r: Reader): set<object> {
    {r, r.navigator, r.navigator.index, r.navigator.node}
  }

  /** A tree that can be navigated. */
  ghost predicate IsTree(h: Heap, x: Id) {
    Shape(h) && AllSettled(h, {}) && x in h && h[x].rep.Btree? && h[x].rep.height <= MAX_HEIGHT
  }

  /** Iterates the chunks of a cord from both ends. */
  class Chunks {
    const h: Heap
    /** The btree, or none if the cord is a single chunk. */
    const tree: Option<Id>
    const front: Reader
    var current: seq<byte>
    var remaining: nat
    var back: Reader?
    var backCurrent: seq<byte>
    ghost const all: seq<seq<byte>>
    /** The places of the two chunks in the list of all chunks. */
    ghost var at: nat
    ghost var backAt: nat
    /** The bytes not yet yielded, as a range of all bytes. */
    ghost var lo: nat
    ghost var hi: nat
    ghost var Repr: set<object>

    ghost predicate Valid()
      reads this, Repr
    {
      && this in Repr && Parts(front) <= Repr && (back != null ==> Parts(back) <= Repr && Parts(back) !! Parts(front))
      && lo <= hi <= |Flatten(all)| && remaining == hi - lo && Listed(h, tree, all)
      && (remaining == 0 ==> current == [])
      && (remaining > 0 ==> Exactly(h, tree, front, at) && FrontAt(all, at, lo, current))
      && (remaining > 0 && back != null
          ==> Stands(h, tree, back, backAt) && BackIs(tree, all, backAt, lo, hi, backCurrent))
      && (back == null ==> hi == |Flatten(all)|)
    }

    /** The bytes still to come. */
    ghost function Rest(): seq<byte>
      requires Valid()
      reads this, Repr
    {
      Flatten(all)[lo..hi]
    }

    /** The same in the pieces in which it will be yielded. */
    ghost function Ahead(): seq<seq<byte>>
      requires Valid()
      reads this, Repr
    {
      Cut(all, lo, hi)
    }

    constructor (h0: Heap, tree0: Option<Id>, single: seq<byte>)
      requires tree0.Some? ==> IsTree(h0, tree0.value)
      ensures Valid() && fresh(Repr) && back == null
      ensures Rest() == if tree0.Some? then Bytes(h0, tree0.value) else single
      ensures
        Ahead() == if tree0.Some? then ChunksOf(h0, Leaves(h0, tree0.value)) else if single == [] then [] else [single]
    {
      hide Flatten, Start, ChunksOf, Leaves, Bytes, AllSettled, Exactly, Stands, FrontAt, BackIs, Cut;
      h, tree := h0, tree0;
      front := new Reader();
      back, backCurrent, current := null, [], single;
      ghost var list := if tree0.Some? then ChunksOf(h0, Leaves(h0, tree0.value))
        else if single == [] then [] else [single];
      all := list;
      at, backAt, lo := 0, 0, 0;
      hi := |Flatten(list)|;
      remaining := if tree0.Some? then h0[tree0.value].rep.Len() else |single|;
      new;
      Repr := {this} + Parts(front);
      StartEnds(list);
      if tree0.Some? {
        TreeChunks(h0, tree0.value);
        LenIsBytes(h0, tree0.value);
        current := FirstOf(h0, tree0, list, front);
      } else {
        SingleChunk(h0, tree0, single, front);
      }
      CutWhole(list);
    }

    /** The count of bytes left is exact. */
    lemma RestLen()
      requires Valid()
      ensures |Rest()| == remaining
    {
      hide Flatten, Start, Exactly, Stands, Listed, FrontAt, BackIs;
    }

    /** What is yielded are pieces of what was to come, and none is empty. */
    lemma AheadIs()
      requires Valid()
      ensures NonEmpty(Ahead()) && Flatten(Ahead()) == Rest() && (Ahead() == [] <==> Rest() == [])
    {
      hide Flatten, Start, Exactly, Stands, Listed, FrontAt, BackIs, Cut;
      CutBytes(all, lo, hi);
      FlattenEmpty(Ahead());
    }

    /** The front chunk is what follows. */
    lemma FrontChunk()
      requires Valid() && remaining > 0
      ensures at < |all| && lo + |current| == Start(all, at + 1) <= |Flatten(all)| && current != []
      ensures Flatten(all)[lo..lo + |current|] == current
      ensures
        var n := if |current| < remaining then |current| else remaining;
        Ahead() == [current[..n]] + Cut(all, lo + n, hi)
    {
      hide Exactly, Stands, Listed, Flatten, Start, Cut;
      ChunkFrom(all, at, lo, current);
      FrontPiece(all, at, lo, hi, current);
    }

    lemma BackChunk()
      requires Valid() && remaining > 0 && back != null
      ensures |backCurrent| <= hi && Flatten(all)[hi - |backCurrent|..hi] == backCurrent && backCurrent != []
      ensures tree.Some? ==> backAt < |all| && hi - |backCurrent| == Start(all, backAt)
      ensures tree.None? ==> |backCurrent| >= remaining
      ensures
        var n := if |backCurrent| < remaining then |backCurrent| else remaining;
        Ahead() == Cut(all, lo, hi - n) + [backCurrent[|backCurrent| - n..]]
    {
      hide Exactly, Stands, Listed, Flatten, Start, Cut;
      if tree.Some? {
        ChunkTo(all, backAt, hi, backCurrent);
        BackPiece(all, backAt, lo, hi, backCurrent);
      } else {
        LastPiece(h, tree, all, at, lo, hi, backCurrent);
      }
    }

    /** The next chunk from the front. */
    method Next() returns (chunk: Option<seq<byte>>)
      requires Valid()
      modifies Repr
      ensures Valid() && Repr == old(Repr) && chunk.Some? == (old(Rest()) != [])
      ensures chunk.Some? ==> chunk.value != [] && old(Rest()) == chunk.value + Rest()
      ensures chunk.Some? ==> old(Ahead()) == [chunk.value] + Ahead()
      ensures chunk.None? ==> Rest() == [] && Ahead() == old(Ahead()) == []
    {
      hide Flatten, Start, Exactly, Stands, Listed, FrontAt, BackAt, BackIs, Cut;
      AheadIs();
      if remaining == 0 {
        chunk := None;
      } else {
        FrontChunk();
        var n := if |current| < remaining then |current| else remaining;
        ghost var total, i, j := Flatten(all), lo, hi;
        var piece := current[..n];
        TakeFront(total, i, j, current, n);
        assert total[i..j] == piece + total[i + n..j] && piece != [];
        StepFront(n);
        assert Rest() == total[i + n..j] && Ahead() == Cut(all, i + n, j);
        chunk := Some(piece);
      }
    }

    /** Moves the front past `n` bytes: the front chunk, or all that is left of it. */
    method StepFront(n: nat)
      requires Valid() && remaining > 0 && n == (if |current| < remaining then |current| else remaining)
      modifies Repr
      ensures Valid() && Repr == old(Repr) && lo == old(lo) + n && hi == old(hi) && back == old(back)
      ensures remaining == old(remaining) - n
    {
      hide Flatten, Start, Exactly, Stands, Listed, FrontAt, BackAt, BackIs;
      FrontChunk();
      if back != null {
        BackMoves(tree, all, backAt, lo, hi, backCurrent, n);
      }
      remaining := remaining - n;
      lo := lo + n;
      if remaining == 0 {
        current := [];
      } else {
        MoreChunks(h, tree, all, at, lo);
        current := NextOf(h, tree, all, front, at);
        at := at + 1;
      }
    }

    /** The next chunk from the back. */
    method NextBack() returns (chunk: Option<seq<byte>>)
      requires Valid()
      modifies Repr
      ensures Valid() && fresh(Repr - old(Repr)) && chunk.Some? == (old(Rest()) != [])
      ensures chunk.Some? ==> chunk.value != [] && old(Rest()) == Rest() + chunk.value
      ensures chunk.Some? ==> old(Ahead()) == Ahead() + [chunk.value]
      ensures chunk.None? ==> Rest() == [] && Ahead() == old(Ahead()) == []
    {
      hide Flatten, Start, Exactly, Stands, Listed, FrontAt, BackAt, BackIs, Cut;
      AheadIs();
      if remaining == 0 {
        chunk := None;
      } else {
        ghost var total, i, j := Flatten(all), lo, hi;
        if back == null {
          InitBack();
        }
        BackChunk();
        var n := if |backCurrent| < remaining then |backCurrent| else remaining;
        var split := |backCurrent| - n;
        var piece := backCurrent[split..];
        TakeBack(total, i, j, backCurrent, n);
        assert total[i..j] == total[i..j - n] + piece && piece != [];
        StepBack(n, split);
        assert Rest() == total[i..j - n] && Ahead() == Cut(all, i, j - n);
        chunk := Some(piece);
      }
    }

    /** Starts at the last chunk, with a reader of its own. */
    method InitBack()
      requires Valid() && remaining > 0 && back == null
      modifies Repr
      ensures Valid() && fresh(Repr - old(Repr)) && back != null && lo == old(lo) && hi == old(hi)
      ensures remaining == old(remaining)
    {
      hide Flatten, Start, Exactly, Stands, Listed, FrontAt, BackAt, BackIs, Cut, Chunks.Ahead;
      FrontChunk();
      backAt := |all| - 1;
      var reader := new Reader();
      if tree.Some? {
        backCurrent := LastOf(h, tree, all, front, at, reader);
        BackLast(h, tree, all, lo);
      } else {
        StandsNowhere(h, tree, reader, backAt);
        backCurrent := current;
        BackSingle(h, tree, all, at, backAt, lo, current);
      }
      back := reader;
      Repr := Repr + Parts(reader);
    }

    method StepBack(n: nat, split: nat)
      requires Valid() && remaining > 0 && back != null
      requires n == (if |backCurrent| < remaining then |backCurrent| else remaining)
      requires split == |backCurrent| - n
      modifies Repr
      ensures Valid() && Repr == old(Repr) && lo == old(lo) && hi == old(hi) - n
    {
      hide Flatten, Start, Exactly, Stands, Listed, FrontAt, BackAt, BackIs;
      BackChunk();
      remaining := remaining - n;
      hi := hi - n;
      if remaining == 0 {
        current := [];
        backCurrent := [];
      } else {
        // A chunk is split only where the two ends meet.
        assert split == 0;
        FewerChunks(h, tree, all, backAt, hi);
        backCurrent := PreviousOf(h, tree, all, back, backAt);
        backAt := backAt - 1;
        BackInTree(tree, all, backAt, lo, hi, backCurrent);
      }
    }

    /** Skips `n` bytes. */
    method AdvanceBytes(n: nat)
      requires Valid() && n <= remaining
      modifies Repr
      ensures Valid() && Repr == old(Repr) && lo == old(lo) + n && hi == old(hi)
      ensures Rest() == old(Rest())[n..] && Ahead() == Drop(old(Ahead()), n)
    {
      hide Flatten, Start, Exactly, Stands, Listed, FrontAt, BackAt, BackIs, Cut, Drop;
      ghost var total, i, j := Flatten(all), lo, hi;
      CutDrop(all, lo, n, hi);
      if back != null {
        AdvanceBetweenEnds(n);
      } else if n < |current| {
        if n != 0 {
          FrontChunk();
          FrontDrop(all, at, lo, current, n);
        }
        current := current[n..];
        remaining := remaining - n;
        lo := lo + n;
      } else if n != 0 {
        AdvanceForward(n);
      }
      assert total[i..j][n..] == total[i + n..j];
    }

    /** Skips beyond the front chunk: to the next one, or by seeking. */
    method AdvanceForward(n: nat)
      requires Valid() && |current| <= n <= remaining && n != 0 && back == null
      modifies Repr
      ensures Valid() && Repr == old(Repr) && lo == old(lo) + n && hi == old(hi) && back == old(back)
    {
      hide Flatten, Start, Exactly, Stands, Listed, FrontAt, BackAt, BackIs;
      FrontChunk();
      remaining := remaining - n;
      lo := lo + n;
      if remaining == 0 {
        current := [];
      } else {
        MoreChunks(h, tree, all, at, lo);
        if n == |current| {
          current := NextOf(h, tree, all, front, at);
          at := at + 1;
        } else {
          ghost var i;
          current, i := SeekOf(h, tree, all, front, at, remaining);
          at := i;
        }
      }
    }

    method AdvanceBetweenEnds(n0: nat)
      requires Valid() && n0 <= remaining
      modifies Repr
      ensures Valid() && Repr == old(Repr) && lo == old(lo) + n0 && hi == old(hi) && back == old(back)
    {
      hide Flatten, Start, Exactly, Stands, Listed, FrontAt, BackAt, BackIs;
      var n: nat := n0;
      while n != 0
        invariant Valid() && Repr == old(Repr) && n <= remaining && lo == old(lo) + (n0 - n) && hi == old(hi)
        invariant back == old(back)
        decreases n
      {
        FrontChunk();
        var available := if |current| < remaining then |current| else remaining;
        if n < available {
          FrontDrop(all, at, lo, current, n);
          if back != null {
            BackMoves(tree, all, backAt, lo, hi, backCurrent, n);
          }
          current := current[n..];
          remaining := remaining - n;
          lo := lo + n;
          n := 0;
        } else {
          n := n - available;
          StepFront(available);
        }
      }
    }
  }

  // --- Readers as places in the list of chunks -------------------------------------------------------

  /** `all` are the chunks of the tree, or the only chunk if there is no tree. */
  ghost predicate Listed(h: Heap, tree: Option<Id>, all: seq<seq<byte>>) {
    && NonEmpty(all)
    && if tree.Some? then IsTree(h, tree.value) && all == ChunksOf(h, Leaves(h, tree.value)) else |all| <= 1
  }

  /** The reader, if one is needed, stands at chunk `i`. */
  ghost predicate Stands(h: Heap, tree: Option<Id>, r: Reader, i: nat)
    reads r, r.navigator, r.navigator.index, r.navigator.node
  {
    tree.Some? ==> r.Placed(h) && r.navigator.Root() == tree.value && r.At(h) == i
  }

  /** The same, and its count of remaining bytes is exact. */
  ghost predicate Exactly(h: Heap, tree: Option<Id>, r: Reader, i: nat)
    reads r, r.navigator, r.navigator.index, r.navigator.node
  {
    tree.Some? ==> r.Exact(h) && r.navigator.Root() == tree.value && r.At(h) == i
  }

  lemma StandsNowhere(h: Heap, tree: Option<Id>, r: Reader, i: nat)
    requires tree.None?
    ensures Stands(h, tree, r, i)
  {
  }

  /** What is left of chunk `i` from byte `lo` on. */
  ghost predicate FrontAt(all: seq<seq<byte>>, i: nat, lo: nat, chunk: seq<byte>) {
    i < |all| && Start(all, i) <= lo && lo - Start(all, i) < |all[i]| && chunk == all[i][lo - Start(all, i)..]
  }

  /** What is left of chunk `i` up to byte `hi`. */
  ghost predicate BackAt(all: seq<seq<byte>>, i: nat, hi: nat, chunk: seq<byte>) {
    i < |all| && Start(all, i) < hi && hi - Start(all, i) <= |all[i]| && chunk == all[i][..hi - Start(all, i)]
  }

  lemma ChunkFrom(all: seq<seq<byte>>, i: nat, lo: nat, chunk: seq<byte>)
    requires FrontAt(all, i, lo, chunk)
    ensures i < |all| && lo + |chunk| == Start(all, i + 1) <= |Flatten(all)| && chunk != []
    ensures Flatten(all)[lo..lo + |chunk|] == chunk
  {
    ChunkAt(all, i);
  }

  lemma FrontPiece(all: seq<seq<byte>>, i: nat, lo: nat, hi: nat, chunk: seq<byte>)
    requires FrontAt(all, i, lo, chunk) && lo < hi
    ensures
      var n := if |chunk| < hi - lo then |chunk| else hi - lo;
      Cut(all, lo, hi) == [chunk[..n]] + Cut(all, lo + n, hi)
  {
    hide Flatten, Start, Cut;
    ChunkAt(all, i);
    CutFront(all, i, lo, hi);
    var n := if |chunk| < hi - lo then |chunk| else hi - lo;
    assert chunk[..n] == all[i][lo - Start(all, i)..lo + n - Start(all, i)];
  }

  lemma BackPiece(all: seq<seq<byte>>, i: nat, lo: nat, hi: nat, chunk: seq<byte>)
    requires BackAt(all, i, hi, chunk) && lo < hi
    ensures
      var n := if |chunk| < hi - lo then |chunk| else hi - lo;
      Cut(all, lo, hi) == Cut(all, lo, hi - n) + [chunk[|chunk| - n..]]
  {
    hide Flatten, Start, Cut;
    ChunkAt(all, i);
    CutBack(all, i, lo, hi);
    var n := if |chunk| < hi - lo then |chunk| else hi - lo;
    assert chunk[|chunk| - n..] == all[i][hi - n - Start(all, i)..hi - Start(all, i)];
  }

  /** What is left of the only chunk. */
  lemma LastPiece(h: Heap, tree: Option<Id>, all: seq<seq<byte>>, i: nat, lo: nat, hi: nat, chunk: seq<byte>)
    requires tree.None? && Listed(h, tree, all) && i < |all| && lo < hi && BackIs(tree, all, i, lo, hi, chunk)
    ensures
      var n := hi - lo;
      n <= |chunk| && Cut(all, lo, hi) == Cut(all, lo, hi - n) + [chunk[|chunk| - n..]]
  {
    hide Cut;
    assert all == [all[0]];
    FlattenOne(all[0]);
    assert chunk[|chunk| - (hi - lo)..] == all[0][lo..hi];
    CutHead(all, lo, hi);
  }

  lemma FlattenEmpty(chunks: seq<seq<byte>>)
    requires NonEmpty(chunks)
    ensures Flatten(chunks) == [] <==> chunks == []
  {
  }

  lemma ChunkTo(all: seq<seq<byte>>, i: nat, hi: nat, chunk: seq<byte>)
    requires BackAt(all, i, hi, chunk) && hi <= |Flatten(all)|
    ensures |chunk| <= hi && hi - |chunk| == Start(all, i) && chunk != []
    ensures Flatten(all)[hi - |chunk|..hi] == chunk
  {
    ChunkAt(all, i);
  }

  /** If bytes are left behind the end of chunk `i`, there is another chunk, and a tree. */
  lemma MoreChunks(h: Heap, tree: Option<Id>, all: seq<seq<byte>>, i: nat, lo: nat)
    requires Listed(h, tree, all) && i < |all| && Start(all, i + 1) <= lo < |Flatten(all)|
    ensures i + 1 < |all| && tree.Some? && Start(all, i + 1) < |Flatten(all)|
  {
    hide Flatten, Start, IsTree;
    StartEnds(all);
  }

  lemma FewerChunks(h: Heap, tree: Option<Id>, all: seq<seq<byte>>, i: nat, hi: nat)
    requires Listed(h, tree, all) && i < |all| && 0 < hi == Start(all, i)
    ensures i > 0 && tree.Some?
  {
    hide Flatten, Start, IsTree;
    StartEnds(all);
  }

  /** What is left of the back chunk: part of a chunk of the tree, or at least what is left of the only chunk. */
  ghost predicate BackIs(tree: Option<Id>, all: seq<seq<byte>>, i: nat, lo: nat, hi: nat, chunk: seq<byte>) {
    if tree.Some? then BackAt(all, i, hi, chunk)
    else chunk != [] && |chunk| <= hi <= |Flatten(all)| && hi - |chunk| <= lo && Flatten(all)[hi - |chunk|..hi] == chunk
  }

  lemma BackMoves(tree: Option<Id>, all: seq<seq<byte>>, i: nat, lo: nat, hi: nat, chunk: seq<byte>, n: nat)
    requires BackIs(tree, all, i, lo, hi, chunk)
    ensures BackIs(tree, all, i, lo + n, hi, chunk)
  {
    hide Flatten, Start;
  }

  lemma BackInTree(tree: Option<Id>, all: seq<seq<byte>>, i: nat, lo: nat, hi: nat, chunk: seq<byte>)
    requires tree.Some? && BackAt(all, i, hi, chunk)
    ensures BackIs(tree, all, i, lo, hi, chunk)
  {
  }

  lemma BackLast(h: Heap, tree: Option<Id>, all: seq<seq<byte>>, lo: nat)
    requires tree.Some? && all != [] && Listed(h, tree, all)
    ensures BackIs(tree, all, |all| - 1, lo, |Flatten(all)|, all[|all| - 1])
  {
    hide Flatten, Start, IsTree, ChunksOf, Leaves;
    StartEnds(all);
    ChunkAt(all, |all| - 1);
  }

  lemma BackSingle(h: Heap, tree: Option<Id>, all: seq<seq<byte>>, i: nat, j: nat, lo: nat, chunk: seq<byte>)
    requires tree.None? && Listed(h, tree, all) && i < |all| && lo + |chunk| == Start(all, i + 1) <= |Flatten(all)|
    requires chunk != []
    requires Flatten(all)[lo..lo + |chunk|] == chunk
    ensures BackIs(tree, all, j, lo, |Flatten(all)|, chunk)
  {
    hide Flatten, Start;
    StartEnds(all);
  }

  lemma FrontDrop(all: seq<seq<byte>>, i: nat, lo: nat, chunk: seq<byte>, n: nat)
    requires FrontAt(all, i, lo, chunk) && n < |chunk|
    ensures FrontAt(all, i, lo + n, chunk[n..])
  {
    hide Flatten, Start;
  }

  /** The first chunk of the tree. */
  method FirstOf(h: Heap, tree: Option<Id>, ghost all: seq<seq<byte>>, r: Reader) returns (chunk: seq<byte>)
    requires tree.Some? && IsTree(h, tree.value) && all == ChunksOf(h, Leaves(h, tree.value)) && r.navigator.Sized()
    modifies r, r.navigator, r.navigator.index, r.navigator.node
    ensures Exactly(h, tree, r, 0) && FrontAt(all, 0, 0, chunk)
  {
    hide Flatten, ChunksOf, Leaves;
    chunk := r.Init(h, tree.value);
    r.InList(h);
    StartEnds(all);
    ChunkAt(all, 0);
  }

  /** The next chunk of the tree. */
  method NextOf(h: Heap, tree: Option<Id>, ghost all: seq<seq<byte>>, r: Reader, ghost i: nat)
    returns (chunk: seq<byte>)
    requires Listed(h, tree, all) && tree.Some? && Exactly(h, tree, r, i) && i + 1 < |all|
    modifies r, r.navigator.index, r.navigator.node
    ensures Exactly(h, tree, r, i + 1) && FrontAt(all, i + 1, Start(all, i + 1), chunk)
  {
    hide Flatten, Start, ChunksOf, Leaves;
    r.InList(h);
    chunk := r.Next(h);
  }

  /** The previous chunk of the tree. */
  method PreviousOf(h: Heap, tree: Option<Id>, ghost all: seq<seq<byte>>, r: Reader, ghost i: nat)
    returns (chunk: seq<byte>)
    requires Listed(h, tree, all) && tree.Some? && Stands(h, tree, r, i) && 0 < i < |all|
    modifies r.navigator.index, r.navigator.node
    ensures Stands(h, tree, r, i - 1) && BackAt(all, i - 1, Start(all, i), chunk)
  {
    hide Flatten, Start, ChunksOf, Leaves, AllSettled, Shape, BackAt, Bytes, DataBytes, Cat;
    chunk := r.Previous(h);
    WholeChunk(all, i - 1);
  }

  lemma WholeChunk(all: seq<seq<byte>>, i: nat)
    requires NonEmpty(all) && i < |all|
    ensures BackAt(all, i, Start(all, i + 1), all[i])
  {
    hide Flatten, Start;
    ChunkAt(all, i);
  }

  /** The last chunk of the tree of another reader. */
  method LastOf(h: Heap, tree: Option<Id>, ghost all: seq<seq<byte>>, front: Reader, ghost i: nat, r: Reader)
    returns (chunk: seq<byte>)
    requires Listed(h, tree, all) && tree.Some? && Exactly(h, tree, front, i) && r.navigator.Sized()
    requires Parts(front) !! Parts(r)
    modifies r, r.navigator, r.navigator.index, r.navigator.node
    ensures all != [] && Stands(h, tree, r, |all| - 1) && chunk == all[|all| - 1]
  {
    hide Flatten, Start, ChunksOf, Leaves, AllSettled, Bytes, DataBytes, Cat;
    front.InList(h);
    chunk := r.InitLastFrom(h, front);
  }

  /** The chunk from which `left` bytes are left to the end of the tree. */
  method SeekOf(h: Heap, tree: Option<Id>, ghost all: seq<seq<byte>>, r: Reader, ghost i: nat, left: nat)
    returns (chunk: seq<byte>, ghost j: nat)
    requires Listed(h, tree, all) && tree.Some? && Exactly(h, tree, r, i) && 0 < left <= |Flatten(all)|
    modifies r, r.navigator.index, r.navigator.node
    ensures Exactly(h, tree, r, j) && FrontAt(all, j, |Flatten(all)| - left, chunk)
  {
    hide Flatten, Start, ChunksOf, Leaves, Bytes, AllSettled;
    r.InList(h);
    LenIsBytes(h, tree.value);
    var offset: nat := h[tree.value].rep.Len() - left;
    chunk := r.Seek(h, offset);
    j := r.At(h);
  }

  lemma SingleChunk(h: Heap, tree: Option<Id>, single: seq<byte>, r: Reader)
    requires tree.None?
    ensures
      var list := if single == [] then [] else [single];
      && Flatten(list) == single && NonEmpty(list) && Exactly(h, tree, r, 0)
      && (single != [] ==> FrontAt(list, 0, 0, single))
  {
    FlattenOne(single);
    StartEnds([single]);
  }

  // --- Every interleaving ------------------------------------------------------------------------

  function Reversed(chunks: seq<seq<byte>>): seq<seq<byte>> {
    if chunks == [] then [] else Reversed(chunks[1..]) + [chunks[0]]
  }

  lemma {:induction false} ReversedAppend(chunks: seq<seq<byte>>, chunk: seq<byte>)
    ensures Reversed(chunks + [chunk]) == [chunk] + Reversed(chunks)
  {
    if chunks == [] {
      assert [] + [chunk] == [chunk] && [chunk][1..] == [];
      assert Reversed([chunk]) == Reversed([]) + [chunk];
    } else {
      assert (chunks + [chunk])[1..] == chunks[1..] + [chunk];
      ReversedAppend(chunks[1..], chunk);
    }
  }

  /**
  Any interleaving of calls from both ends (`true` for the front): the chunks from the front,
  those that are left, and the chunks from the back in reverse are those that there were. Each call
  yields a chunk as long as there is one.
  */
  method Drain(it: Chunks, calls: seq<bool>) returns (front: seq<seq<byte>>, back: seq<seq<byte>>)
    requires it.Valid()
    modifies it.Repr
    ensures it.Valid() && fresh(it.Repr - old(it.Repr)) && NonEmpty(front) && NonEmpty(back)
    ensures front + it.Ahead() + Reversed(back) == old(it.Ahead())
    ensures Flatten(front) + it.Rest() + Flatten(Reversed(back)) == old(it.Rest())
    ensures |front| + |back| == if |calls| < |old(it.Ahead())| then |calls| else |old(it.Ahead())|
    ensures (forall i :: 0 <= i < |calls| ==> calls[i]) ==> back == []
    ensures (forall i :: 0 <= i < |calls| ==> !calls[i]) ==> front == []
  {
    hide Flatten, Reversed, Chunks.Valid, Chunks.Ahead, Chunks.Rest;
    front, back := [], [];
    ghost var all := it.Ahead();
    it.AheadIs();
    EmptyLists();
    assert [] + all + [] == all;
    var i := 0;
    while i < |calls|
      invariant 0 <= i <= |calls| && it.Valid() && fresh(it.Repr - old(it.Repr))
      invariant front + it.Ahead() + Reversed(back) == all
      invariant |front| + |back| == if i < |all| then i else |all|
      invariant (forall j :: 0 <= j < i ==> calls[j]) ==> back == []
      invariant (forall j :: 0 <= j < i ==> !calls[j]) ==> front == []
    {
      ghost var ahead := it.Ahead();
      ReversedSize(back);
      if calls[i] {
        var chunk := it.Next();
        if chunk.Some? {
          FromFront(front, chunk.value, it.Ahead(), Reversed(back));
          front := front + [chunk.value];
        }
      } else {
        var chunk := it.NextBack();
        if chunk.Some? {
          ReversedAppend(back, chunk.value);
          FromBack(front, it.Ahead(), chunk.value, Reversed(back));
          back := back + [chunk.value];
        }
      }
      i := i + 1;
    }
    it.AheadIs();
    Drained(front, it.Ahead(), back, all);
  }

  lemma FromFront(front: seq<seq<byte>>, chunk: seq<byte>, left: seq<seq<byte>>, back: seq<seq<byte>>)
    ensures front + [chunk] + left + back == front + ([chunk] + left) + back
  {
  }

  lemma FromBack(front: seq<seq<byte>>, left: seq<seq<byte>>, chunk: seq<byte>, back: seq<seq<byte>>)
    ensures front + left + ([chunk] + back) == front + (left + [chunk]) + back
  {
  }

  lemma {:induction false} ReversedSize(chunks: seq<seq<byte>>)
    ensures |Reversed(chunks)| == |chunks|
  {
    if chunks != [] {
      ReversedSize(chunks[1..]);
    }
  }

  lemma {:induction false} ReversedAt(chunks: seq<seq<byte>>, i: nat)
    requires i < |chunks|
    ensures |Reversed(chunks)| == |chunks| && Reversed(chunks)[|chunks| - 1 - i] == chunks[i]
  {
    ReversedSize(chunks[1..]);
    if i > 0 {
      ReversedAt(chunks[1..], i - 1);
    }
  }

  lemma Drained(front: seq<seq<byte>>, left: seq<seq<byte>>, back: seq<seq<byte>>, all: seq<seq<byte>>)
    requires front + left + Reversed(back) == all && NonEmpty(all)
    ensures NonEmpty(front) && NonEmpty(back)
    ensures Flatten(front) + Flatten(left) + Flatten(Reversed(back)) == Flatten(all)
  {
    hide Flatten, Reversed;
    FlattenJoin(front + left, Reversed(back));
    FlattenJoin(front, left);
    forall i | 0 <= i < |front| ensures front[i] != [] {
      assert all[i] == front[i];
    }
    forall i | 0 <= i < |back| ensures back[i] != [] {
      ReversedAt(back, i);
      assert all[|front| + |left| + (|back| - 1 - i)] == back[i];
    }
  }

  lemma EmptyLists()
    ensures Flatten([]) == [] && Reversed([]) == []
  {
  }
}
