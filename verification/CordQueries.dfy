/**
Searching, comparing and hashing cords (cord.rs): the answers depend on the bytes of the cords only,
not on how they are stored.
*/
module CordQueries {
  import opened Heap
  import opened Substrings
  import opened Nodes
  import opened Indexing
  import opened SubTrees
  import opened Navigators
  import opened Cords
  import ChunkLists
  import ChunkIters
  import CordIters
  import ByteIters
  import Comparing
  import Search

  /** The byte at `index`, found by the stored lengths alone. */
  method ByteRef(h: Heap, c: Cord, index: nat) returns (b: byte)
    requires Shape(h) && AllSettled(h, {}) && CordOk(h, c) && index < |Value(h, c)|
    ensures b == Value(h, c)[index]
  {
    hide RepOk, AllSettled, Bytes, IsSettledNode, Span;
    if c.Inline? {
      return c.bytes[index];
    }
    var x, offset: nat := c.root, index;
    LenIsBytes(h, x);
    while h[x].rep.Btree?
      invariant x in h && offset < h[x].rep.Len() == |Bytes(h, x)| && Bytes(h, x)[offset] == Value(h, c)[index]
      decreases h[x].rep.Level()
    {
      SettledAt(h, x);
      var i, n := IndexOf(h, h[x].rep, offset);
      ByteBelow(h, x, i, n, offset);
      x, offset := h[x].rep.slots[i], n;
    }
    BytesOfData(h, x);
    if h[x].rep.Substring? {
      Backed(h, x);
      b := h[h[x].rep.child].rep.data[h[x].rep.start + offset];
    } else {
      b := h[x].rep.data[offset];
    }
  }

  lemma ByteBelow(h: Heap, x: Id, i: nat, n: nat, offset: nat)
    requires Shape(h) && AllSettled(h, {}) && x in h && IsNode(h[x].rep) && h[x].rep.begin <= i < h[x].rep.end
    requires offset < |Bytes(h, x)|
    requires Span(h, h[x].rep, h[x].rep.begin, i) + n == offset && h[x].rep.slots[i] in h
    requires n < h[h[x].rep.slots[i]].rep.Len()
    ensures
      var e := h[x].rep.slots[i];
      h[e].rep.Level() < h[x].rep.Level() && h[e].rep.Len() == |Bytes(h, e)| && Bytes(h, x)[offset] == Bytes(h, e)[n]
  {
    hide RepOk, AllSettled, Bytes, BytesOf, Span;
    SlotBytes(h, x, i);
  }

  /** A substring lies within its child. */
  lemma Backed(h: Heap, x: Id)
    requires Shape(h) && x in h && h[x].rep.Substring?
    ensures h[x].rep.child in h && h[h[x].rep.child].rep.IsPayload()
    ensures h[x].rep.start + h[x].rep.len <= |h[h[x].rep.child].rep.data|
    ensures DataBytes(h, x) == h[h[x].rep.child].rep.data[h[x].rep.start..h[x].rep.start + h[x].rep.len]
  {
    assert RepOk(h, h[x].rep);
  }

  /** The least position at which the bytes of `needle` occur in the cord. */
  method FindInCord(h: Heap, c: Cord, needle: Cord) returns (r: Option<nat>)
    requires Shape(h) && CordOk(h, c) && CordOk(h, needle)
    ensures Search.IsFirst(Value(h, c), Value(h, needle), r)
  {
    hide Value, CordChunks, ChunkLists.Flatten;
    ChunksAreValue(h, c);
    ChunksAreValue(h, needle);
    r := Search.Find(CordChunks(h, c), CordChunks(h, needle));
  }

  /** The order of two cords: cords that are stored alike are equal, and inline ones are compared by words. */
  method CompareCords(h: Heap, c: Cord, d: Cord) returns (r: Comparing.Ordering)
    requires Shape(h) && CordOk(h, c) && CordOk(h, d)
    ensures r == Comparing.Lex(Value(h, c), Value(h, d))
  {
    hide CordChunks, ChunkLists.Flatten, Comparing.Lex;
    if c == d {
      r := Comparing.Equal;
      Comparing.LexEqual(Value(h, c), Value(h, d));
    } else if c.Inline? && d.Inline? {
      var l, m := Padded(c.bytes), Padded(d.bytes);
      r := Comparing.CompareInline(l, |c.bytes|, m, |d.bytes|);
    } else {
      ChunksAreValue(h, c);
      ChunksAreValue(h, d);
      r := Comparing.Compare(CordChunks(h, c), CordChunks(h, d));
    }
  }

  /** The storage of an inline cord: the bytes that it does not use are zero. */
  function Padded(bytes: seq<byte>): (tail: seq<byte>)
    requires |bytes| <= MAX_INLINE
    ensures Comparing.ZeroTailed(tail, |bytes|) && tail[..|bytes|] == bytes
  {
    bytes + Comparing.Zeros(MAX_INLINE - |bytes|)
  }

  /** Whether two cords hold the same bytes. */
  method EqualCords(h: Heap, c: Cord, d: Cord) returns (r: bool)
    requires Shape(h) && CordOk(h, c) && CordOk(h, d)
    ensures r <==> Value(h, c) == Value(h, d)
  {
    hide CordChunks, ChunkLists.Flatten;
    if c == d {
      r := true;
    } else {
      ChunksAreValue(h, c);
      ChunksAreValue(h, d);
      r := Comparing.Equals(CordChunks(h, c), CordChunks(h, d));
    }
  }

  /** Whether the cord is seen to be a single chunk: inline, a data edge, or a leaf with one edge. */
  predicate Contiguous(h: Heap, c: Cord)
    requires CordOk(h, c)
  {
    c.Inline? || !h[c.root].rep.Btree? || (h[c.root].rep.height == 0 && |h[c.root].rep.Out()| == 1)
  }

  lemma IsContiguous(h: Heap, c: Cord)
    requires Shape(h) && CordOk(h, c) && Contiguous(h, c)
    ensures var chunks := CordChunks(h, c); Value(h, c) == if chunks == [] then [] else chunks[0]
  {
    ChunksAreValue(h, c);
    if c.Tree? && h[c.root].rep.Btree? {
      assert RepOk(h, h[c.root].rep);
      var e := h[c.root].rep.Out()[0];
      assert h[c.root].rep.Out() == [e] && IsEdge(h, 0, e);
      LeavesOfOne(h, 0, e);
    }
    var chunks := CordChunks(h, c);
    if chunks != [] {
      assert chunks == [chunks[0]];
      ChunkLists.FlattenOne(chunks[0]);
    }
  }

  /** What a cord feeds to a hasher: its length, and then blocks. Neither depends on the chunks. */
  method HashCord(h: Heap, c: Cord) returns (length: nat, writes: seq<seq<byte>>)
    requires Shape(h) && CordOk(h, c)
    ensures length == |Value(h, c)| && writes == Comparing.Blocks(Value(h, c))
  {
    hide Value, CordChunks, ChunkLists.Flatten, Comparing.Blocks;
    ChunksAreValue(h, c);
    var chunks := CordChunks(h, c);
    length := ChunkIters.Length(chunks);
    if Contiguous(h, c) {
      var flat: seq<byte> := if chunks == [] then [] else chunks[0];
      IsContiguous(h, c);
      writes := Comparing.HashSlice(flat);
    } else {
      writes := Comparing.HashWrites(chunks);
    }
  }

  /** The btree of a cord, if it is one, and its only chunk otherwise. */
  function TreeOf(h: Heap, c: Cord): Option<Id>
    requires CordOk(h, c)
  {
    if c.Tree? && h[c.root].rep.Btree? then Some(c.root) else None
  }

  function OnlyChunk(h: Heap, c: Cord): seq<byte>
    requires CordOk(h, c)
  {
    if c.Inline? then c.bytes else DataBytes(h, c.root)
  }

  lemma TreeOrChunk(h: Heap, c: Cord)
    requires Shape(h) && AllSettled(h, {}) && CordOk(h, c)
    ensures TreeOf(h, c).Some? ==> CordIters.IsTree(h, TreeOf(h, c).value)
    ensures Value(h, c) == if TreeOf(h, c).Some? then Bytes(h, TreeOf(h, c).value) else OnlyChunk(h, c)
  {
    hide Bytes, AllSettled;
    if c.Tree? && !h[c.root].rep.Btree? {
      BytesOfData(h, c.root);
    }
  }

  /** The chunks of a cord, from both ends. */
  method ChunksOfCord(h: Heap, c: Cord) returns (it: CordIters.Chunks)
    requires Shape(h) && AllSettled(h, {}) && CordOk(h, c)
    ensures it.Valid() && fresh(it.Repr) && it.Rest() == Value(h, c) && it.Ahead() == CordChunks(h, c)
  {
    hide Bytes, AllSettled;
    TreeOrChunk(h, c);
    it := new CordIters.Chunks(h, TreeOf(h, c), OnlyChunk(h, c));
  }

  /** The bytes of a cord, from both ends. */
  method BytesOfCord(h: Heap, c: Cord) returns (it: ByteIters.Bytes)
    requires Shape(h) && AllSettled(h, {}) && CordOk(h, c)
    ensures it.Valid() && fresh(it.Repr) && it.Deque() == Value(h, c)
  {
    hide Bytes, AllSettled;
    TreeOrChunk(h, c);
    it := new ByteIters.Bytes(h, TreeOf(h, c), OnlyChunk(h, c));
  }
}
