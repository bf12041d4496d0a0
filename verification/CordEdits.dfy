/**
Removing from cords, joining cords, and append buffers (cord.rs).
*/
module CordEdits {
  import opened Heap
  import opened Counts
  import opened Arenas
  import opened Substrings
  import opened Legs
  import opened Edits
  import opened Rebuilds
  import opened Trees
  import opened Copies
  import opened SubTrees
  import opened Crops
  import opened Buffers
  import opened Cords
  import opened ChunkLists

  // --- Removing ----------------------------------------------------------------------------------

  /** A fresh handle `s` takes the place of `x`. */
  lemma Exchanged(h: Heap, held: multiset<Id>, n: Id, x: Id, s: Id, h1: Heap, held1: multiset<Id>, h2: Heap,
                  held2: multiset<Id>)
    requires Inv(h, held) && Shape(h) && (forall y :: y in h ==> y < n) && x in held
    requires Fresh(h, n, held, {}, h1, held1, s) && RootOk(h1, s)
    requires Inv(h2, held2) && held2 == held1 - multiset{x} && Shrunk(h1, h2)
    ensures Shape(h1) && Yields(h, held - multiset{x}, h2, held2, Tree(s), Bytes(h1, s))
  {
    hide Inv, AllSettled, Bytes, RepOk, Others;
    InvShape(h1, held1);
    InvShape(h2, held2);
    ShrunkSettled(h1, h2, held2);
    ExchangedHeld(held, x, s, held1, held2);
    BytesFrame(h1, h2, {}, s);
    ExchangedOthers(h, held, n, held - multiset{x}, h1, h2, held2);
  }

  lemma ExchangedOthers(h: Heap, held: multiset<Id>, n: Id, rest: multiset<Id>, h1: Heap, h2: Heap, held2: multiset<Id>)
    requires Inv(h, held) && Shape(h) && (forall y :: y in h ==> y < n) && Kept(h, n, {}, h1) && Shrunk(h1, h2)
    requires Shape(h2)
    requires Inv(h2, held2) && rest <= held && rest <= held2
    ensures Others(h, h2, rest)
  {
    hide Inv, RepOk, Bytes;
    forall y | y in rest ensures y in h && y in h2 && Same(h[y], h2[y]) && Bytes(h, y) == Bytes(h2, y) {
      assert y in held && y in held2;
      HeldIn(h, held, y);
      HeldIn(h2, held2, y);
      BytesFrame(h, h2, {}, y);
    }
  }

  lemma ExchangedHeld(held: multiset<Id>, x: Id, s: Id, held1: multiset<Id>, held2: multiset<Id>)
    requires x in held && held1 == held + multiset{s} && held2 == held1 - multiset{x}
    ensures held2 == held - multiset{x} + multiset{s} && s in held2
    ensures held - multiset{x} <= held && held - multiset{x} <= held2
  {
  }

  /** Keeps `n` bytes at `pos` of the handle `x` as a new rep and gives `x` up. */
  method Narrow(a: Arena, x: Id, pos: nat, n: nat) returns (r: Cord)
    requires a.Ok() && AllSettled(a.cells, {}) && x in a.held && RootOk(a.cells, x) && Shape(a.cells)
    requires 0 < n && pos + n <= a.cells[x].rep.Len()
    modifies a
    ensures a.Ok() && a.next >= old(a.next)
    ensures Yields(old(a.cells), old(a.held) - multiset{x}, a.cells, a.held, r, Slice(old(Bytes(a.cells, x)), pos, n))
    ensures r.Tree? && NoNewData(old(a.cells), a.cells)
  {
    hide Inv, AllSettled, Bytes, RepOk, Fresh, Slice, Yields, OnlyUnreachableGone;
    ghost var h, held, k := a.cells, a.held, a.next;
    var s := SubRep(a, x, pos, n);
    ghost var h1, held1 := a.cells, a.held;
    FreshFacts(h, k, held, {}, h1, held1, s, x);
    Unref(a, x);
    r := Tree(s);
    Exchanged(h, held, k, x, s, h1, held1, a.cells, a.held);
    NoNewDataTrans(h, h1, a.cells);
  }

  /** The part of a substring from `n` on. */
  function Advanced(rep: Rep, n: nat): Rep
    requires rep.Substring? && n <= rep.len
  {
    Substring(rep.start + n, rep.len - n, rep.child)
  }

  /** Changes the private data edge `x` in place. */
  method RewriteEdge(a: Arena, x: Id, rep: Rep)
    requires a.Ok() && AllSettled(a.cells, {}) && x in a.held && a.cells[x].rc == 1 && !a.cells[x].rep.Btree?
    requires !rep.Btree?
    requires RepOk(a.cells, rep) && rep.Out() == a.cells[x].rep.Out() && rep.IsPayload() == a.cells[x].rep.IsPayload()
    modifies a
    ensures a.Ok() && a.next == old(a.next) && a.held == old(a.held)
    ensures a.cells == old(a.cells)[x := Cell(1, rep)] && Shape(a.cells)
    ensures Yields(old(a.cells), old(a.held) - multiset{x}, a.cells, a.held, Tree(x), Bytes(a.cells, x))
  {
    hide Inv, AllSettled, Bytes, RepOk, Others;
    HeldIn(a.cells, a.held, x);
    ghost var h, held := a.cells, a.held;
    HeldBacksNoSubstring(h, held, x);
    WriteData(a, x, rep);
    InvShape(a.cells, a.held);
    Cords.Rewritten(h, held, x, a.cells);
  }

  lemma AdvancedOk(h: Heap, x: Id, n: nat)
    requires Shape(h) && x in h && h[x].rep.Substring? && n < h[x].rep.len
    ensures
      var rep := Advanced(h[x].rep, n);
      RepOk(h, rep) && rep.Out() == h[x].rep.Out() &&
      DataBytes(h[x := Cell(1, rep)], x) == Slice(DataBytes(h, x), n, h[x].rep.len - n)
  {
    assert RepOk(h, h[x].rep);
  }

  /** Removes the first `n` bytes. */
  method Advance(a: Arena, c: Cord, n: nat) returns (r: Cord)
    requires a.Ok() && AllSettled(a.cells, {}) && Held(c) <= a.held && Shape(a.cells) && CordOk(a.cells, c)
    requires n <= |Value(a.cells, c)|
    modifies a
    ensures a.Ok() && a.next >= old(a.next)
    ensures Yields(old(a.cells), old(a.held) - Held(c), a.cells, a.held, r, old(Value(a.cells, c))[n..])
    ensures r.Inline? <==> c.Inline? || n == |old(Value(a.cells, c))|
    ensures forall x :: x in a.cells && (a.cells[x].rep.Flat? || a.cells[x].rep.External?) ==> x in old(a.cells)
  {
    hide Inv, AllSettled, Bytes, RepOk, Yields, DataBytes;
    ghost var h, held := a.cells, a.held;
    if c.Inline? {
      r := Inline(c.bytes[n..]);
      Untouched(h, held, r);
    } else {
      var x := c.root;
      LenIsBytes(h, x);
      var len := a.cells[x].rep.Len();
      assert n < len ==> Slice(Bytes(h, x), n, len - n) == Bytes(h, x)[n..];
      if n >= len {
        DropCord(a, c);
        r := Inline([]);
        assert Bytes(h, x)[n..] == [];
      } else if a.cells[x].rep.Substring? && a.cells[x].rc == 1 {
        AdvancedOk(h, x, n);
        BytesOfData(h, x);
        RewriteEdge(a, x, Advanced(a.cells[x].rep, n));
        BytesOfData(a.cells, x);
        r := c;
      } else {
        r := Narrow(a, x, n, len - n);
      }
    }
  }

  /** Keeps the first `len` bytes. */
  method Truncate(a: Arena, c: Cord, len: nat) returns (r: Cord)
    requires a.Ok() && AllSettled(a.cells, {}) && Held(c) <= a.held && Shape(a.cells) && CordOk(a.cells, c)
    modifies a
    ensures a.Ok() && a.next >= old(a.next)
    ensures Yields(old(a.cells), old(a.held) - Held(c), a.cells, a.held, r,
                   if len < |old(Value(a.cells, c))| then old(Value(a.cells, c))[..len] else old(Value(a.cells, c)))
    ensures r.Inline? <==> c.Inline? || len == 0
    ensures forall x :: x in a.cells && (a.cells[x].rep.Flat? || a.cells[x].rep.External?) ==> x in old(a.cells)
    ensures len >= |old(Value(a.cells, c))| ==> r == c && a.cells == old(a.cells)
  {
    hide Inv, AllSettled, Bytes, RepOk, Yields, DataBytes, Outcome;
    ghost var h, held := a.cells, a.held;
    if c.Inline? {
      r := if len < |c.bytes| then Inline(c.bytes[..len]) else c;
      Untouched(h, held, r);
    } else {
      var x := c.root;
      LenIsBytes(h, x);
      var current := a.cells[x].rep.Len();
      if len >= current {
        r := c;
        Untouched(h, held, r);
      } else if len == 0 {
        DropCord(a, c);
        r := Inline([]);
      } else if a.cells[x].rep.Btree? {
        var s := RemoveSuffix(a, x, current - len);
        r := Tree(s.value);
        PrefixYields(h, held - multiset{x}, a.cells, a.held, s.value, Near(true, Bytes(h, x), len), h[x].rep.Level());
      } else if !a.cells[x].rep.External? && a.cells[x].rc == 1 {
        ShortenedOk(h, x, len);
        BytesOfData(h, x);
        RewriteEdge(a, x, Shortened(a.cells[x].rep, len));
        BytesOfData(a.cells, x);
        r := c;
      } else {
        r := Narrow(a, x, 0, len);
      }
    }
  }

  lemma PrefixYields(h: Heap, rest: multiset<Id>, h': Heap, held': multiset<Id>, x: Id, bytes: seq<byte>, level: nat)
    requires Shape(h) && Outcome(h, rest, h', held', x, bytes) && h'[x].rep.Level() <= level <= MAX_HEIGHT + 1
    ensures Yields(h, rest, h', held', Tree(x), bytes)
  {
    hide Inv, AllSettled, Bytes, Others;
    InvShape(h', held');
  }

  // --- Joining cords -----------------------------------------------------------------------------------

  /** The flats that the chunks need if each gets its own. */
  function FlatsForAll(chunks: seq<seq<byte>>): nat {
    if chunks == [] then 0 else FlatsFor(|chunks[0]|) + FlatsForAll(chunks[1..])
  }

  lemma {:induction false} FlatsForSplit(chunks: seq<seq<byte>>, i: nat)
    requires i < |chunks|
    ensures FlatsForAll(chunks[i..]) == FlatsFor(|chunks[i]|) + FlatsForAll(chunks[i + 1..])
  {
    assert chunks[i..][1..] == chunks[i + 1..];
  }

  /** One flat each is enough for chunks that are no longer than a flat. */
  lemma {:induction false} FlatsForShort(chunks: seq<seq<byte>>)
    requires |Flatten(chunks)| <= MAX_FLAT_LENGTH
    ensures FlatsForAll(chunks) <= |chunks|
  {
    if chunks != [] {
      FlatsForNext(|chunks[0]|);
      FlatsForShort(chunks[1..]);
    }
  }

  /** Appends each chunk in turn. */
  method AppendChunks(a: Arena, c: Cord, chunks: seq<seq<byte>>) returns (r: Cord, aborted: bool)
    requires a.Ok() && AllSettled(a.cells, {}) && Held(c) <= a.held && Shape(a.cells) && CordOk(a.cells, c)
    modifies a
    ensures aborted ==> old(CordEdges(a.cells, c)) + FlatsForAll(chunks) > Pow6(MAX_DEPTH)
    ensures !aborted ==> a.Ok() && a.next >= old(a.next)
    ensures !aborted ==>
      Yields(old(a.cells), old(a.held) - Held(c), a.cells, a.held, r, old(Value(a.cells, c)) + Flatten(chunks))
    ensures !aborted ==> Keeps(old(a.cells), old(a.next), true, c, |Flatten(chunks)|, a.cells, r)
  {
    hide Inv, AllSettled, Bytes, RepOk, Yields, Held, CordOk, Value, FlatsFor, FlatsForAll, AppendedEdges, CordEdges,
      Keeps, Flatten;
    ghost var h, held, rest := a.cells, a.held, a.held - Held(c);
    ghost var start, limit := Value(h, c), CordEdges(h, c) + FlatsForAll(chunks);
    r, aborted := c, false;
    Untouched(h, held, c);
    ChunkFirst(start, chunks);
    ghost var done, left, size, n0 := start, FlatsForAll(chunks), 0, a.next;
    KeepsSelf(h, n0, true, c);
    var i := 0;
    while i < |chunks| && !aborted
      invariant 0 <= i <= |chunks|
      invariant aborted ==> limit > Pow6(MAX_DEPTH)
      invariant !aborted ==> a.Ok() && a.next >= old(a.next)
      invariant done == start + Flatten(chunks[..i]) && left == FlatsForAll(chunks[i..])
      invariant |done| == |start| + size
      invariant !aborted ==> Yields(h, rest, a.cells, a.held, r, done) && Keeps(h, n0, true, c, size, a.cells, r)
      invariant !aborted ==> Shape(a.cells) && CordOk(a.cells, r) && CordEdges(a.cells, r) + left <= limit
    {
      ghost var h1, held1, n1, r1 := a.cells, a.held, a.next, r;
      var chunk := chunks[i];
      YieldsFacts(h, rest, h1, held1, r, done);
      ChunkNext(start, chunks, i);
      AppendedAtMost(h1, r, |chunk|);
      r, aborted := AppendSlice(a, r, chunk);
      done := done + chunk;
      i := i + 1;
      left := FlatsForAll(chunks[i..]);
      if !aborted {
        YieldsSince(h, h1, rest, rest, a.cells, a.held, r, done);
        KeepsTwice(h, n0, c, size, h1, n1, r1, |chunk|, a.cells, r);
      }
      size := size + |chunk|;
    }
    assert !aborted ==> chunks[..i] == chunks;
  }

  lemma ChunkFirst(start: seq<byte>, chunks: seq<seq<byte>>)
    ensures start + Flatten(chunks[..0]) == start && chunks[0..] == chunks
  {
  }

  lemma KeepsTwice(h: Heap, n0: Id, c: Cord, n: nat, h1: Heap, n1: Id, c1: Cord, m: nat, h': Heap, r: Cord)
    requires Shape(h) && CordOk(h, c) && Shape(h1) && CordOk(h1, c1) && n0 <= n1
    requires Keeps(h, n0, true, c, n, h1, c1) && Keeps(h1, n1, true, c1, m, h', r)
    requires |Value(h1, c1)| == |Value(h, c)| + n
    ensures Keeps(h, n0, true, c, n + m, h', r)
  {
    hide Leaves, Extended, OldOrNew, Bytes;
    if c.Tree? {
      ExtendedTwice(true, Leaves(h, c.root), Leaves(h1, c1.root), Leaves(h', r.root));
    }
    if r.Tree? {
      OldOrNewTwice(Leaves(h', r.root), Edges(h1, c1), Edges(h, c), n0, n1) by {
        assert c1.Inline? ==> OldOrNew([], Edges(h, c), n0) by { NoneNew(Edges(h, c), n0); }
      }
    }
  }

  lemma NoneNew(old': seq<Id>, n: Id)
    ensures OldOrNew([], old', n)
  {
  }

  lemma ChunkNext(start: seq<byte>, chunks: seq<seq<byte>>, i: nat)
    requires i < |chunks|
    ensures start + Flatten(chunks[..i]) + chunks[i] == start + Flatten(chunks[..i + 1])
    ensures FlatsForAll(chunks[i..]) == FlatsFor(|chunks[i]|) + FlatsForAll(chunks[i + 1..])
  {
    assert chunks[..i + 1] == chunks[..i] + [chunks[i]];
    FlattenAppend(chunks[..i], chunks[i]);
    FlatsForSplit(chunks, i);
  }

  lemma YieldsFacts(h: Heap, rest: multiset<Id>, h': Heap, held': multiset<Id>, c: Cord, bytes: seq<byte>)
    requires Shape(h) && Yields(h, rest, h', held', c, bytes)
    ensures Inv(h', held') && Shape(h') && AllSettled(h', {}) && held' == rest + Held(c) && Held(c) <= held'
    ensures held' - Held(c) == rest
    ensures CordOk(h', c) && Value(h', c) == bytes && Others(h, h', rest)
  {
    hide Inv, AllSettled, Bytes, Others;
  }

  /** A new reference on the root of `src`, which stays where it is. */
  method BorrowRoot(a: Arena, x: Id)
    requires a.Ok() && AllSettled(a.cells, {}) && x in a.held && RootOk(a.cells, x) && Shape(a.cells)
    modifies a
    ensures a.Ok() && a.next == old(a.next) && a.held == old(a.held) + multiset{x} && AllSettled(a.cells, {})
    ensures Shape(a.cells)
    ensures Others(old(a.cells), a.cells, old(a.held)) && RootOk(a.cells, x) && Agree(old(a.cells), a.cells, {})
  {
    hide Inv, AllSettled, Bytes, RepOk, Fresh;
    ghost var h, held, n := a.cells, a.held, a.next;
    var y := Share(a, {}, x);
    FreshAgrees(h, n, held, a.cells, a.held, y);
    FreshFacts(h, n, held, {}, a.cells, a.held, y, x);
    FreshOthers(h, n, held, a.cells, a.held, y);
  }

  lemma FreshAgrees(h: Heap, n: Id, held: multiset<Id>, h': Heap, held': multiset<Id>, r: Id)
    requires Fresh(h, n, held, {}, h', held', r)
    ensures Agree(h, h', {})
  {
  }

  lemma FreshOthers(h: Heap, n: Id, held: multiset<Id>, h': Heap, held': multiset<Id>, r: Id)
    requires Inv(h, held) && Shape(h) && (forall y :: y in h ==> y < n) && Fresh(h, n, held, {}, h', held', r)
    ensures Shape(h') && Others(h, h', held) && held' == held + multiset{r}
  {
    hide Inv, AllSettled, Bytes, RepOk;
    InvShape(h', held');
    OthersKept(h, held, n, h', held', held);
  }

  /** Adds the tree of another cord, which keeps it, at the back or front. */
  method AddShared(a: Arena, back: bool, c: Cord, x: Id) returns (r: Cord, aborted: bool)
    requires a.Ok() && AllSettled(a.cells, {}) && Held(c) + multiset{x} <= a.held && Shape(a.cells)
    requires CordOk(a.cells, c) && RootOk(a.cells, x)
    modifies a
    ensures aborted <==> old(CordEdges(a.cells, c)) + |old(Leaves(a.cells, x))| > Pow6(MAX_DEPTH)
    ensures !aborted ==> a.Ok() && a.next >= old(a.next)
    ensures !aborted ==> Yields(old(a.cells), old(a.held) - Held(c), a.cells, a.held, r,
        Join(back, old(Value(a.cells, c)), old(Bytes(a.cells, x))))
    ensures !aborted ==> Shares(old(a.cells), old(a.next), back, c, x, a.cells, r)
  {
    hide Inv, AllSettled, Bytes, RepOk, Yields, Join, Others, Leaves, Shares;
    ghost var h, held, rest, n := a.cells, a.held, a.held - Held(c), a.next;
    BorrowRoot(a, x);
    ghost var h1, held1 := a.cells, a.held;
    SharedHeld(held, Held(c), x);
    OthersAt(h, h1, held, x);
    SameCord(h, h1, held, c);
    SameEdges(h, h1, c);
    SameEdges(h, h1, Tree(x));
    r, aborted := AddTree(a, back, c, x);
    if !aborted {
      YieldsSince(h, h1, rest, held, a.cells, a.held, r, Join(back, Value(h, c), Bytes(h, x)));
      SharesSince(h, h1, n, back, c, x, a.cells, r);
    }
  }

  lemma SharesSince(h: Heap, h1: Heap, n: Id, back: bool, c: Cord, x: Id, h': Heap, r: Cord)
    requires Shape(h) && CordOk(h, c) && x in h && Shape(h1) && CordOk(h1, c) && x in h1
    requires Shares(h1, n, back, c, x, h', r)
    requires Leaves(h1, x) == Leaves(h, x) && (c.Tree? ==> Leaves(h1, c.root) == Leaves(h, c.root))
    ensures Shares(h, n, back, c, x, h', r)
  {
    hide Leaves, Extended;
  }

  /** A second cord on the same tree. */
  lemma SharesAll(h: Heap, n: Id, x: Id, h': Heap)
    requires Shape(h) && x in h && Shape(h') && x in h' && Extends(h, h')
    ensures Shares(h, n, true, Inline([]), x, h', Tree(x))
  {
    hide Leaves;
    LeavesFrame(h, h', {}, x);
  }

  lemma SharedHeld(held: multiset<Id>, mine: multiset<Id>, x: Id)
    requires mine + multiset{x} <= held
    ensures mine + multiset{x} <= held + multiset{x} && held + multiset{x} - mine - multiset{x} == held - mine
    ensures held - mine <= held
    ensures x in held
  {
  }

  lemma SameCord(h: Heap, h': Heap, held: multiset<Id>, c: Cord)
    requires Shape(h) && Shape(h') && Others(h, h', held) && Held(c) <= held && CordOk(h, c)
    ensures CordOk(h', c) && Value(h', c) == Value(h, c)
  {
    hide Bytes;
    if c.Tree? {
      assert c.root in held;
    }
  }

  /** Appends another cord, which stays as it is: short ones by copying, long ones by sharing. */
  method AppendCord(a: Arena, c: Cord, src: Cord) returns (r: Cord, aborted: bool)
    requires a.Ok() && AllSettled(a.cells, {}) && Held(c) + Held(src) <= a.held && Shape(a.cells) && CordOk(a.cells, c)
    requires CordOk(a.cells, src)
    modifies a
    ensures aborted ==> old(CordEdges(a.cells, c)) + old(CordEdges(a.cells, src)) > Pow6(MAX_DEPTH)
    ensures !aborted && |old(Value(a.cells, src))| > MAX_BYTES_TO_COPY ==>
      old(CordEdges(a.cells, c)) + old(CordEdges(a.cells, src)) <= Pow6(MAX_DEPTH)
    ensures !aborted ==> a.Ok() && a.next >= old(a.next)
    ensures !aborted ==>
      Yields(old(a.cells), old(a.held) - Held(c), a.cells, a.held, r, old(Value(a.cells, c)) + old(Value(a.cells, src)))
    ensures !aborted && src.Tree? && (c == Inline([]) || |old(Value(a.cells, src))| > MAX_BYTES_TO_COPY) ==>
      Shares(old(a.cells), old(a.next), true, c, src.root, a.cells, r)
    ensures !aborted && (src.Inline? || (c != Inline([]) && |old(Value(a.cells, src))| <= MAX_BYTES_TO_COPY)) ==>
      Keeps(old(a.cells), old(a.next), true, c, |old(Value(a.cells, src))|, a.cells, r)
  {
    hide Inv, AllSettled, Bytes, RepOk, Yields, Join, Others, ChunksOf, Flatten, Leaves, FlatsFor, FlatsForAll,
      AppendedEdges, Shares, Keeps;
    ghost var h, held := a.cells, a.held;
    aborted := false;
    assert Held(src) <= held;
    if src.Inline? {
      AppendedAtMost(h, c, |src.bytes|);
      FlatsForNext(|src.bytes|);
      r, aborted := AppendSlice(a, c, src.bytes);
    } else {
      LenIsBytes(h, src.root);
      CordWithin(h, src);
      if c == Inline([]) {
        r := CloneCord(a, src);
        YieldsFacts(h, held, a.cells, a.held, r, Value(h, src));
        SharesAll(h, old(a.next), src.root, a.cells);
        EmptyPlus(held, Value(h, src));
      } else if a.cells[src.root].rep.Len() <= MAX_BYTES_TO_COPY {
        r, aborted := CopyCord(a, c, src.root);
      } else {
        JoinBack(Value(h, c), Value(h, src));
        r, aborted := AddShared(a, true, c, src.root);
      }
    }
  }

  lemma EmptyPlus(held: multiset<Id>, v: seq<byte>)
    ensures held - Held(Inline([])) == held && [] + v == v
  {
  }

  /** Appends the bytes of a short tree. */
  method CopyCord(a: Arena, c: Cord, x: Id) returns (r: Cord, aborted: bool)
    requires a.Ok() && AllSettled(a.cells, {}) && Held(c) <= a.held && Shape(a.cells) && CordOk(a.cells, c)
    requires RootOk(a.cells, x) && |Bytes(a.cells, x)| <= MAX_BYTES_TO_COPY
    modifies a
    ensures aborted ==> old(CordEdges(a.cells, c)) + |old(Leaves(a.cells, x))| > Pow6(MAX_DEPTH)
    ensures !aborted ==> a.Ok() && a.next >= old(a.next)
    ensures !aborted ==>
      Yields(old(a.cells), old(a.held) - Held(c), a.cells, a.held, r, old(Value(a.cells, c)) + old(Bytes(a.cells, x)))
    ensures !aborted ==> Keeps(old(a.cells), old(a.next), true, c, |old(Bytes(a.cells, x))|, a.cells, r)
  {
    hide Inv, AllSettled, Bytes, RepOk, Yields, ChunksOf, Flatten, Leaves, FlatsForAll, Keeps;
    ghost var h := a.cells;
    FlattenChunks(h, Leaves(h, x));
    RootBytes(h, x);
    FlatsForShort(ChunksOf(h, Leaves(h, x)));
    r, aborted := AppendChunks(a, c, ChunksOf(a.cells, Leaves(a.cells, x)));
  }

  lemma RootBytes(h: Heap, x: Id)
    requires Shape(h) && x in h
    ensures Bytes(h, x) == Cat(h, Leaves(h, x))
  {
  }

  /** The number of data edges of `c` with `src` before it: inline bytes are copied, trees are shared. */
  ghost function JoinedEdges(h: Heap, c: Cord, src: Cord): nat
    requires Shape(h) && CordOk(h, c) && CordOk(h, src)
  {
    if src.Inline? then PrependedEdges(h, c, |src.bytes|) else CordEdges(h, c) + CordEdges(h, src)
  }

  /** Prepends another cord, which stays as it is. */
  method PrependCord(a: Arena, c: Cord, src: Cord) returns (r: Cord, aborted: bool)
    requires a.Ok() && AllSettled(a.cells, {}) && Held(c) + Held(src) <= a.held && Shape(a.cells) && CordOk(a.cells, c)
    requires CordOk(a.cells, src)
    modifies a
    ensures aborted <==> old(JoinedEdges(a.cells, c, src)) > Pow6(MAX_DEPTH)
    ensures !aborted ==> a.Ok() && a.next >= old(a.next)
    ensures !aborted ==>
      Yields(old(a.cells), old(a.held) - Held(c), a.cells, a.held, r, old(Value(a.cells, src)) + old(Value(a.cells, c)))
    ensures !aborted && src.Tree? ==> Shares(old(a.cells), old(a.next), false, c, src.root, a.cells, r)
    ensures !aborted && src.Inline? ==> Keeps(old(a.cells), old(a.next), false, c, |src.bytes|, a.cells, r)
  {
    hide Inv, AllSettled, Bytes, RepOk, Yields, Others, Leaves, FlatsFor, Shares, Keeps;
    assert Held(src) <= a.held;
    if src.Inline? {
      r, aborted := PrependSlice(a, c, src.bytes);
    } else {
      r, aborted := AddShared(a, false, c, src.root);
    }
  }

  // --- Append buffers ------------------------------------------------------------------------------------

  /**
  A taken buffer: a cell that has left the shared heap, or bytes for which no flat has been made
  yet; `heap` tells whether they will get one.
  */
  datatype Buffer = Loose(bytes: seq<byte>, heap: bool) | Extracted(cell: Cell)

  /** A buffer alone owns its flat. */
  ghost predicate BufferOk(b: Buffer) {
    if b.Extracted? then b.cell.rc == 1 && b.cell.rep.Flat? && 0 < |b.cell.rep.data| <= b.cell.rep.capacity
    else !b.heap ==> |b.bytes| <= MAX_INLINE
  }

  ghost function BufferValue(b: Buffer): seq<byte>
    requires BufferOk(b)
  {
    if b.Extracted? then b.cell.rep.data else b.bytes
  }

  /** A buffer becomes a data edge if it holds anything. */
  ghost function BufferEdges(b: Buffer): nat {
    if b.Loose? && b.bytes == [] then 0 else 1
  }

  /** The cord and the buffer that taking the buffer leaves. */
  ghost predicate CordAndBuffer(h: Heap, rest: multiset<Id>, h': Heap, held': multiset<Id>, c: Cord, b: Buffer,
                                bytes: seq<byte>)
    requires Shape(h)
  {
    && Inv(h', held') && Shape(h') && AllSettled(h', {}) && held' == rest + Held(c)
    && CordOk(h', c) && BufferOk(b) && Value(h', c) + BufferValue(b) == bytes && Others(h, h', rest)
  }

  /**
  Takes the last flat of a cord as a buffer if every node down to it, and the flat, has count one,
  and the flat has `room`; an inline cord is moved into a new buffer. The flat leaves the shared heap.
  The result is sound unless the tree shares a node that folding it frees.
  */
  method TakeAppendBuffer(a: Arena, c: Cord, room: nat, heap: bool) returns (r: Cord, b: Buffer, sound: bool)
    requires a.Ok() && AllSettled(a.cells, {}) && Held(c) <= a.held && Shape(a.cells) && CordOk(a.cells, c)
    modifies a
    ensures sound <==> (c.Tree? && old(a.cells)[c.root].rep.Btree? && old(HasBuffer(a.cells, c.root, room)) ==>
                          old(SafeToTake(a.cells, c.root)))
    ensures a.next == old(a.next)
    ensures c.Inline? ==> sound && r == Inline([]) && b.Loose? && b.bytes == c.bytes && a.cells == old(a.cells)
    ensures c.Tree? ==>
      var h, p := old(a.cells), old(BackPath(a.cells, c.root));
      var e, sole := p[|p| - 1], forall y :: y in p ==> y in h && h[y].rc == 1;
      && e in h
      && if sole && h[e].rep.Flat? && |h[e].rep.data| + room <= h[e].rep.capacity then
           sound ==> b == Extracted(h[e]) && e !in a.cells
         else sound && r == c && b == Loose([], heap) && a.cells == h
    ensures sound ==>
      a.Ok() && CordAndBuffer(old(a.cells), old(a.held) - Held(c), a.cells, a.held, r, b, old(Value(a.cells, c)))
    ensures !sound ==> !(Shape(a.cells) && forall x :: x in old(a.held) - Held(c) ==> x in a.cells)
    ensures sound ==> Shape(a.cells) && CordOk(a.cells, r) && BufferOk(b)
    ensures sound ==> CordEdges(a.cells, r) + BufferEdges(b) == old(CordEdges(a.cells, c))
  {
    hide Inv, AllSettled, Bytes, RepOk, Others, HasBuffer, SafeToTake, CordAndBuffer, Leaves, CordEdges,
      BackPath, BufferEdges;
    ghost var h, held := a.cells, a.held;
    sound := true;
    if c.Inline? {
      r, b := Inline([]), Loose(c.bytes, heap || |c.bytes| > MAX_INLINE);
      NothingMoved(h, held, c, r, b);
    } else if a.cells[c.root].rep.Btree? {
      TreeEdges(h, c);
      r, b, sound := TakeLastFlat(a, c.root, room, heap);
    } else if a.cells[c.root].rep.Flat? && a.cells[c.root].rc == 1 && Room(a.cells[c.root].rep) >= room {
      r := Inline([]);
      TreeEdges(h, c);
      BackPathData(h, c.root);
      b := Detach(a, c.root);
      FlatTaken(h, held, c.root, a.cells, a.held, b);
    } else {
      BackPathData(h, c.root);
      r, b := c, Loose([], heap);
      NothingMoved(h, held, c, r, b);
    }
  }

  /**
  What a buffer is made of: all of an inline cord; the flat at the end of a cord that alone leads to
  it, if it has the room; otherwise nothing.
  */
  ghost predicate Takes(h: Heap, c: Cord, room: nat, b: Buffer)
    requires Shape(h) && CordOk(h, c)
  {
    if c.Inline? then b.Loose? && b.bytes == c.bytes
    else
      var p := BackPath(h, c.root);
      var e, sole := p[|p| - 1], forall y :: y in p ==> y in h && h[y].rc == 1;
      if sole && e in h && h[e].rep.Flat? && |h[e].rep.data| + room <= h[e].rep.capacity then b == Extracted(h[e])
      else b.Loose? && b.bytes == []
  }

  /** Takes the private flat `e` out of the shared heap. */
  method Detach(a: Arena, e: Id) returns (b: Buffer)
    requires a.Ok() && AllSettled(a.cells, {}) && e in a.held && a.cells[e].rc == 1 && a.cells[e].rep.Flat?
    modifies a
    ensures a.Ok() && a.next == old(a.next) && Shape(a.cells) && AllSettled(a.cells, {})
    ensures a.held == old(a.held) - multiset{e} && a.cells == old(a.cells) - {e}
    ensures b == Extracted(old(a.cells)[e]) && BufferOk(b)
    ensures Shape(old(a.cells)) && Others(old(a.cells), a.cells, a.held)
  {
    hide Inv, AllSettled, Bytes, RepOk, Others;
    ghost var h, held := a.cells, a.held;
    InvShape(h, held);
    HeldIn(h, held, e);
    FlatSize(h, e);
    b := Extracted(a.cells[e]);
    Delete(a, e);
    InvShape(a.cells, a.held);
    assert held - multiset{e} + multiset(h[e].rep.Out()) == held - multiset{e};
    ShrunkYields(h, held, a.held, a.cells, a.held);
    YieldsFacts(h, a.held, a.cells, a.held, Inline([]), []);
  }

  /** A cord keeps its data edges when cells that it does not use go. */
  lemma DetachedCord(h: Heap, h': Heap, held: multiset<Id>, r: Cord)
    requires Shape(h) && Shape(h') && Shrunk(h, h') && Others(h, h', held) && Held(r) <= held && CordOk(h, r)
    ensures CordOk(h', r) && Value(h', r) == Value(h, r) && CordEdges(h', r) == CordEdges(h, r)
  {
    hide Bytes, RepOk, Leaves;
    if r.Tree? {
      OthersAt(h, h', held, r.root);
      LeavesFrame(h, h', {}, r.root);
    }
  }

  /** The flat at the end of a tree. */
  method TakeLastFlat(a: Arena, x: Id, room: nat, heap: bool) returns (r: Cord, b: Buffer, sound: bool)
    requires a.Ok() && AllSettled(a.cells, {}) && x in a.held && Shape(a.cells) && RootOk(a.cells, x)
    requires a.cells[x].rep.Btree?
    modifies a
    ensures sound <==> (old(HasBuffer(a.cells, x, room)) ==> old(SafeToTake(a.cells, x)))
    ensures a.next == old(a.next)
    ensures
      var h, p := old(a.cells), old(BackPath(a.cells, x));
      var e, sole := p[|p| - 1], forall y :: y in p ==> y in h && h[y].rc == 1;
      && e in h
      && if sole && h[e].rep.Flat? && |h[e].rep.data| + room <= h[e].rep.capacity then
           sound ==> b == Extracted(h[e]) && e !in a.cells
         else sound && r == Tree(x) && b == Loose([], heap) && a.cells == h
    ensures sound ==>
      a.Ok() && CordAndBuffer(old(a.cells), old(a.held) - multiset{x}, a.cells, a.held, r, b, old(Bytes(a.cells, x)))
    ensures !sound ==> !(Shape(a.cells) && forall y :: y in old(a.held) - multiset{x} ==> y in a.cells)
    ensures sound ==> Shape(a.cells) && CordOk(a.cells, r) && BufferOk(b)
    ensures sound ==> CordEdges(a.cells, r) + BufferEdges(b) == |old(Leaves(a.cells, x))|
  {
    hide Inv, AllSettled, Bytes, RepOk, Others, HasBuffer, SafeToTake, CordAndBuffer, Leaves, CordEdges, BackPath;
    ghost var h, held, rest := a.cells, a.held, a.held - multiset{x};
    var s, extracted;
    s, extracted, sound := ExtractAppendBuffer(a, x, room);
    r, b := Tree(x), Loose([], heap);
    if extracted.None? {
      NothingMoved(h, held, r, r, b);
      TreeEdges(h, r);
    } else if sound {
      var e := extracted.value;
      ghost var h1, held1 := a.cells, a.held;
      r := if s.Some? then Tree(s.value) else Inline([]);
      TakenHeld(rest, s, e, held1, r);
      b := Detach(a, e);
      TakenParts(h, rest, x, h1, a.cells, a.held, s, e, r, b);
    }
  }

  lemma TakenHeld(rest: multiset<Id>, s: Option<Id>, e: Id, held1: multiset<Id>, r: Cord)
    requires held1 == rest + Remaining(s, e) && r == if s.Some? then Tree(s.value) else Inline([])
    ensures e in held1 && held1 - multiset{e} == rest + Held(r)
  {
  }

  lemma FlatTaken(h: Heap, held: multiset<Id>, x: Id, h': Heap, held': multiset<Id>, b: Buffer)
    requires Inv(h, held) && Shape(h) && x in held && x in h && h[x].rep.Flat? && Inv(h', held') && Shape(h')
    requires AllSettled(h', {}) && held' == held - multiset{x} && Others(h, h', held') && b == Extracted(h[x])
    requires BufferOk(b)
    ensures CordAndBuffer(h, held - multiset{x}, h', held', Inline([]), b, Bytes(h, x))
    ensures CordEdges(h', Inline([])) + BufferEdges(b) == |Leaves(h, x)|
  {
    hide Inv, AllSettled, RepOk, Others, Bytes;
    assert held - multiset{x} + multiset{} == held';
    FlatBytes(h, x);
    DataLeaf(h, x);
  }

  /** The cord and the buffer together are what the cord was. */
  lemma NothingMoved(h: Heap, held: multiset<Id>, c: Cord, r: Cord, b: Buffer)
    requires Inv(h, held) && Shape(h) && AllSettled(h, {}) && Held(c) <= held && CordOk(h, c) && BufferOk(b) && b.Loose?
    requires (r == c && b.bytes == []) || (r == Inline([]) && c.Inline? && b.bytes == c.bytes)
    ensures CordOk(h, r) && CordAndBuffer(h, held - Held(c), h, held, r, b, Value(h, c))
    ensures CordEdges(h, r) + BufferEdges(b) == CordEdges(h, c)
  {
    hide Inv, AllSettled, Bytes, Others, Held, CordOk, Value, CordEdges, BufferEdges;
    MovedParts(h, c, r, b);
    assert held - Held(c) + Held(c) == held;
    OthersSelf(h, held, held - Held(c));
  }

  lemma MovedParts(h: Heap, c: Cord, r: Cord, b: Buffer)
    requires Shape(h) && CordOk(h, c) && BufferOk(b) && b.Loose?
    requires (r == c && b.bytes == []) || (r == Inline([]) && c.Inline? && b.bytes == c.bytes)
    ensures CordOk(h, r) && Held(r) == Held(c) && Value(h, r) + BufferValue(b) == Value(h, c)
    ensures CordEdges(h, r) + BufferEdges(b) == CordEdges(h, c)
  {
    hide Bytes, Leaves;
  }

  lemma TreeEdges(h: Heap, c: Cord)
    requires Shape(h) && CordOk(h, c) && c.Tree?
    ensures CordEdges(h, c) == |Leaves(h, c.root)|
  {
  }

  /** The flat `e` has been cut out of the tree and detached. */
  lemma TakenParts(h: Heap, rest: multiset<Id>, x: Id, h1: Heap, h': Heap, held': multiset<Id>, s: Option<Id>, e: Id,
                   r: Cord, b: Buffer)
    requires Shape(h) && x in h && RootOk(h, x) && Shape(h1) && Inv(h', held') && Shape(h') && AllSettled(h', {})
    requires r == (if s.Some? then Tree(s.value) else Inline([])) && held' == rest + Held(r)
    requires Others(h, h1, rest) && Others(h1, h', held') && h' == h1 - {e}
    requires e in h1 && h1[e].rep.Flat? && b == Extracted(h1[e]) && BufferOk(b)
    requires s.Some? ==> s.value in h1 && h1[s.value].rep.Level() <= h[x].rep.Level()
    requires h[x].rep.Btree? && Bytes(h, x) == RemainingBytes(h1, s) + h1[e].rep.data
    requires Leaves(h, x) == RemainingLeaves(h1, s) + [e]
    ensures CordAndBuffer(h, rest, h', held', r, b, Bytes(h, x))
    ensures CordOk(h', r) && CordEdges(h', r) + BufferEdges(b) == |Leaves(h, x)|
  {
    hide Inv, AllSettled, Bytes, RepOk, Others, Leaves;
    OthersFewer(h1, h', held', rest);
    OthersTrans(h, h1, h', rest);
    DetachedCord(h1, h', held', r);
  }

  /** Appends a buffer; its flat returns to the shared heap. */
  method AppendBuffer(a: Arena, c: Cord, b: Buffer) returns (r: Cord, aborted: bool)
    requires a.Ok() && AllSettled(a.cells, {}) && Held(c) <= a.held && Shape(a.cells) && CordOk(a.cells, c)
    requires BufferOk(b)
    modifies a
    ensures aborted <==> old(CordEdges(a.cells, c)) + BufferEdges(b) > Pow6(MAX_DEPTH)
    ensures !aborted ==> a.Ok() && a.next >= old(a.next)
    ensures !aborted ==>
      Yields(old(a.cells), old(a.held) - Held(c), a.cells, a.held, r, old(Value(a.cells, c)) + BufferValue(b))
  {
    hide Inv, AllSettled, Bytes, RepOk, Others, Yields, Gives, Join, Leaves;
    ghost var h, held := a.cells, a.held;
    aborted := false;
    CordWithin(h, c);
    if b.Extracted? {
      r, aborted := AppendFlat(a, c, b.cell.rep.data, b.cell.rep.capacity);
    } else if b.bytes == [] {
      r := c;
      Untouched(h, held, c);
      assert Value(h, c) + b.bytes == Value(h, c);
    } else if !b.heap && c.Inline? && |c.bytes| + |b.bytes| <= MAX_INLINE {
      r := Inline(c.bytes + b.bytes);
      Untouched(h, held, r);
    } else {
      r, aborted := AppendFlat(a, c, b.bytes, |b.bytes|);
    }
  }

  /** Appends a flat of its own. */
  method AppendFlat(a: Arena, c: Cord, bytes: seq<byte>, capacity: nat) returns (r: Cord, aborted: bool)
    requires a.Ok() && AllSettled(a.cells, {}) && Held(c) <= a.held && Shape(a.cells)
    requires CordOk(a.cells, c) && 0 < |bytes| <= capacity
    modifies a
    ensures aborted <==> old(CordEdges(a.cells, c)) + 1 > Pow6(MAX_DEPTH)
    ensures !aborted ==> a.Ok() && a.next >= old(a.next)
    ensures !aborted ==> Yields(old(a.cells), old(a.held) - Held(c), a.cells, a.held, r, old(Value(a.cells, c)) + bytes)
  {
    hide Inv, AllSettled, Bytes, RepOk, Others, Yields, Gives, Join, Leaves, CordEdges;
    ghost var h, held := a.cells, a.held;
    var x := NewFlat(a, bytes, capacity);
    FlatGives(h, held, x, bytes, capacity, a.cells, a.held);
    GivesFacts(h, held, a.cells, a.held, x, bytes);
    ghost var h1 := a.cells;
    BufferAdded(held, Held(c), x);
    SameCord(h, h1, held, c);
    SameEdges(h, h1, c);
    DataLeaf(h1, x);
    JoinBack(Value(h, c), bytes);
    r, aborted := AddTree(a, true, c, x);
    if !aborted {
      YieldsSince(h, h1, held - Held(c), held, a.cells, a.held, r, Value(h, c) + bytes);
    }
  }

  lemma SameEdges(h: Heap, h': Heap, c: Cord)
    requires Shape(h) && Shape(h') && CordOk(h, c) && CordOk(h', c) && Agree(h, h', {})
    ensures CordEdges(h', c) == CordEdges(h, c) && (c.Tree? ==> Leaves(h', c.root) == Leaves(h, c.root))
  {
    hide Leaves;
    if c.Tree? {
      LeavesFrame(h, h', {}, c.root);
    }
  }

  lemma BufferAdded(held: multiset<Id>, mine: multiset<Id>, x: Id)
    requires mine <= held
    ensures mine + multiset{x} <= held + multiset{x} && held + multiset{x} - mine - multiset{x} == held - mine
    ensures held - mine <= held
  {
  }
}
