/**
Reading a tree chunk by chunk (rep/reader.rs): a navigator with a count of the bytes ahead of it.

A reader refines a place in the list of the tree's chunks, and a position in its bytes.
*/
module Readers {
  import opened Heap
  import opened Counts
  import opened Arenas
  import opened Substrings
  import opened Nodes
  import opened Edits
  import Copies
  import opened Trees
  import opened ChunkLists
  import opened Paths
  import opened Navigators

  class Reader {
    var remaining: nat
    const navigator: Navigator

    constructor ()
      ensures remaining == 0 && navigator.Sized() && navigator.height == None
      ensures fresh(navigator) && fresh(navigator.index) && fresh(navigator.node)
    {
      navigator := new Navigator();
      remaining := 0;
    }

    /** Initialized with a tree. */
    ghost predicate Placed(h: Heap)
      reads this, navigator, navigator.index, navigator.node
    {
      navigator.Valid(h)
    }

    /** The count is that of the bytes ahead. */
    ghost predicate Exact(h: Heap)
      reads this, navigator, navigator.index, navigator.node
    {
      Placed(h) && remaining == |Cat(h, navigator.Beside(h, true))|
    }

    /** The chunks of the tree. */
    ghost function All(h: Heap): seq<seq<byte>>
      requires Placed(h) && navigator.Root() in h
      reads this, navigator, navigator.index, navigator.node
    {
      ChunksOf(h, Leaves(h, navigator.Root()))
    }

    /** The place of the current chunk in the list. */
    ghost function At(h: Heap): nat
      requires Placed(h)
      reads this, navigator, navigator.index, navigator.node
    {
      |navigator.Beside(h, false)|
    }

    /** What the navigator stands for is a place in the list of chunks, and the count is exact. */
    lemma InList(h: Heap)
      requires Placed(h)
      ensures navigator.Root() in h && navigator.Current(h) in h && !h[navigator.Current(h)].rep.Btree?
      ensures NonEmpty(All(h)) && At(h) < |All(h)| && All(h)[At(h)] == DataBytes(h, navigator.Current(h)) != []
      ensures Start(All(h), At(h)) == navigator.Offset(h) && Flatten(All(h)) == Bytes(h, navigator.Root())
      ensures Exact(h) <==> Start(All(h), At(h) + 1) + remaining == |Flatten(All(h))|
      ensures |Cat(h, navigator.Beside(h, true))| == 0 <==> navigator.Beside(h, true) == []
    {
      hide RepOk, DataBytes, Flatten, Leaves, Cat, Start, Side, On, AllSettled;
      navigator.IsPlace(h);
      TreeChunks(h, navigator.Root());
      PlaceInChunks(h, navigator.Root(), navigator.Beside(h, false), navigator.Current(h), navigator.Beside(h, true));
      SideData(h, navigator.Stack(), true, 0);
      DataNotEmpty(h, navigator.Beside(h, true));
    }

    /** In a tree with a single data edge, nothing lies ahead of it. */
    lemma NothingAhead(h: Heap, f: Id)
      requires Exact(h) && navigator.Root() in h && Leaves(h, navigator.Root()) == [f]
      ensures remaining == 0 && navigator.Current(h) == f
    {
      hide RepOk, DataBytes, Leaves, Cat, Side, On, AllSettled, Position;
      navigator.IsPlace(h);
      InList(h);
      assert |navigator.Beside(h, false)| + 1 + |navigator.Beside(h, true)| == 1;
    }

    /** Starts at the first chunk of `tree`. */
    method Init(h: Heap, tree: Id) returns (chunk: seq<byte>)
      requires navigator.Sized() && Shape(h) && AllSettled(h, {}) && tree in h && h[tree].rep.Btree?
      requires h[tree].rep.height <= MAX_HEIGHT
      modifies this, navigator, navigator.index, navigator.node
      ensures Exact(h) && navigator.Root() == tree && At(h) == 0 && |All(h)| > 0 && chunk == All(h)[0]
    {
      hide RepOk, DataBytes, Flatten, Leaves, Cat, Start, AllSettled, On, Side, Edge, Position;
      var edge := navigator.Init(h, tree, false);
      InList(h);
      LenIsBytes(h, tree);
      BytesOfData(h, edge);
      ChunkAt(All(h), 0);
      StartEnds(All(h));
      remaining := h[tree].rep.Len() - h[edge].rep.Len();
      InList(h);
      chunk := DataBytes(h, edge);
    }

    /** Starts at the last chunk of the tree of `other`. */
    method InitLastFrom(h: Heap, other: Reader) returns (chunk: seq<byte>)
      requires navigator.Sized() && other.Placed(h) && other.navigator.Root() in h
      requires h[other.navigator.Root()].rep.height <= MAX_HEIGHT
      requires h[other.navigator.Root()].rep.Btree?
      modifies this, navigator, navigator.index, navigator.node
      ensures Exact(h) && navigator.Root() == old(other.navigator.Root())
      ensures At(h) + 1 == |All(h)| && chunk == All(h)[At(h)]
    {
      hide RepOk, DataBytes, Flatten, Leaves, Cat, Start, AllSettled, On, Side, Edge, Position;
      var tree := other.navigator.node[other.navigator.height.value];
      var edge := navigator.Init(h, tree, true);
      remaining := 0;
      InList(h);
      navigator.IsPlace(h);
      chunk := DataBytes(h, edge);
    }

    /** Moves to the next chunk; nothing, and no move, at the end. */
    method Next(h: Heap) returns (chunk: seq<byte>)
      requires Exact(h)
      modifies this, navigator.index, navigator.node
      ensures Exact(h) && navigator.Root() == old(navigator.Root()) && navigator.Root() in h && All(h) == old(All(h))
      ensures old(At(h)) + 1 == |All(h)| ==> chunk == [] && At(h) == old(At(h))
      ensures old(At(h)) + 1 < |All(h)| ==> At(h) == old(At(h)) + 1 && chunk == All(h)[At(h)]
    {
      hide RepOk, DataBytes, Flatten, Leaves, Cat, Start, AllSettled, On, Side, Edge, Position;
      InList(h);
      navigator.IsPlace(h);
      if remaining == 0 {
        chunk := [];
      } else {
        ghost var ahead := navigator.Beside(h, true);
        var edge := navigator.Step(h, true);
        InList(h);
        CatAppend(h, [edge.value], navigator.Beside(h, true));
        CatOne(h, edge.value);
        BytesOfData(h, edge.value);
        remaining := remaining - h[edge.value].rep.Len();
        chunk := DataBytes(h, edge.value);
      }
    }

    /** Moves to the previous chunk. The count is not kept up. */
    method Previous(h: Heap) returns (chunk: seq<byte>)
      requires Placed(h) && At(h) > 0
      modifies navigator.index, navigator.node
      ensures Placed(h) && navigator.Root() == old(navigator.Root()) && navigator.Root() in h && All(h) == old(All(h))
      ensures At(h) + 1 == old(At(h)) < |All(h)| && chunk == All(h)[At(h)]
    {
      hide RepOk, DataBytes, Flatten, Leaves, Cat, Start, AllSettled, On, Side, Edge, Position;
      InList(h);
      var edge := navigator.Step(h, false);
      InList(h);
      chunk := DataBytes(h, edge.value);
    }

    /** Moves to the chunk that holds byte `offset` and returns what of it is from there on. */
    method Seek(h: Heap, offset: nat) returns (chunk: seq<byte>)
      requires Placed(h)
      modifies this, navigator.index, navigator.node
      ensures Placed(h) && navigator.Root() == old(navigator.Root()) && navigator.Root() in h && All(h) == old(All(h))
      ensures offset >= |Flatten(All(h))| ==> chunk == [] && remaining == 0 && At(h) == old(At(h))
      ensures offset < |Flatten(All(h))| ==>
        && Exact(h) && At(h) < |All(h)| && Start(All(h), At(h)) <= offset < Start(All(h), At(h)) + |All(h)[At(h)]|
        && chunk == All(h)[At(h)][offset - Start(All(h), At(h))..]
    {
      hide RepOk, DataBytes, Flatten, Leaves, Cat, Start, AllSettled, On, Side, Edge, Position;
      InList(h);
      navigator.RootIsNode(h);
      var edge, n := navigator.Seek(h, offset);
      InList(h);
      if edge.None? {
        remaining := 0;
        chunk := [];
      } else {
        BytesOfData(h, edge.value);
        LenIsBytes(h, navigator.Root());
        ChunkAt(All(h), At(h));
        chunk := DataBytes(h, edge.value)[n..];
        remaining := h[navigator.node[navigator.height.value]].rep.Len() - offset - |chunk|;
        InList(h);
      }
    }

    /** Skips `skip` bytes behind the current chunk and returns what of the chunk there follows them. */
    method Skip(h: Heap, skip: nat) returns (chunk: seq<byte>)
      requires Exact(h)
      modifies this, navigator.index, navigator.node
      ensures Placed(h) && navigator.Root() == old(navigator.Root()) && navigator.Root() in h && All(h) == old(All(h))
      ensures skip >= old(remaining) ==> chunk == [] && remaining == 0 && At(h) == old(At(h))
      ensures skip < old(remaining) ==>
        && Exact(h) && At(h) < |All(h)| && |chunk| + remaining == old(remaining) - skip
        && chunk != [] && |chunk| <= |All(h)[At(h)]| && chunk == All(h)[At(h)][|All(h)[At(h)]| - |chunk|..]
    {
      hide RepOk, DataBytes, Flatten, Leaves, Cat, Start, AllSettled, On, Side, Edge, Position;
      InList(h);
      ChunkAt(All(h), At(h));
      var current := navigator.Current(h);
      BytesOfData(h, current);
      ghost var behind := navigator.Offset(h);
      var edge, n := navigator.Skip(h, skip + h[current].rep.Len());
      InList(h);
      if edge.None? {
        remaining := 0;
        chunk := [];
      } else {
        BytesOfData(h, edge.value);
        ChunkAt(All(h), At(h));
        remaining := remaining - (skip - n + h[edge.value].rep.Len());
        InList(h);
        chunk := DataBytes(h, edge.value)[n..];
      }
    }

    /** The unread bytes: the last `size` of the current chunk, and those ahead. */
    ghost function Unread(h: Heap, size: nat): seq<byte>
      requires Placed(h) && size <= |DataBytes(h, navigator.Current(h))|
      reads this, navigator, navigator.index, navigator.node
    {
      var chunk := DataBytes(h, navigator.Current(h));
      chunk[|chunk| - size..] + Cat(h, navigator.Beside(h, true))
    }

    /** The unread bytes as a suffix of the tree. */
    lemma UnreadIs(h: Heap, size: nat)
      requires Placed(h) && size <= |DataBytes(h, navigator.Current(h))|
      ensures navigator.Root() in h && navigator.Current(h) in h
      ensures h[navigator.Current(h)].rep.Len() == |DataBytes(h, navigator.Current(h))|
      ensures
        var all, at := Bytes(h, navigator.Root()), navigator.Offset(h) + |DataBytes(h, navigator.Current(h))| - size;
        at <= |all| && Unread(h, size) == all[at..] && |all| - at == size + |Cat(h, navigator.Beside(h, true))|
    {
      hide RepOk, DataBytes, Leaves, Cat, Side, On, AllSettled;
      navigator.IsPlace(h);
      var behind, e, ahead := navigator.Beside(h, false), navigator.Current(h), navigator.Beside(h, true);
      BytesOfData(h, e);
      PlaceInChunks(h, navigator.Root(), behind, e, ahead);
      TreeChunks(h, navigator.Root());
      DropFrom(Cat(h, behind), DataBytes(h, e), Cat(h, ahead), |DataBytes(h, e)| - size);
    }

    /**
    Reads `n` bytes into a new tree, beginning with the last `size` bytes of the current chunk, or with
    the next chunk if `size` is 0. Returns what is left of the chunk in which the read ended. At the
    end of the tree, with `size` 0, there is no next chunk and the last one is read again.
    */
    method Read(a: Arena, n: nat, size: nat) returns (chunk: seq<byte>, tree: Option<Id>)
      requires a.Ok() && Exact(a.cells) && size <= |DataBytes(a.cells, navigator.Current(a.cells))|
      modifies a, this, navigator.index, navigator.node
      ensures a.Ok()
      ensures tree.None? ==> a.cells == old(a.cells) && a.held == old(a.held)
      ensures tree.Some? ==>
        && Copies.Fresh(old(a.cells), old(a.next), old(a.held), {}, a.cells, a.held, tree.value) && Shape(a.cells)
        && tree.value in a.cells
      ensures old(size > 0 || remaining > 0) ==>
        var rest := old(Unread(a.cells, size));
        && (tree.Some? <==> 0 < n <= |rest|) && (tree.Some? ==> Bytes(a.cells, tree.value) == rest[..n])
        && (n < |rest| ==> Left(a.cells, chunk, rest[n..]))
        && (n >= |rest| ==> chunk == [] && remaining == 0)
      ensures old(size == 0 && remaining == 0) ==> chunk == [] && remaining == 0
      ensures old(size == 0 && remaining == 0) ==>
        (tree.Some? <==> 0 < n <= |old(DataBytes(a.cells, navigator.Current(a.cells)))|)
      ensures old(size == 0 && remaining == 0) && tree.Some? ==>
        Shape(a.cells) && Bytes(a.cells, tree.value) == old(DataBytes(a.cells, navigator.Current(a.cells)))[..n]
    {
      hide RepOk, DataBytes, Flatten, Leaves, Cat, Start, AllSettled, Bytes, Inv, Copies.Fresh, On, Side, Edge,
        Position, Left, Unread;
      InList(a.cells);
      ghost var h, i, at := a.cells, At(a.cells), UnreadFrom(a.cells, size);
      ghost var root, normal := navigator.Root(), size > 0 || remaining > 0;
      UnreadIs(h, size);
      ChunkAt(All(h), i);
      ReadSlices(Bytes(h, root), at, n);
      var edge, used;
      edge, used, tree := Take(a, n, size);
      chunk := Settle(a.cells, h, i, at, normal, n, size, used, edge);
      if normal && at + n < |Bytes(h, root)| {
        IsLeft(a.cells, at + n, used, chunk);
      }
    }

    /** The read itself: from where the unread bytes begin. */
    method Take(a: Arena, n: nat, size: nat) returns (edge: Id, used: nat, tree: Option<Id>)
      requires a.Ok() && Exact(a.cells) && size <= |DataBytes(a.cells, navigator.Current(a.cells))|
      modifies a, navigator.index, navigator.node
      ensures a.Ok() && navigator.Sized() && navigator.height.Some? && navigator.Root() == old(navigator.Root())
      ensures navigator.Root() in old(a.cells) && navigator.Root() in a.cells && Shape(a.cells)
      ensures Extends(old(a.cells), a.cells)
      ensures Bytes(a.cells, navigator.Root()) == old(Bytes(a.cells, navigator.Root()))
      ensures tree.None? ==> a.cells == old(a.cells) && a.held == old(a.held)
      ensures tree.Some? ==>
        Copies.Fresh(old(a.cells), old(a.next), old(a.held), {}, a.cells, a.held, tree.value) && tree.value in a.cells
      ensures size > 0 ==>
        edge == old(navigator.Current(a.cells)) && edge in old(a.cells) && !old(a.cells)[edge].rep.Btree?
      ensures old(size > 0 || remaining > 0) ==>
        var all, at := old(Bytes(a.cells, navigator.Root())), old(UnreadFrom(a.cells, size));
        && (tree.Some? <==> 0 < n && at + n <= |all|) && (tree.Some? ==> Bytes(a.cells, tree.value) == all[at..at + n])
        && (at + n < |all| ==> Ended(a.cells, at + n, used)) && (at + n >= |all| ==> used == at + n - |all|)
      ensures old(size == 0 && remaining == 0) ==> used <= n
      ensures old(size == 0 && remaining == 0) ==>
        (tree.Some? <==> 0 < n <= |old(DataBytes(a.cells, navigator.Current(a.cells)))|)
      ensures old(size == 0 && remaining == 0) && tree.Some? ==>
        Shape(a.cells) && Bytes(a.cells, tree.value) == old(DataBytes(a.cells, navigator.Current(a.cells)))[..n]
    {
      hide RepOk, DataBytes, Flatten, Leaves, Cat, Start, AllSettled, Bytes, Inv, Copies.Fresh, On, Side, Edge,
        Position, Extends, Unread, Slice;
      InList(a.cells);
      ghost var h, i, root, normal := a.cells, At(a.cells), navigator.Root(), size > 0 || remaining > 0;
      UnreadIs(h, size);
      LastBytes(h, n);
      var offset;
      edge, offset := Begin(a.cells, size);
      LandingData(h);
      ghost var from := navigator.Offset(h);
      tree, used := navigator.Read(a, offset, n);
      ReadExtends(h, old(a.next), old(a.held), a.cells, a.held, tree);
      BytesFrame(h, a.cells, {}, root);
      if from + offset + n < |Bytes(h, root)| {
        LandingData(a.cells);
        if !normal {
          NotBefore(h, a.cells, i, from + n, used);
        }
      }
    }

    /** At the end of the tree, the current chunk is its last part. */
    lemma LastBytes(h: Heap, n: nat)
      requires Exact(h)
      ensures navigator.Root() in h
      ensures
        var all, at, chunk := Bytes(h, navigator.Root()), navigator.Offset(h), DataBytes(h, navigator.Current(h));
        remaining == 0 && n <= |chunk| ==> at + n <= |all| && all[at..at + n] == chunk[..n]
    {
      hide RepOk, DataBytes, Leaves, Cat, Side, On, AllSettled, Position;
      InList(h);
      var chunk := DataBytes(h, navigator.Current(h));
      UnreadIs(h, |chunk|);
      if remaining == 0 && n <= |chunk| {
        assert Unread(h, |chunk|) == chunk + Cat(h, navigator.Beside(h, true))
          && |Cat(h, navigator.Beside(h, true))| == 0;
        assert Unread(h, |chunk|) == chunk;
        PartOfLast(Bytes(h, navigator.Root()), navigator.Offset(h), chunk, n);
      }
    }

    /** A read does not end before the chunk in which it began. */
    lemma NotBefore(h: Heap, h': Heap, i: nat, p: nat, used: nat)
      requires Placed(h') && Shape(h) && Extends(h, h') && navigator.Root() in h
      requires i <= |Leaves(h, navigator.Root())| && Start(ChunksOf(h, Leaves(h, navigator.Root())), i) <= p
      requires navigator.Current(h') in h' && used < h'[navigator.Current(h')].rep.Len()
      requires navigator.Offset(h') + used == p
      ensures Start(ChunksOf(h, Leaves(h, navigator.Root())), i) + used <= p
    {
      hide RepOk, DataBytes, Flatten, Leaves, Cat, Start, AllSettled, Bytes, On, Side, Edge, Position;
      Landing(h, h', i, p);
      InList(h');
    }

    /** `chunk` is the unread part of the current chunk, and `rest` is all that is unread. */
    ghost predicate Left(h: Heap, chunk: seq<byte>, rest: seq<byte>)
      reads this, navigator, navigator.index, navigator.node
    {
      Exact(h) && |chunk| <= |DataBytes(h, navigator.Current(h))| && Unread(h, |chunk|) == rest && chunk <= rest
    }

    lemma IsLeft(h: Heap, p: nat, used: nat, chunk: seq<byte>)
      requires Exact(h) && Ended(h, p, used) && chunk == DataBytes(h, navigator.Current(h))[used..]
      requires navigator.Root() in h
      ensures p <= |Bytes(h, navigator.Root())| && Left(h, chunk, Bytes(h, navigator.Root())[p..])
    {
      hide RepOk, DataBytes, Leaves, Cat, AllSettled, Bytes, On, Side, Edge, Position;
      UnreadIs(h, |chunk|);
      Suffix(DataBytes(h, navigator.Current(h)), used, Cat(h, navigator.Beside(h, true)));
    }

    /** What is left of the chunk in which a read ended, and the count of the bytes ahead of it. */
    method Settle(h': Heap, ghost h: Heap, ghost i: nat, ghost at: nat, ghost normal: bool, n: nat, size: nat,
                  used: nat, edge: Id)
      returns (chunk: seq<byte>)
      requires Shape(h) && Shape(h') && Extends(h, h') && navigator.Sized() && navigator.height.Some?
      requires navigator.Root() in h
      requires i < |Leaves(h, navigator.Root())| && size <= |ChunksOf(h, Leaves(h, navigator.Root()))[i]|
      requires
        var all := ChunksOf(h, Leaves(h, navigator.Root()));
        && at + size == Start(all, i + 1) && remaining + at + size == |Flatten(all)|
        && (normal <==> size > 0 || remaining > 0)
        && (normal && at + n < |Flatten(all)| ==> Ended(h', at + n, used))
        && (normal && at + n >= |Flatten(all)| ==> used == at + n - |Flatten(all)|) && (!normal ==> used <= n)
        && (size > 0 ==> edge in h && !h[edge].rep.Btree? && DataBytes(h, edge) == all[i])
      modifies this
      ensures
        var total := |Flatten(ChunksOf(h, Leaves(h, navigator.Root())))|;
        && (normal && at + n < total
            ==> Exact(h') && Ended(h', at + n, used) && chunk == DataBytes(h', navigator.Current(h'))[used..])
        && (!normal || at + n >= total ==> chunk == [] && remaining == 0)
    {
      hide RepOk, DataBytes, Flatten, Leaves, Cat, Start, AllSettled, Bytes, On, Side, Edge, Position;
      ghost var all := ChunksOf(h, Leaves(h, navigator.Root()));
      ChunkAt(all, i);
      if normal && at + n < |Flatten(all)| {
        InList(h');
        LandingData(h');
        Landing(h, h', if n < size then i else i + 1, at + n);
      }
      if n < size {
        DataFrame(h, h', {}, edge);
        chunk := Stay(h', used, edge);
        InList(h');
      } else {
        var consumed := n - size - used;
        if consumed >= remaining {
          remaining := 0;
          chunk := [];
        } else {
          chunk := Move(h', consumed, used);
        }
      }
    }

    /** A read ended `used` bytes into the current chunk, at byte `p` of the tree. */
    ghost predicate Ended(h: Heap, p: nat, used: nat)
      reads this, navigator, navigator.index, navigator.node
    {
      && Placed(h) && navigator.Current(h) in h && used < |DataBytes(h, navigator.Current(h))|
      && navigator.Offset(h) + used == p
    }

    /** The rest of the current chunk from `used` on, when nothing more was consumed. */
    method Stay(h: Heap, used: nat, edge: Id) returns (chunk: seq<byte>)
      requires Placed(h) && used <= |DataBytes(h, navigator.Current(h))|
      requires edge in h && DataBytes(h, edge) == DataBytes(h, navigator.Current(h))
      ensures chunk == DataBytes(h, navigator.Current(h))[used..]
    {
      chunk := DataBytes(h, edge)[used..];
    }

    /** The rest of the chunk to which a read has moved on, past `consumed` bytes of whole chunks. */
    method Move(h: Heap, consumed: nat, used: nat) returns (chunk: seq<byte>)
      requires Placed(h) && used <= |DataBytes(h, navigator.Current(h))| && navigator.Root() in h
      requires navigator.Offset(h) + remaining == consumed + |Bytes(h, navigator.Root())|
      modifies this
      ensures Exact(h) && chunk == DataBytes(h, navigator.Current(h))[used..]
      ensures |chunk| <= |DataBytes(h, navigator.Current(h))|
    {
      hide RepOk, DataBytes, Flatten, Leaves, Cat, Start, AllSettled, Bytes, On, Side, Edge, Position;
      InList(h);
      var edge := navigator.Current(h);
      BytesOfData(h, edge);
      ChunkAt(All(h), At(h));
      remaining := remaining - (consumed + h[edge].rep.Len());
      InList(h);
      chunk := DataBytes(h, edge)[used..];
    }

    lemma LandingData(h: Heap)
      requires Placed(h) && navigator.Current(h) in h
      ensures |DataBytes(h, navigator.Current(h))| == h[navigator.Current(h)].rep.Len()
    {
      hide RepOk, DataBytes, On, Side, AllSettled;
      navigator.IsPlace(h);
      BytesOfData(h, navigator.Current(h));
    }

    /** Where a read ended, as a place in the list of chunks. */
    lemma Landing(h: Heap, h': Heap, i: nat, p: nat)
      requires Placed(h') && Shape(h) && Extends(h, h') && navigator.Root() in h
      requires i <= |Leaves(h, navigator.Root())| && Start(ChunksOf(h, Leaves(h, navigator.Root())), i) <= p
      requires navigator.Current(h') in h'
      requires navigator.Offset(h') <= p < navigator.Offset(h') + h'[navigator.Current(h')].rep.Len()
      ensures All(h') == ChunksOf(h, Leaves(h, navigator.Root())) && i <= At(h') < |All(h')|
      ensures Start(All(h'), At(h')) >= Start(All(h'), i)
      ensures i < |All(h')| && p < Start(All(h'), i + 1) ==> At(h') == i
    {
      hide RepOk, DataBytes, Flatten, Leaves, Cat, Start, AllSettled, Bytes, On, Side, Edge, Position;
      InList(h');
      BytesOfData(h', navigator.Current(h'));
      ChunksExtend(h, h', navigator.Root());
      ChunkAt(All(h'), At(h'));
      if At(h') < i {
        StartMono(All(h'), At(h') + 1, i);
      } else {
        StartMono(All(h'), i, At(h'));
        if At(h') > i {
          StartMono(All(h'), i + 1, At(h'));
        }
      }
    }

    /** The position of the first unread byte. */
    ghost function UnreadFrom(h: Heap, size: nat): nat
      requires Placed(h) && size <= |DataBytes(h, navigator.Current(h))|
      reads this, navigator, navigator.index, navigator.node
    {
      navigator.Offset(h) + |DataBytes(h, navigator.Current(h))| - size
    }

    /** Moves to the edge in which a read begins. */
    method Begin(h: Heap, size: nat) returns (edge: Id, offset: nat)
      requires Exact(h) && size <= |DataBytes(h, navigator.Current(h))|
      modifies navigator.index, navigator.node
      ensures Placed(h) && navigator.Root() == old(navigator.Root()) && navigator.Current(h) in h
      ensures edge == navigator.Current(h)
      ensures offset < h[edge].rep.Len()
      ensures old(size > 0 || remaining > 0) ==> navigator.Offset(h) + offset == old(UnreadFrom(h, size))
      ensures old(size == 0 && remaining == 0) ==> navigator.Stack() == old(navigator.Stack()) && offset == 0
      ensures size > 0 ==> navigator.Stack() == old(navigator.Stack()) && offset + size == h[edge].rep.Len()
      ensures size > 0 ==> edge == old(navigator.Current(h)) && !h[edge].rep.Btree?
    {
      hide RepOk, DataBytes, Flatten, Leaves, Cat, Start, AllSettled, Bytes, On, Side, Edge;
      InList(h);
      edge := navigator.Current(h);
      BytesOfData(h, edge);
      if size != 0 {
        offset := h[edge].rep.Len() - size;
      } else {
        ghost var behind := navigator.Beside(h, false);
        var next := navigator.Step(h, true);
        CatAppend(h, behind, [edge]);
        CatOne(h, edge);
        InList(h);
        edge := navigator.Current(h);
        BytesOfData(h, edge);
        offset := 0;
      }
    }
  }

  /**
  A tree with a single data edge that has been read: nothing remains, yet a read with size 0 returns
  a tree, of bytes that were read before.
  */
  method ReadAgain(data: seq<byte>, n: nat) returns (unread: nat, tree: Option<Id>, ghost bytes: seq<byte>)
    requires 0 < n <= |data|
    ensures unread == 0 && tree.Some? && bytes == data[..n]
  {
    hide Inv, RepOk, DataBytes, Flatten, Leaves, Cat, Start, AllSettled, On, Side, Edge, Position, Bytes;
    var a := new Arena();
    var f := NewFlat(a, data, |data|);
    var leaf := NewWith(a, f);
    SingleLeaf(a.cells, a.held, f, leaf);
    var reader := new Reader();
    var chunk := reader.Init(a.cells, leaf);
    reader.NothingAhead(a.cells, f);
    unread := reader.remaining;
    chunk, tree := reader.Read(a, n, 0);
    bytes := Bytes(a.cells, tree.value);
  }

  lemma SingleLeaf(h: Heap, held: multiset<Id>, f: Id, leaf: Id)
    requires Inv(h, held) && f in h && leaf in h && f != leaf && (forall x :: x in h ==> x == f || x == leaf)
    requires h[f].rep.Flat? && NodeWith(h[leaf].rep, 0, h[f].rep.Len(), [f])
    ensures Shape(h) && AllSettled(h, {}) && Leaves(h, leaf) == [f] && DataBytes(h, f) == h[f].rep.data
  {
    hide Inv, RepOk;
    InvShape(h, held);
    LeavesOfNode(h, leaf);
    LeavesOfOne(h, 0, f);
    assert SumLen(h, [f]) == h[f].rep.Len() + SumLen(h, []);
  }

  lemma ReadExtends(h: Heap, n: Id, held: multiset<Id>, h': Heap, held': multiset<Id>, tree: Option<Id>)
    requires tree.None? ==> h' == h
    requires tree.Some? ==> Copies.Fresh(h, n, held, {}, h', held', tree.value)
    ensures Extends(h, h')
  {
  }

  lemma PartOfLast(all: seq<byte>, at: nat, chunk: seq<byte>, n: nat)
    requires at <= |all| && all[at..] == chunk && n <= |chunk|
    ensures at + n <= |all| && all[at..at + n] == chunk[..n]
  {
    assert |chunk| == |all| - at;
    assert all[at..at + n] == all[at..][..n];
  }

  lemma Suffix(chunk: seq<byte>, used: nat, more: seq<byte>)
    requires used <= |chunk|
    ensures chunk[|chunk| - |chunk[used..]|..] == chunk[used..]
    ensures (chunk[used..] + more)[..|chunk[used..]|] == chunk[used..]
  {
  }

  lemma ReadSlices(all: seq<byte>, at: nat, n: nat)
    requires at <= |all|
    ensures n <= |all| - at ==> all[at..][..n] == all[at..at + n] && all[at..][n..] == all[at + n..]
  {
  }

  lemma DropFrom(a: seq<byte>, b: seq<byte>, c: seq<byte>, n: nat)
    requires n <= |b|
    ensures (a + b + c)[|a| + n..] == b[n..] + c
  {
  }
}
