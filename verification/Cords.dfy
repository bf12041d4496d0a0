/**
Cords (cord.rs): a cord holds up to 15 bytes inline, or a reference to a rep. The operations here
work on one cord that has been taken out of its place; what they promise about all other cords
and buffers is `Others`.
*/
module Cords {
  import opened Heap
  import opened Counts
  import opened Arenas
  import opened Substrings
  import opened Legs
  import opened Nodes
  import opened Edits
  import opened Rebuilds
  import opened Unwinding
  import opened Trees
  import opened Copies
  import opened SubTrees
  import opened Crops
  import opened Buffers
  import ChunkLists
  import ChunkIters

  const MAX_INLINE: nat := 15
  const MAX_BYTES_TO_COPY: nat := 511

  datatype Cord = Inline(bytes: seq<byte>) | Tree(root: Id)

  /** The reference that a cord holds. */
  ghost function Held(c: Cord): multiset<Id> {
    if c.Tree? then multiset{c.root} else multiset{}
  }

  ghost predicate RootOk(h: Heap, x: Id) {
    x in h && (h[x].rep.Btree? ==> h[x].rep.height <= MAX_HEIGHT)
  }

  ghost predicate CordOk(h: Heap, c: Cord) {
    if c.Tree? then RootOk(h, c.root) else |c.bytes| <= MAX_INLINE
  }

  /** What a cord holds. */
  ghost function Value(h: Heap, c: Cord): seq<byte>
    requires Shape(h) && CordOk(h, c)
  {
    if c.Tree? then Bytes(h, c.root) else c.bytes
  }

  /** An operation begun in `h` has left the handles `rest` alone and produced `c`, holding `bytes`. */
  ghost predicate Yields(h: Heap, rest: multiset<Id>, h': Heap, held': multiset<Id>, c: Cord, bytes: seq<byte>)
    requires Shape(h)
  {
    && Inv(h', held') && Shape(h') && AllSettled(h', {}) && held' == rest + Held(c)
    && CordOk(h', c) && Value(h', c) == bytes && Others(h, h', rest)
  }

  /** The same for a bare reference. */
  ghost predicate Gives(h: Heap, rest: multiset<Id>, h': Heap, held': multiset<Id>, x: Id, bytes: seq<byte>)
    requires Shape(h)
  {
    Outcome(h, rest, h', held', x, bytes) && RootOk(h', x)
  }

  lemma GivesTree(h: Heap, rest: multiset<Id>, h': Heap, held': multiset<Id>, x: Id, bytes: seq<byte>)
    requires Shape(h) && Gives(h, rest, h', held', x, bytes)
    ensures Yields(h, rest, h', held', Tree(x), bytes)
  {
    hide Inv, AllSettled, Bytes, Others;
    InvShape(h', held');
  }

  lemma GivesFacts(h: Heap, rest: multiset<Id>, h': Heap, held': multiset<Id>, x: Id, bytes: seq<byte>)
    requires Shape(h) && Gives(h, rest, h', held', x, bytes)
    ensures Inv(h', held') && Shape(h') && AllSettled(h', {}) && held' == rest + multiset{x} && x in held' && x in h'
    ensures RootOk(h', x)
    ensures Bytes(h', x) == bytes && Others(h, h', rest)
  {
    hide Inv, AllSettled, Bytes, Others;
    InvShape(h', held');
  }

  lemma OthersAt(h: Heap, h': Heap, rest: multiset<Id>, x: Id)
    requires Shape(h) && Shape(h') && Others(h, h', rest) && x in rest
    ensures x in h && x in h' && Same(h[x], h'[x]) && Bytes(h, x) == Bytes(h', x)
  {
  }

  /** Two operations in a row. */
  lemma GivesSince(h: Heap, h1: Heap, few: multiset<Id>, rest: multiset<Id>, h': Heap, held': multiset<Id>, x: Id,
                   bytes: seq<byte>)
    requires Shape(h) && Shape(h1) && Others(h, h1, rest) && few <= rest && Gives(h1, few, h', held', x, bytes)
    ensures Gives(h, few, h', held', x, bytes)
  {
    hide Inv, AllSettled, Bytes, Others;
    OthersFewer(h, h1, rest, few);
    OutcomeSince(h, h1, few, h', held', x, bytes);
  }

  /** A new rep is one more handle. */
  lemma GrewGives(h: Heap, held: multiset<Id>, n: Id, h': Heap, held': multiset<Id>, x: Id, rest: multiset<Id>)
    requires Inv(h, held) && Shape(h) && Grew(h, n, h') && Inv(h', held') && Shape(h') && AllSettled(h', {})
    requires rest <= held
    requires held' == rest + multiset{x} && RootOk(h', x)
    ensures Gives(h, rest, h', held', x, Bytes(h', x))
  {
    hide Inv, AllSettled, Bytes;
    forall y | y in rest ensures y in h && y in h' && Same(h[y], h'[y]) && Bytes(h, y) == Bytes(h', y) {
      assert y in held;
      HeldIn(h, held, y);
      GrewSame(h, n, h', y);
    }
  }

  /** A new flat holding `data`, with room for `extra` more bytes if a flat may be so large. */
  method CreateFlat(a: Arena, data: seq<byte>, extra: nat) returns (r: Id)
    requires a.Ok() && AllSettled(a.cells, {}) && 0 < |data| <= MAX_FLAT_LENGTH
    modifies a
    ensures a.Ok() && a.next >= old(a.next) && Gives(old(a.cells), old(a.held), a.cells, a.held, r, data)
    ensures !a.cells[r].rep.Btree? && Grew(old(a.cells), old(a.next), a.cells) && r >= old(a.next)
    ensures
      var more := if extra < MAX_FLAT_LENGTH then extra else MAX_FLAT_LENGTH;
      a.cells[r] == Cell(1, Flat(data, FlatCapacity(|data| + more)))
  {
    hide Inv, AllSettled, Bytes, RepOk, Gives;
    InvShape(a.cells, a.held);
    ghost var h, held, n := a.cells, a.held, a.next;
    r := NewFlat(a, data, FlatCapacity(|data| + if extra < MAX_FLAT_LENGTH then extra else MAX_FLAT_LENGTH));
    InvShape(a.cells, a.held);
    FlatSettled(h, r, a.cells);
    FlatBytes(a.cells, r);
    GrewGives(h, held, n, a.cells, a.held, r, held);
  }

  lemma FlatSettled(h: Heap, r: Id, h': Heap)
    requires Shape(h) && Shape(h') && AllSettled(h, {}) && r !in h && r in h' && h' == h[r := h'[r]]
    requires !h'[r].rep.Btree?
    ensures AllSettled(h', {})
  {
    hide Settled;
    forall x | x in h' ensures Settled(h', x) {
      if x == r {
        DataSettled(h', x);
      } else {
        SettledKept(h, h', x);
      }
    }
  }

  /** `x` as a btree. */
  method ForceBtree(a: Arena, x: Id) returns (r: Id)
    requires a.Ok() && AllSettled(a.cells, {}) && x in a.held && RootOk(a.cells, x)
    modifies a
    ensures a.Ok() && a.next >= old(a.next)
    ensures Gives(old(a.cells), old(a.held) - multiset{x}, a.cells, a.held, r, old(Bytes(a.cells, x)))
    ensures a.cells[r].rep.Btree?
    ensures Shape(a.cells) && Leaves(a.cells, r) == old(Leaves(a.cells, x)) && Grew(old(a.cells), old(a.next), a.cells)
  {
    hide Inv, AllSettled, Bytes, RepOk, Leaves;
    InvShape(a.cells, a.held);
    ghost var h, held, n := a.cells, a.held, a.next;
    if a.cells[x].rep.Btree? {
      r := x;
      GrewGives(h, held, n, h, held, x, held - multiset{x}) by { assert held - multiset{x} + multiset{x} == held; }
    } else {
      r := NewWith(a, x);
      InvShape(a.cells, a.held);
      Wrapped(h, x, r, a.cells);
      WrappedLeaves(h, x, r, a.cells);
      GrewGives(h, held, n, a.cells, a.held, r, held - multiset{x});
    }
  }

  lemma WrappedLeaves(h: Heap, x: Id, r: Id, h': Heap)
    requires Shape(h) && Shape(h') && x in h && r !in h && r in h' && h' == h[r := h'[r]]
    requires NodeWith(h'[r].rep, h[x].rep.Level(), h[x].rep.Len(), [x])
    ensures Leaves(h', r) == Leaves(h, x)
  {
    hide RepOk, Leaves;
    LeavesFrame(h, h', {}, x);
    LeavesOfNode(h', r);
    LeavesOfOne(h', h[x].rep.Level(), x);
  }

  /** The number of data edges of a cord, where an inline cord that is not empty would need one. */
  ghost function CordEdges(h: Heap, c: Cord): nat
    requires Shape(h) && CordOk(h, c)
  {
    if c.Tree? then |Leaves(h, c.root)| else if c.bytes == [] then 0 else 1
  }

  /** How many bytes can be appended to `x` in place: only a flat to which nothing else leads has room. */
  ghost function Spare(h: Heap, x: Id): nat
    requires Shape(h) && x in h
  {
    if h[x].rc != 1 then 0
    else if h[x].rep.Btree? then SpareBelow(h, x)
    else if h[x].rep.Flat? then assert RepOk(h, h[x].rep); Room(h[x].rep)
    else 0
  }

  /** The room of the flat at the end of the path, if no count on the path is above one. */
  lemma SpareIs(h: Heap, x: Id)
    requires Shape(h) && AllSettled(h, {}) && x in h
    ensures
      var p := BackPath(h, x);
      var e := p[|p| - 1];
      && e in h && (h[e].rep.Flat? ==> |h[e].rep.data| <= h[e].rep.capacity)
      && Spare(h, x) ==
           if (forall y :: y in p ==> y in h && h[y].rc == 1) && h[e].rep.Flat?
           then h[e].rep.capacity - |h[e].rep.data| else 0
  {
    hide AllSettled, SpareBelow;
    assert RepOk(h, h[x].rep);
    if h[x].rep.Btree? {
      hide BackPath;
      BackPathIs(h, x);
      SpareBelowIs(h, x);
    }
  }

  /** The number of data edges of a cord to which `n` bytes are appended: spare room is filled first. */
  ghost function AppendedEdges(h: Heap, c: Cord, n: nat): nat
    requires Shape(h) && CordOk(h, c)
  {
    if c.Inline? then FlatsFor(|c.bytes| + n)
    else |Leaves(h, c.root)| + FlatsFor(if n < Spare(h, c.root) then 0 else n - Spare(h, c.root))
  }

  /** The number of data edges of a cord to which `n` bytes are prepended. */
  ghost function PrependedEdges(h: Heap, c: Cord, n: nat): nat
    requires Shape(h) && CordOk(h, c)
  {
    if c.Inline? && |c.bytes| + n <= MAX_INLINE then FlatsFor(|c.bytes| + n) else CordEdges(h, c) + FlatsFor(n)
  }

  /** At most what the bytes need on their own. */
  lemma AppendedAtMost(h: Heap, c: Cord, n: nat)
    requires Shape(h) && CordOk(h, c)
    ensures AppendedEdges(h, c, n) <= CordEdges(h, c) + FlatsFor(n)
  {
    hide Leaves, Spare;
    if c.Inline? && c.bytes != [] {
      FlatsForMore(n, |c.bytes|);
    } else if c.Tree? && n >= Spare(h, c.root) {
      FlatsForMono(n - Spare(h, c.root), n);
    }
  }

  lemma FlatsForMono(m: nat, n: nat)
    requires m <= n
    ensures FlatsFor(m) <= FlatsFor(n)
  {
  }

  lemma FlatsForMore(n: nat, m: nat)
    requires 0 < m <= MAX_INLINE
    ensures FlatsFor(m) == 1 && FlatsFor(m + n) <= 1 + FlatsFor(n)
  {
    FlatsForMono(m + n, n + MAX_FLAT_LENGTH);
    FlatsForNext(n + MAX_FLAT_LENGTH);
  }

  /** Adds the rep `x` to the btree `tree`, at the back or front. */
  method AddToTree(a: Arena, back: bool, tree: Id, x: Id) returns (r: Id, aborted: bool)
    requires a.Ok() && AllSettled(a.cells, {}) && multiset{tree, x} <= a.held
    requires RootOk(a.cells, tree) && a.cells[tree].rep.Btree? && RootOk(a.cells, x)
    modifies a
    ensures aborted <==> |old(Leaves(a.cells, tree))| + |old(Leaves(a.cells, x))| > Pow6(MAX_DEPTH)
    ensures !aborted ==> a.Ok() && a.next >= old(a.next)
    ensures !aborted ==> Gives(old(a.cells), old(a.held) - multiset{tree, x}, a.cells, a.held, r,
                               Join(back, old(Bytes(a.cells, tree)), old(Bytes(a.cells, x))))
    ensures !aborted ==>
      && Shape(a.cells) && r in a.cells
      && Leaves(a.cells, r) == Join(back, old(Leaves(a.cells, tree)), old(Leaves(a.cells, x)))
  {
    hide Inv, AllSettled, Bytes, RepOk, Outcome, Join, Leaves;
    InvShape(a.cells, a.held);
    r, aborted := AddRep(a, back, tree, x);
  }

  /** Adds data to the handle `x`, at the back or front. */
  method AddDataTo(a: Arena, back: bool, x: Id, data: seq<byte>, extra: nat) returns (r: Id, aborted: bool)
    requires a.Ok() && AllSettled(a.cells, {}) && x in a.held && RootOk(a.cells, x)
    modifies a
    ensures aborted <==> |old(Leaves(a.cells, x))| + FlatsFor(|data|) > Pow6(MAX_DEPTH)
    ensures !aborted ==> a.Ok() && a.next >= old(a.next)
    ensures !aborted ==>
      Gives(old(a.cells), old(a.held) - multiset{x}, a.cells, a.held, r, Join(back, old(Bytes(a.cells, x)), data))
    ensures !aborted ==> Shape(a.cells) && |Leaves(a.cells, r)| == |old(Leaves(a.cells, x))| + FlatsFor(|data|)
    ensures !aborted ==> r in a.cells && Extended(back, old(Leaves(a.cells, x)), Leaves(a.cells, r))
    ensures !aborted ==> OldOrNew(Leaves(a.cells, r), old(Leaves(a.cells, x)), old(a.next))
  {
    hide Inv, AllSettled, Bytes, RepOk, Gives, Outcome, Join, Others, Leaves, FlatsFor, Extended, OldOrNew;
    InvShape(a.cells, a.held);
    ghost var h, held, rest := a.cells, a.held, a.held - multiset{x};
    var tree := ForceBtree(a, x);
    ghost var h1, held1, n1 := a.cells, a.held, a.next;
    GivesFacts(h, rest, h1, held1, tree, Bytes(h, x));
    r, aborted := AddData(a, back, tree, data, extra);
    if !aborted {
      OldOrNewLater(Leaves(a.cells, r), Leaves(h, x), old(a.next), n1);
      assert held1 - multiset{tree} == rest;
      assert Gives(h1, rest, a.cells, a.held, r, Join(back, Bytes(h, x), data)) by {
        GivesIf(h1, rest, a.cells, a.held, r, Join(back, Bytes(h, x), data));
      }
      GivesSince(h, h1, rest, rest, a.cells, a.held, r, Join(back, Bytes(h, x), data));
    }
  }

  lemma OldOrNewLater(es: seq<Id>, old': seq<Id>, n: Id, n1: Id)
    requires OldOrNew(es, old', n1) && n <= n1
    ensures OldOrNew(es, old', n)
  {
  }

  lemma OldOrNewTwice(es: seq<Id>, mid: seq<Id>, old': seq<Id>, n: Id, n1: Id)
    requires OldOrNew(es, mid, n1) && OldOrNew(mid, old', n) && n <= n1
    ensures OldOrNew(es, old', n)
  {
  }

  lemma GivesIf(h: Heap, rest: multiset<Id>, h': Heap, held': multiset<Id>, x: Id, bytes: seq<byte>)
    requires Shape(h) && Outcome(h, rest, h', held', x, bytes) && RootOk(h', x)
    ensures Gives(h, rest, h', held', x, bytes)
  {
  }

  /** A new rep holding `data`. */
  method NewTree(a: Arena, data: seq<byte>, hint: nat) returns (r: Id, aborted: bool)
    requires a.Ok() && AllSettled(a.cells, {}) && data != []
    modifies a
    ensures aborted <==> FlatsFor(|data|) > Pow6(MAX_DEPTH)
    ensures !aborted ==> a.Ok() && a.next >= old(a.next) && Gives(old(a.cells), old(a.held), a.cells, a.held, r, data)
    ensures !aborted ==> Shape(a.cells) && |Leaves(a.cells, r)| == FlatsFor(|data|)
    ensures !aborted ==> OldOrNew(Leaves(a.cells, r), [], old(a.next))
  {
    hide Inv, AllSettled, Bytes, RepOk, Gives, Others, Join, Leaves, FlatsFor, Extended;
    ghost var n := a.next;
    InvShape(a.cells, a.held);
    ghost var h, held := a.cells, a.held;
    aborted := false;
    FlatsForNext(|data|);
    Pow6Positive(MAX_DEPTH);
    if |data| <= MAX_FLAT_LENGTH {
      r := CreateFlat(a, data, hint);
      GivesFacts(h, held, a.cells, a.held, r, data);
      DataLeaf(a.cells, r);
    } else {
      var first, others := data[..MAX_FLAT_LENGTH], data[MAX_FLAT_LENGTH..];
      r := CreateFlat(a, first, 0);
      ghost var h1, held1, n1, x := a.cells, a.held, a.next, r;
      GivesFacts(h, held, h1, held1, r, first);
      DataLeaf(h1, r);
      r, aborted := AddDataTo(a, true, r, others, hint);
      assert held1 - multiset{x} == held;
      JoinBack(first, others);
      assert first + others == data;
      if !aborted {
        OldOrNewTwice(Leaves(a.cells, r), [x], [], n, n1);
        GivesSince(h, h1, held, held, a.cells, a.held, r, data);
      }
    }
  }

  /** Adds the handle `x` to a cord, at the back (`append_tree`) or front (`prepend_tree`). */
  method AddTree(a: Arena, back: bool, c: Cord, x: Id) returns (r: Cord, aborted: bool)
    requires a.Ok() && AllSettled(a.cells, {}) && Held(c) + multiset{x} <= a.held && Shape(a.cells)
    requires CordOk(a.cells, c) && RootOk(a.cells, x)
    modifies a
    ensures aborted <==> old(CordEdges(a.cells, c)) + |old(Leaves(a.cells, x))| > Pow6(MAX_DEPTH)
    ensures !aborted ==> a.Ok() && a.next >= old(a.next)
    ensures !aborted ==> Yields(old(a.cells), old(a.held) - Held(c) - multiset{x}, a.cells, a.held, r,
                                Join(back, old(Value(a.cells, c)), old(Bytes(a.cells, x))))
    ensures !aborted ==> Shares(old(a.cells), old(a.next), back, c, x, a.cells, r)
  {
    hide Inv, AllSettled, Bytes, RepOk, Gives, Others, Join, Leaves, Grew, Shares;
    ghost var h, held, rest := a.cells, a.held, a.held - Held(c) - multiset{x};
    ghost var n := a.next;
    aborted := false;
    if c.Inline? && c.bytes == [] {
      r := Tree(x);
      NothingAdded(h, held, back, x);
      NoneBefore(back, Leaves(h, x));
      SharesIf(h, n, back, c, x, [], h, x);
      WithinBound(h, x);
    } else {
      var cur;
      if c.Tree? {
        cur := c.root;
      } else {
        cur := CreateFlat(a, c.bytes, 0);
        GivesFacts(h, held, a.cells, a.held, cur, c.bytes);
        DataLeaf(a.cells, cur);
        GrewSame(h, n, a.cells, x);
      }
      ghost var h1, held1, n1 := a.cells, a.held, a.next;
      AddTreeStart(h, held, c, x, h1, held1, cur);
      var tree := ForceBtree(a, cur);
      ghost var h2, held2 := a.cells, a.held;
      GivesFacts(h1, held1 - multiset{cur}, h2, held2, tree, Bytes(h1, cur));
      AddTreeNext(h, held, c, x, h1, held1, cur, h2, held2, tree);
      GrewSame(h1, n1, h2, x);
      var s;
      s, aborted := AddToTree(a, back, tree, x);
      r := Tree(s);
      if !aborted {
        SharesIf(h, n, back, c, x, Leaves(h1, cur), a.cells, s);
        GivesSince(h, h2, rest, rest, a.cells, a.held, s, Join(back, Value(h, c), Bytes(h, x)));
        GivesTree(h, rest, a.cells, a.held, s, Join(back, Value(h, c), Bytes(h, x)));
      }
    }
  }

  /**
  The data edges of `x` have not been copied: they are those at the end (`back`) or the front of `r`.
  A tree at the other end has not been copied either; inline bytes have got a new flat.
  */
  ghost predicate Shares(h: Heap, n: Id, back: bool, c: Cord, x: Id, h': Heap, r: Cord)
    requires Shape(h) && CordOk(h, c) && x in h
  {
    && r.Tree? && Shape(h') && r.root in h' && Extended(!back, Leaves(h, x), Leaves(h', r.root))
    && (c.Tree? ==> Leaves(h', r.root) == Join(back, Leaves(h, c.root), Leaves(h, x)))
    && (c == Inline([]) ==> r == Tree(x))
    && (c.Inline? ==> OldOrNew(Leaves(h', r.root), Leaves(h, x), n))
  }

  lemma NoneBefore<T>(back: bool, a: seq<T>)
    ensures Join(back, [], a) == a
  {
  }

  lemma SharesTree(h: Heap, n: Id, back: bool, c: Cord, x: Id, h': Heap, r: Cord)
    requires Shape(h) && CordOk(h, c) && x in h && Shares(h, n, back, c, x, h', r)
    ensures r.Tree? && Shape(h') && r.root in h' && (c.Inline? ==> OldOrNew(Leaves(h', r.root), Leaves(h, x), n))
    ensures
      var es, all := Leaves(h, x), Leaves(h', r.root);
      && |es| <= |all| && es == (if back then all[|all| - |es|..] else all[..|es|])
      && (c.Tree? ==> all == if back then Leaves(h, c.root) + es else es + Leaves(h, c.root))
      && (c.Inline? ==> forall e :: e in all ==> e in es || e >= n)
  {
    hide Leaves;
  }

  lemma SharesIf(h: Heap, n: Id, back: bool, c: Cord, x: Id, es: seq<Id>, h': Heap, s: Id)
    requires Shape(h) && CordOk(h, c) && x in h && Shape(h') && s in h'
    requires Leaves(h', s) == Join(back, es, Leaves(h, x)) && (c.Tree? ==> es == Leaves(h, c.root))
    requires (c == Inline([]) ==> s == x) && (c.Inline? ==> OldOrNew(es, [], n))
    ensures Shares(h, n, back, c, x, h', Tree(s))
  {
    hide Leaves, Extended;
    JoinExtends(!back, Leaves(h, x), es);
    JoinOther(back, es, Leaves(h, x));
  }

  lemma JoinOther<T>(back: bool, a: seq<T>, b: seq<T>)
    ensures Join(back, a, b) == Join(!back, b, a)
  {
  }

  lemma NothingAdded(h: Heap, held: multiset<Id>, back: bool, x: Id)
    requires Inv(h, held) && Shape(h) && AllSettled(h, {}) && x in held && RootOk(h, x)
    ensures Yields(h, held - multiset{} - multiset{x}, h, held, Tree(x), Join(back, [], Bytes(h, x)))
  {
    hide Inv, AllSettled, Bytes;
    assert Join(back, [], Bytes(h, x)) == Bytes(h, x);
    assert held - multiset{} - multiset{x} + multiset{x} == held;
    OthersSelf(h, held, held - multiset{} - multiset{x});
  }

  lemma AddTreeStart(h: Heap, held: multiset<Id>, c: Cord, x: Id, h1: Heap, held1: multiset<Id>, cur: Id)
    requires Inv(h, held) && Shape(h) && CordOk(h, c) && Held(c) + multiset{x} <= held
    requires Shape(h1) && (c.Tree? ==> h1 == h && held1 == held && cur == c.root)
    requires !c.Tree? ==> held1 == held + multiset{cur} && cur in h1 && Bytes(h1, cur) == c.bytes && Others(h, h1, held)
    ensures cur in held1 && cur in h1 && Bytes(h1, cur) == Value(h, c) && multiset{cur, x} <= held1
    ensures held1 - multiset{cur} - multiset{x} == held - Held(c) - multiset{x}
    ensures Others(h, h1, held - Held(c))
  {
    hide Inv, Bytes, Others;
    if c.Tree? {
      OthersSelf(h, held, held - Held(c));
      StartHeld(held, cur, x);
    } else {
      OthersFewer(h, h1, held, held - Held(c));
      StartAdded(held, cur, x);
    }
  }

  lemma StartHeld(held: multiset<Id>, cur: Id, x: Id)
    requires multiset{cur} + multiset{x} <= held
    ensures cur in held && multiset{cur, x} <= held
  {
    assert multiset{cur, x} == multiset{cur} + multiset{x};
  }

  lemma StartAdded(held: multiset<Id>, cur: Id, x: Id)
    requires multiset{} + multiset{x} <= held
    ensures cur in held + multiset{cur} && multiset{cur, x} <= held + multiset{cur}
    ensures held + multiset{cur} - multiset{cur} - multiset{x} == held - multiset{} - multiset{x}
    ensures held - multiset{} == held
  {
    assert multiset{cur, x} == multiset{cur} + multiset{x};
  }

  lemma AddTreeNext(h: Heap, held: multiset<Id>, c: Cord, x: Id, h1: Heap, held1: multiset<Id>, cur: Id, h2: Heap,
                    held2: multiset<Id>, tree: Id)
    requires Shape(h) && Shape(h1) && Shape(h2) && Others(h, h1, held - Held(c)) && Held(c) + multiset{x} <= held
    requires multiset{cur, x} <= held1 && held1 - multiset{cur} - multiset{x} == held - Held(c) - multiset{x}
    requires held2 == held1 - multiset{cur} + multiset{tree} && Others(h1, h2, held1 - multiset{cur})
    ensures multiset{tree, x} <= held2 && held2 - multiset{tree, x} == held - Held(c) - multiset{x}
    ensures x in h && x in h2 && Same(h[x], h2[x]) && Bytes(h2, x) == Bytes(h, x)
    ensures Others(h, h2, held - Held(c) - multiset{x})
  {
    hide Bytes, Others, Held;
    NextHeld(held, Held(c), x, held1, cur, held2, tree);
    OthersAt(h, h1, held - Held(c), x);
    OthersAt(h1, h2, held1 - multiset{cur}, x);
    var rest := held - Held(c) - multiset{x};
    OthersFewer(h, h1, held - Held(c), rest);
    OthersFewer(h1, h2, held1 - multiset{cur}, rest);
    OthersTrans(h, h1, h2, rest);
  }

  lemma NextHeld(held: multiset<Id>, mine: multiset<Id>, x: Id, held1: multiset<Id>, cur: Id, held2: multiset<Id>,
                 tree: Id)
    requires mine + multiset{x} <= held && multiset{cur, x} <= held1
    requires held1 - multiset{cur} - multiset{x} == held - mine - multiset{x}
    requires held2 == held1 - multiset{cur} + multiset{tree}
    ensures multiset{tree, x} <= held2 && held2 - multiset{tree, x} == held - mine - multiset{x}
    ensures x in held - mine && x in held1 - multiset{cur}
    ensures held - mine - multiset{x} <= held - mine && held - mine - multiset{x} <= held1 - multiset{cur}
  {
    var rest := held - mine - multiset{x};
    assert multiset{cur, x} == multiset{cur} + multiset{x} && multiset{tree, x} == multiset{tree} + multiset{x};
    assert held1 - multiset{cur} == rest + multiset{x};
    assert held2 == rest + (multiset{tree} + multiset{x});
  }

  // --- Adding data to a cord ------------------------------------------------------------------------

  /** Appends what fits of `src` in place to the private rep `x`. */
  method PrepareAppendRegion(a: Arena, x: Id, src: seq<byte>) returns (n: nat)
    requires a.Ok() && AllSettled(a.cells, {}) && x in a.held && RootOk(a.cells, x) && a.cells[x].rc == 1
    modifies a
    ensures a.Ok() && a.next == old(a.next) && n <= |src|
    ensures n == if |src| < old(Spare(a.cells, x)) then |src| else old(Spare(a.cells, x))
    ensures
      var h, p := old(a.cells), old(BackPath(a.cells, x));
      var e, sole := p[|p| - 1], forall y :: y in p ==> y in h && h[y].rc == 1;
      && e in h && e in a.cells
      && if sole && h[e].rep.Flat? then
           var spare := h[e].rep.capacity - |h[e].rep.data|;
           && n == (if |src| < spare then |src| else spare)
           && a.cells[e] == Cell(1, Flat(h[e].rep.data + src[..n], h[e].rep.capacity))
         else n == 0
    ensures n == 0 ==> a.cells == old(a.cells)
    ensures Gives(old(a.cells), old(a.held) - multiset{x}, a.cells, a.held, x, old(Bytes(a.cells, x)) + src[..n])
    ensures Shape(a.cells) && Leaves(a.cells, x) == old(Leaves(a.cells, x))
  {
    hide Inv, AllSettled, Bytes, RepOk, Outcome, Leaves, SpareBelow;
    HeldIn(a.cells, a.held, x);
    ghost var h, held := a.cells, a.held;
    NoMore(h, x, src);
    if a.cells[x].rep.Btree? {
      n := AppendInPlace(a, x, src);
    } else {
      n := 0;
      NoneAppended(h, held, x, src);
      if a.cells[x].rep.Flat? {
        var rep := a.cells[x].rep;
        FlatSize(h, x);
        n := if Room(rep) < |src| then Room(rep) else |src|;
        if n > 0 {
          HeldBacksNoSubstring(h, held, x);
          FlatOk(h, Flat(rep.data + src[..n], rep.capacity));
          WriteData(a, x, Flat(rep.data + src[..n], rep.capacity));
          FlatGrown(h, held, x, src[..n], a.cells);
        }
      }
      InvShape(a.cells, a.held);
      DataLeaf(h, x);
      DataLeaf(a.cells, x);
    }
  }

  lemma FlatSize(h: Heap, x: Id)
    requires Shape(h) && x in h && h[x].rep.Flat?
    ensures 0 < |h[x].rep.data| <= h[x].rep.capacity
  {
    assert RepOk(h, h[x].rep);
  }

  /** Rewriting a data edge of which the writer holds the only reference. */
  lemma Rewritten(h: Heap, held: multiset<Id>, x: Id, h': Heap)
    requires Inv(h, held) && Shape(h) && AllSettled(h, {}) && x in held && x in h && h[x].rc == 1 && !h[x].rep.Btree?
    requires Inv(h', held) && x in h' && h' == h[x := h'[x]] && !h'[x].rep.Btree?
    ensures Outcome(h, held - multiset{x}, h', held, x, Bytes(h', x))
  {
    hide Inv, Settled, Bytes, RepOk;
    InvShape(h', held);
    HeldIsNoEdge(h, held, x);
    var rest := held - multiset{x};
    assert rest + multiset{x} == held;
    OnlyHandle(h, held, rest, x);
    forall y | y in h' ensures Settled(h', y) {
      if y == x {
        DataSettled(h', x);
      } else {
        SettledKept(h, h', y);
      }
    }
    forall y | y in rest ensures y in h && y in h' && Same(h[y], h'[y]) && Bytes(h, y) == Bytes(h', y) {
      assert y in held && y != x;
      HeldIn(h, held, y);
      BytesFrame(h, h', {x}, y);
    }
  }

  lemma FlatGrown(h: Heap, held: multiset<Id>, x: Id, more: seq<byte>, h': Heap)
    requires Inv(h, held) && Shape(h) && AllSettled(h, {}) && x in held && x in h && h[x].rc == 1 && h[x].rep.Flat?
    requires Inv(h', held) && h' == h[x := Cell(h[x].rc, Flat(h[x].rep.data + more, h[x].rep.capacity))]
    ensures Outcome(h, held - multiset{x}, h', held, x, Bytes(h, x) + more)
  {
    hide Inv, AllSettled, Bytes, RepOk, Outcome;
    InvShape(h', held);
    Rewritten(h, held, x, h');
    FlatBytes(h, x);
    FlatBytes(h', x);
  }

  /** Appends `src`, using spare capacity where that cannot be seen by others. */
  method AppendSlice(a: Arena, c: Cord, src: seq<byte>) returns (r: Cord, aborted: bool)
    requires a.Ok() && AllSettled(a.cells, {}) && Held(c) <= a.held && Shape(a.cells) && CordOk(a.cells, c)
    modifies a
    ensures aborted <==> old(AppendedEdges(a.cells, c, |src|)) > Pow6(MAX_DEPTH)
    ensures !aborted ==> a.Ok() && a.next >= old(a.next)
    ensures !aborted ==> Yields(old(a.cells), old(a.held) - Held(c), a.cells, a.held, r, old(Value(a.cells, c)) + src)
    ensures !aborted ==> HasEdges(a.cells, r, old(AppendedEdges(a.cells, c, |src|)))
    ensures !aborted ==> Keeps(old(a.cells), old(a.next), true, c, |src|, a.cells, r)
    ensures c.Tree? && |src| <= old(Spare(a.cells, c.root)) ==> !aborted && r == c
  {
    hide Inv, AllSettled, Bytes, RepOk, Gives, Others, Join, Yields, Leaves, FlatsFor, Spare, Extended;
    r, aborted := c, false;
    FlatsForNext(0);
    FlatsForNext(if c.Inline? then |c.bytes| + |src| else 0);
    CordWithin(a.cells, c);
    if src == [] {
      KeepsSelf(a.cells, a.next, true, c);
      Untouched(a.cells, a.held, c);
      assert Value(a.cells, c) + src == Value(a.cells, c);
    } else if c.Inline? && |c.bytes| + |src| <= MAX_INLINE {
      r := Inline(c.bytes + src);
      Untouched(a.cells, a.held, r);
    } else if c.Inline? {
      r, aborted := AppendSliceInline(a, c.bytes, src);
    } else {
      r, aborted := AppendSliceTree(a, c.root, src);
    }
  }

  /**
  Bytes have been added at the end (`back`) or the front of `c`: the result is inline exactly if it is
  short enough and `c` was inline, the data edges of a tree are still there, and all others are new.
  */
  ghost predicate Keeps(h: Heap, n0: Id, back: bool, c: Cord, n: nat, h': Heap, r: Cord)
    requires Shape(h) && CordOk(h, c)
  {
    && (r.Inline? <==> c.Inline? && |c.bytes| + n <= MAX_INLINE)
    && (c.Tree? ==> r.Tree? && Shape(h') && r.root in h' && Extended(back, Leaves(h, c.root), Leaves(h', r.root)))
    && (r.Tree? ==> Shape(h') && r.root in h' && OldOrNew(Leaves(h', r.root), Edges(h, c), n0))
  }

  /** The data edges of a cord. */
  ghost function Edges(h: Heap, c: Cord): seq<Id>
    requires Shape(h) && CordOk(h, c)
  {
    if c.Tree? then Leaves(h, c.root) else []
  }

  /** The data edges of a tree come first or last among those of the result, and all others are new. */
  lemma KeepsEdges(h: Heap, n0: Id, back: bool, c: Cord, n: nat, h': Heap, r: Cord)
    requires Shape(h) && CordOk(h, c) && Keeps(h, n0, back, c, n, h', r)
    ensures r.Inline? <==> c.Inline? && |c.bytes| + n <= MAX_INLINE
    ensures r.Tree? ==>
      && Shape(h') && r.root in h'
      && forall e :: e in Leaves(h', r.root) ==> e >= n0 || (c.Tree? && e in Leaves(h, c.root))
    ensures c.Tree? ==>
      var es, all := Leaves(h, c.root), Leaves(h', r.root);
      |es| <= |all| && es == if back then all[..|es|] else all[|all| - |es|..]
  {
    hide Leaves;
  }

  lemma KeepsSelf(h: Heap, n0: Id, back: bool, c: Cord)
    requires Shape(h) && CordOk(h, c)
    ensures Keeps(h, n0, back, c, 0, h, c)
  {
    hide Leaves;
  }

  /** The cord has `n` data edges. */
  ghost predicate HasEdges(h: Heap, c: Cord, n: nat) {
    Shape(h) && CordOk(h, c) && CordEdges(h, c) == n
  }

  /** No cord has more data edges than a full tree of the greatest height. */
  lemma CordWithin(h: Heap, c: Cord)
    requires Shape(h) && CordOk(h, c)
    ensures CordEdges(h, c) <= Pow6(MAX_DEPTH) && 2 <= Pow6(MAX_DEPTH)
  {
    hide Leaves;
    if c.Tree? {
      WithinBound(h, c.root);
    }
    Pow6Monotone(1, MAX_DEPTH);
    assert Pow6(1) == 6 * Pow6(0);
  }

  lemma Untouched(h: Heap, held: multiset<Id>, c: Cord)
    requires Inv(h, held) && Shape(h) && AllSettled(h, {}) && Held(c) <= held && CordOk(h, c)
    ensures Yields(h, held - Held(c), h, held, c, Value(h, c))
  {
    hide Inv, AllSettled, Bytes;
    assert held - Held(c) + Held(c) == held;
    OthersSelf(h, held, held - Held(c));
  }

  /** Outgrows the inline form. */
  method AppendSliceInline(a: Arena, bytes: seq<byte>, src: seq<byte>) returns (r: Cord, aborted: bool)
    requires a.Ok() && AllSettled(a.cells, {}) && Shape(a.cells) && |bytes| <= MAX_INLINE < |bytes| + |src|
    modifies a
    ensures aborted <==> FlatsFor(|bytes| + |src|) > Pow6(MAX_DEPTH)
    ensures !aborted ==> a.Ok() && a.next >= old(a.next)
    ensures !aborted ==> Yields(old(a.cells), old(a.held) - multiset{}, a.cells, a.held, r, bytes + src)
    ensures !aborted ==> HasEdges(a.cells, r, FlatsFor(|bytes| + |src|)) && r.Tree?
    ensures !aborted ==> Shape(a.cells) && r.root in a.cells && OldOrNew(Leaves(a.cells, r.root), [], old(a.next))
  {
    hide Inv, AllSettled, Bytes, RepOk, Gives, Others, Join, Leaves, FlatsFor, FlatCapacity, Yields, HasEdges,
      Extended;
    ghost var h, held := a.cells, a.held;
    assert held - multiset{} == held;
    var capacity := FlatCapacity(|bytes| + |src|);
    var appended := if |src| < capacity - |bytes| then |src| else capacity - |bytes|;
    FirstFlat(|bytes|, |src|, appended);
    var x := NewFlat(a, bytes + src[..appended], capacity);
    FlatGives(h, held, x, bytes + src[..appended], capacity, a.cells, a.held);
    ghost var h1, held1 := a.cells, a.held;
    GivesFacts(h, held, h1, held1, x, bytes + src[..appended]);
    DataLeaf(h1, x);
    AllOf(bytes, src, appended);
    aborted := false;
    if appended == |src| {
      r := Tree(x);
      GivesTree(h, held, h1, held1, x, bytes + src);
      GivesEdges(h, held, h1, held1, x, bytes + src);
    } else {
      assert held1 - multiset{x} == held;
      var s;
      s, aborted := GrowTree(a, x, src[appended..]);
      r := Tree(s);
      if !aborted {
        GivesSince(h, h1, held, held, a.cells, a.held, s, bytes + src);
        GivesTree(h, held, a.cells, a.held, s, bytes + src);
        GivesEdges(h, held, a.cells, a.held, s, bytes + src);
      }
    }
  }

  /** The first flat holds the inline bytes and as much as fits of what follows them. */
  lemma FirstFlat(m: nat, n: nat, appended: nat)
    requires m <= MAX_INLINE < m + n
    requires appended == if n < FlatCapacity(m + n) - m then n else FlatCapacity(m + n) - m
    ensures appended <= n && FlatsFor(m + n) == 1 + FlatsFor(n - appended) && (appended == n ==> FlatsFor(m + n) == 1)
    ensures 1 <= Pow6(MAX_DEPTH)
  {
    hide FlatCapacity, FlatsFor;
    FlatTakes(m + n, 0, m + appended);
    FlatsForNext(0);
    Pow6Positive(MAX_DEPTH);
  }

  lemma GivesEdges(h: Heap, rest: multiset<Id>, h': Heap, held': multiset<Id>, x: Id, bytes: seq<byte>)
    requires Shape(h) && Gives(h, rest, h', held', x, bytes)
    ensures Shape(h') && x in h' && HasEdges(h', Tree(x), |Leaves(h', x)|)
  {
    hide Inv, AllSettled, Bytes, Others, Leaves;
    InvShape(h', held');
  }

  lemma FlatGives(h: Heap, held: multiset<Id>, x: Id, data: seq<byte>, capacity: nat, h': Heap, held': multiset<Id>)
    requires Inv(h, held) && Shape(h) && AllSettled(h, {}) && x !in h && h' == h[x := Cell(1, Flat(data, capacity))]
    requires Inv(h', held') && held' == held + multiset{x}
    ensures Gives(h, held, h', held', x, data)
  {
    hide Inv, AllSettled, Bytes, RepOk;
    InvShape(h', held');
    FlatSettled(h, x, h');
    FlatBytes(h', x);
    GrewGives(h, held, 0, h', held', x, held);
  }

  /** Appends `src` as new data, with spare capacity for about a tenth of the cord's length. */
  method GrowTree(a: Arena, x: Id, src: seq<byte>) returns (r: Id, aborted: bool)
    requires a.Ok() && AllSettled(a.cells, {}) && x in a.held && RootOk(a.cells, x)
    modifies a
    ensures aborted <==> |old(Leaves(a.cells, x))| + FlatsFor(|src|) > Pow6(MAX_DEPTH)
    ensures !aborted ==> a.Ok() && a.next >= old(a.next)
    ensures !aborted ==>
      Gives(old(a.cells), old(a.held) - multiset{x}, a.cells, a.held, r, old(Bytes(a.cells, x)) + src)
    ensures !aborted ==> Shape(a.cells) && |Leaves(a.cells, r)| == |old(Leaves(a.cells, x))| + FlatsFor(|src|)
    ensures !aborted ==> r in a.cells && Extended(true, old(Leaves(a.cells, x)), Leaves(a.cells, r))
    ensures !aborted ==> OldOrNew(Leaves(a.cells, r), old(Leaves(a.cells, x)), old(a.next))
  {
    hide Inv, AllSettled, Bytes, RepOk, Gives, Join, Leaves, FlatsFor, Extended, OldOrNew;
    InvShape(a.cells, a.held);
    var length := a.cells[x].rep.Len();
    var minGrowth := if length / 10 > |src| then length / 10 else |src|;
    JoinBack(Bytes(a.cells, x), src);
    r, aborted := AddDataTo(a, true, x, src, minGrowth - |src|);
  }

  method AppendSliceTree(a: Arena, x: Id, src: seq<byte>) returns (r: Cord, aborted: bool)
    requires a.Ok() && AllSettled(a.cells, {}) && x in a.held && RootOk(a.cells, x) && Shape(a.cells)
    modifies a
    ensures aborted <==> old(AppendedEdges(a.cells, Tree(x), |src|)) > Pow6(MAX_DEPTH)
    ensures !aborted ==> a.Ok() && a.next >= old(a.next)
    ensures !aborted ==>
      Yields(old(a.cells), old(a.held) - multiset{x}, a.cells, a.held, r, old(Bytes(a.cells, x)) + src)
    ensures !aborted ==> HasEdges(a.cells, r, old(AppendedEdges(a.cells, Tree(x), |src|)))
    ensures !aborted ==>
      r.Tree? && Shape(a.cells) && r.root in a.cells && Extended(true, old(Leaves(a.cells, x)), Leaves(a.cells, r.root))
    ensures !aborted ==> OldOrNew(Leaves(a.cells, r.root), old(Leaves(a.cells, x)), old(a.next))
    ensures |src| <= old(Spare(a.cells, x)) ==> !aborted && r == Tree(x)
  {
    hide Inv, AllSettled, Bytes, RepOk, Gives, Others, Yields, Leaves, FlatsFor, Spare, HasEdges, Extended,
      AppendedEdges, OldOrNew, BackPath, Join;
    AppendedIs(a.cells, x, |src|);
    ghost var needed, size := AppendedEdges(a.cells, Tree(x), |src|), |Leaves(a.cells, x)|;
    WithinBound(a.cells, x);
    ghost var h, held, rest := a.cells, a.held, a.held - multiset{x};
    var n := 0;
    if a.cells[x].rc == 1 {
      n := PrepareAppendRegion(a, x, src);
    } else {
      NoneGiven(h, held, x, src);
    }
    ghost var h1, held1 := a.cells, a.held;
    GivesFacts(h, rest, h1, held1, x, Bytes(h, x) + src[..n]);
    assert held1 - multiset{x} == rest;
    AllOf(Bytes(h, x), src, n);
    aborted := false;
    assert needed == size + FlatsFor(|src| - n);
    JoinExtends(true, Leaves(h, x), []);
    NoneBehind(Leaves(h, x));
    OldSelf(Leaves(h, x), a.next);
    r := Tree(x);
    if n == |src| {
      TreeGiven(h, h, rest, h1, held1, x, Bytes(h, x) + src) by { OthersSelf(h, held, rest); }
    } else {
      var s;
      s, aborted := GrowTree(a, x, src[n..]);
      r := Tree(s);
      if !aborted {
        TreeGiven(h, h1, rest, a.cells, a.held, s, Bytes(h, x) + src);
      }
    }
  }

  lemma TreeGiven(h: Heap, h1: Heap, rest: multiset<Id>, h': Heap, held': multiset<Id>, x: Id, bytes: seq<byte>)
    requires Shape(h) && Shape(h1) && Others(h, h1, rest) && Gives(h1, rest, h', held', x, bytes)
    ensures Yields(h, rest, h', held', Tree(x), bytes)
    ensures Shape(h') && x in h' && HasEdges(h', Tree(x), |Leaves(h', x)|)
  {
    hide Inv, AllSettled, Bytes, Others, Gives, Yields, HasEdges, Leaves;
    GivesSince(h, h1, rest, rest, h', held', x, bytes);
    GivesTree(h, rest, h', held', x, bytes);
    GivesEdges(h, rest, h', held', x, bytes);
  }

  lemma AllOf(a: seq<byte>, src: seq<byte>, n: nat)
    requires n <= |src|
    ensures a + src[..n] + src[n..] == a + src && (n == |src| ==> src[..n] == src)
  {
    assert src[..n] + src[n..] == src;
  }

  lemma AppendedIs(h: Heap, x: Id, n: nat)
    requires Shape(h) && RootOk(h, x)
    ensures
      var taken := if n < Spare(h, x) then n else Spare(h, x);
      AppendedEdges(h, Tree(x), n) == |Leaves(h, x)| + FlatsFor(n - taken)
    ensures h[x].rc != 1 ==> Spare(h, x) == 0
    ensures FlatsFor(0) == 0
  {
    hide Leaves;
  }

  lemma OldSelf(es: seq<Id>, n: Id)
    ensures OldOrNew(es, es, n)
  {
  }

  lemma NoneBehind<T>(a: seq<T>)
    ensures Join(true, a, []) == a
  {
  }

  lemma NoneGiven(h: Heap, held: multiset<Id>, x: Id, src: seq<byte>)
    requires Inv(h, held) && Shape(h) && AllSettled(h, {}) && x in held && RootOk(h, x)
    ensures Gives(h, held - multiset{x}, h, held, x, Bytes(h, x) + src[..0])
  {
    NoneAppended(h, held, x, src);
  }

  /** Prepends `src`. */
  method PrependSlice(a: Arena, c: Cord, src: seq<byte>) returns (r: Cord, aborted: bool)
    requires a.Ok() && AllSettled(a.cells, {}) && Held(c) <= a.held && Shape(a.cells) && CordOk(a.cells, c)
    modifies a
    ensures aborted <==> old(PrependedEdges(a.cells, c, |src|)) > Pow6(MAX_DEPTH)
    ensures !aborted ==> a.Ok() && a.next >= old(a.next)
    ensures !aborted ==> Yields(old(a.cells), old(a.held) - Held(c), a.cells, a.held, r, src + old(Value(a.cells, c)))
    ensures !aborted ==> Keeps(old(a.cells), old(a.next), false, c, |src|, a.cells, r)
  {
    hide Inv, AllSettled, Bytes, RepOk, Gives, Others, Yields, Leaves, FlatsFor, Extended, Shares;
    FlatsForNext(0);
    FlatsForNext(if c.Inline? then |c.bytes| + |src| else 0);
    CordWithin(a.cells, c);
    r, aborted := c, false;
    ghost var h, held := a.cells, a.held;
    if src == [] {
      KeepsSelf(a.cells, a.next, false, c);
      Untouched(a.cells, a.held, c);
      assert src + Value(a.cells, c) == Value(a.cells, c);
    } else if c.Inline? && |c.bytes| + |src| <= MAX_INLINE {
      r := Inline(src + c.bytes);
      Untouched(a.cells, a.held, r);
    } else if c.Inline? {
      r, aborted := PrependSliceInline(a, c.bytes, src);
      assert held - Held(c) == held;
    } else {
      var s;
      s, aborted := AddDataTo(a, false, c.root, src, 0);
      r := Tree(s);
      if !aborted {
        GivesTree(h, held - Held(c), a.cells, a.held, s, src + Value(h, c));
      }
    }
  }

  /** Outgrows the inline form at the front. */
  method PrependSliceInline(a: Arena, bytes: seq<byte>, src: seq<byte>) returns (r: Cord, aborted: bool)
    requires a.Ok() && AllSettled(a.cells, {}) && Shape(a.cells) && |bytes| <= MAX_INLINE < |bytes| + |src| && src != []
    modifies a
    ensures aborted <==> old(CordEdges(a.cells, Inline(bytes))) + FlatsFor(|src|) > Pow6(MAX_DEPTH)
    ensures !aborted ==> a.Ok() && a.next >= old(a.next)
    ensures !aborted ==> Yields(old(a.cells), old(a.held), a.cells, a.held, r, src + bytes)
    ensures !aborted ==> r.Tree? && Shape(a.cells) && r.root in a.cells
    ensures !aborted ==> OldOrNew(Leaves(a.cells, r.root), [], old(a.next))
  {
    hide Inv, AllSettled, Bytes, RepOk, Gives, Others, Yields, Leaves, FlatsFor, Extended, Shares, OldOrNew;
    ghost var h, held := a.cells, a.held;
    var c := Inline(bytes);
    var x;
    x, aborted := NewTree(a, src, 0);
    r := c;
    if !aborted {
      ghost var h1, held1, n1 := a.cells, a.held, a.next;
      GivesFacts(h, held, h1, held1, x, src);
      assert held1 - multiset{} - multiset{x} == held;
      ghost var es := Leaves(h1, x);
      r, aborted := AddTree(a, false, c, x);
      if !aborted {
        SharesTree(h1, n1, false, c, x, a.cells, r);
        OldOrNewTwice(Leaves(a.cells, r.root), es, [], old(a.next), n1);
        YieldsSince(h, h1, held, held, a.cells, a.held, r, src + bytes);
      }
    }
  }

  lemma YieldsSince(h: Heap, h1: Heap, few: multiset<Id>, rest: multiset<Id>, h': Heap, held': multiset<Id>, c: Cord,
                    bytes: seq<byte>)
    requires Shape(h) && Shape(h1) && Others(h, h1, rest) && few <= rest && Yields(h1, few, h', held', c, bytes)
    ensures Yields(h, few, h', held', c, bytes)
  {
    hide Inv, AllSettled, Bytes, Others;
    OthersFewer(h, h1, rest, few);
    OthersTrans(h, h1, h', few);
  }

  /** A cord that refers to static data without copying it (`from_static`); short data is stored inline. */
  method StaticCord(a: Arena, data: seq<byte>) returns (r: Cord)
    requires a.Ok() && AllSettled(a.cells, {})
    modifies a
    ensures a.Ok() && a.next >= old(a.next) && Shape(old(a.cells))
    ensures Yields(old(a.cells), old(a.held), a.cells, a.held, r, data)
    ensures if |data| <= MAX_INLINE then r == Inline(data) && a.cells == old(a.cells)
            else r == Tree(old(a.next)) && a.cells == old(a.cells)[old(a.next) := Cell(1, External(data))]
  {
    hide Inv, AllSettled, Bytes, RepOk, Gives, Yields;
    InvShape(a.cells, a.held);
    ghost var h, held, n := a.cells, a.held, a.next;
    if |data| <= MAX_INLINE {
      r := Inline(data);
      Untouched(h, held, r);
      assert held - multiset{} == held;
    } else {
      var c := Cell(1, External(data));
      assert c.rep.Out() == [];
      assert RepOk(a.cells, c.rep) by { ExternalOk(a.cells, data); }
      var x := Alloc(a, c);
      InvShape(a.cells, a.held);
      FlatSettled(h, x, a.cells);
      BytesOfData(a.cells, x);
      assert DataBytes(a.cells, x) == data;
      GrewGives(h, held, n, a.cells, a.held, x, held);
      GivesTree(h, held, a.cells, a.held, x, data);
      r := Tree(x);
    }
  }

  lemma ExternalOk(h: Heap, data: seq<byte>)
    requires data != []
    ensures RepOk(h, External(data))
  {
  }

  // --- Copies and removals ----------------------------------------------------------------------------

  /** A second cord with the same bytes. */
  method CloneCord(a: Arena, c: Cord) returns (r: Cord)
    requires a.Ok() && AllSettled(a.cells, {}) && Held(c) <= a.held && Shape(a.cells) && CordOk(a.cells, c)
    modifies a
    ensures a.Ok() && a.next == old(a.next) && r == c && Extends(old(a.cells), a.cells)
    ensures Yields(old(a.cells), old(a.held), a.cells, a.held, r, old(Value(a.cells, c)))
  {
    hide Inv, AllSettled, Bytes, RepOk, Others, Fresh;
    r := c;
    ghost var h, held, n := a.cells, a.held, a.next;
    if c.Tree? {
      var x := Share(a, {}, c.root);
      FreshYields(h, held, n, a.cells, a.held, x);
      FreshData(h, n, held, a.cells, a.held, x);
    } else {
      Untouched(h, held, c);
      assert held - Held(c) == held;
    }
  }

  /** A fresh handle leaves all others alone. */
  lemma FreshYields(h: Heap, held: multiset<Id>, n: Id, h': Heap, held': multiset<Id>, x: Id)
    requires Inv(h, held) && Shape(h) && (forall y :: y in h ==> y < n) && Fresh(h, n, held, {}, h', held', x)
    requires RootOk(h', x)
    ensures Shape(h') && Yields(h, held, h', held', Tree(x), Bytes(h', x))
  {
    hide Inv, AllSettled, Bytes, RepOk;
    InvShape(h', held');
    OthersKept(h, held, n, h', held', held);
  }

  /** Gives up a cord. */
  method DropCord(a: Arena, c: Cord)
    requires a.Ok() && AllSettled(a.cells, {}) && Held(c) <= a.held && Shape(a.cells) && CordOk(a.cells, c)
    modifies a
    ensures a.Ok() && a.next == old(a.next) && NoNewData(old(a.cells), a.cells)
    ensures Yields(old(a.cells), old(a.held) - Held(c), a.cells, a.held, Inline([]), [])
  {
    hide Inv, AllSettled, Bytes, RepOk, Others, OnlyUnreachableGone;
    ghost var h, held, rest := a.cells, a.held, a.held - Held(c);
    if c.Tree? {
      Unref(a, c.root);
    }
    ShrunkYields(h, held, rest, a.cells, a.held);
  }

  lemma ShrunkYields(h: Heap, held: multiset<Id>, rest: multiset<Id>, h': Heap, held': multiset<Id>)
    requires Inv(h, held) && Shape(h) && AllSettled(h, {}) && Inv(h', held') && held' == rest && rest <= held
    requires h' == h || Shrunk(h, h')
    ensures Yields(h, rest, h', held', Inline([]), [])
  {
    hide Inv, AllSettled, Bytes, RepOk;
    InvShape(h', held');
    ShrunkSettled(h, h', held');
    forall x | x in rest ensures x in h && x in h' && Same(h[x], h'[x]) && Bytes(h, x) == Bytes(h', x) {
      assert x in held && x in held';
      HeldIn(h, held, x);
      BytesFrame(h, h', {}, x);
    }
    assert rest + multiset{} == rest;
  }

  /** The `n` bytes at `pos` of the data edge or tree `x`, which is only borrowed. */
  method SubRep(a: Arena, x: Id, pos: nat, n: nat) returns (r: Id)
    requires a.Ok() && AllSettled(a.cells, {}) && x in a.cells && RootOk(a.cells, x) && Shape(a.cells)
    requires 0 < n && pos + n <= a.cells[x].rep.Len()
    modifies a
    ensures a.Ok() && a.next >= old(a.next) && Fresh(old(a.cells), old(a.next), old(a.held), {}, a.cells, a.held, r)
    ensures r in a.cells && RootOk(a.cells, r) && Bytes(a.cells, r) == Slice(old(Bytes(a.cells, x)), pos, n)
    ensures Folded(a.cells[r].rep) && NoNewData(old(a.cells), a.cells)
  {
    hide Inv, AllSettled, Bytes, RepOk, Fresh, Slice;
    ghost var h, held, k := a.cells, a.held, a.next;
    if a.cells[x].rep.Btree? {
      var s := SubTree(a, x, pos, n);
      r := s.value;
    } else {
      r := Part(a, {}, x, pos, n);
    }
    FreshData(h, k, held, a.cells, a.held, r);
  }

  /** The `n` bytes of a cord at `pos` as a new cord. */
  method Subcord(a: Arena, c: Cord, pos: nat, n: nat) returns (r: Cord)
    requires a.Ok() && AllSettled(a.cells, {}) && Held(c) <= a.held && Shape(a.cells) && CordOk(a.cells, c)
    requires pos + n <= |Value(a.cells, c)|
    modifies a
    ensures a.Ok() && a.next >= old(a.next)
    ensures Yields(old(a.cells), old(a.held), a.cells, a.held, r, old(Value(a.cells, c))[pos..pos + n])
    ensures (r.Inline? <==> c.Inline? || n <= MAX_INLINE) && (r.Inline? ==> a.cells == old(a.cells))
    ensures forall x :: x in a.cells && (a.cells[x].rep.Flat? || a.cells[x].rep.External?) ==> x in old(a.cells)
    ensures r.Tree? ==> r.root in a.cells && (a.cells[r.root].rep.Btree? ==> |a.cells[r.root].rep.Out()| >= 2)
  {
    hide Inv, AllSettled, Bytes, RepOk, Others, Fresh;
    ghost var h, held, k := a.cells, a.held, a.next;
    assert held - multiset{} == held;
    if n == 0 {
      r := Inline([]);
      Untouched(h, held, r);
    } else if c.Inline? {
      r := Inline(c.bytes[pos..pos + n]);
      Untouched(h, held, r);
    } else if n <= MAX_INLINE {
      var bytes := ReadInline(a.cells, c, pos, n);
      r := Inline(bytes);
      Untouched(h, held, r);
    } else {
      LenIsBytes(h, c.root);
      var s := SubRep(a, c.root, pos, n);
      r := Tree(s);
      FreshYields(h, held, k, a.cells, a.held, s);
    }
  }

  // --- Chunks -------------------------------------------------------------------------------------

  /** The bytes of a cord in the pieces in which they are stored. */
  function CordChunks(h: Heap, c: Cord): seq<seq<byte>>
    requires Shape(h) && CordOk(h, c)
  {
    if c.Tree? then ChunkLists.ChunksOf(h, Leaves(h, c.root)) else if c.bytes == [] then [] else [c.bytes]
  }

  /** The chunks of every cord hold something each, and make up its bytes. */
  lemma ChunksAreValue(h: Heap, c: Cord)
    requires Shape(h) && CordOk(h, c)
    ensures ChunkLists.NonEmpty(CordChunks(h, c)) && ChunkLists.Flatten(CordChunks(h, c)) == Value(h, c)
  {
    if c.Tree? {
      ChunkLists.TreeChunks(h, c.root);
    } else {
      ChunkLists.FlattenOne(c.bytes);
    }
  }

  /** The `n` bytes at `pos`, gathered chunk by chunk. */
  method ReadInline(h: Heap, c: Cord, pos: nat, n: nat) returns (r: seq<byte>)
    requires Shape(h) && CordOk(h, c) && pos + n <= |Value(h, c)|
    ensures r == Value(h, c)[pos..pos + n]
  {
    hide ChunkLists.Flatten, ChunkLists.Start, Value, CordChunks;
    ChunksAreValue(h, c);
    var it := new ChunkIters.ForwardChunks(CordChunks(h, c));
    it.AdvanceBytes(pos);
    r := ChunkIters.GatherInline(it, n, false);
    assert Value(h, c)[pos..][..n] == Value(h, c)[pos..pos + n];
  }
}
