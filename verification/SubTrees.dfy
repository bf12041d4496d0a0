/**
Sub trees (`copy_suffix`, `copy_prefix` with folding, and `sub_tree` of rep/btree.rs).
*/
module SubTrees {
  import opened Heap
  import opened Counts
  import opened Arenas
  import opened Substrings
  import opened Legs
  import opened Nodes
  import opened Edits
  import opened Rebuilds
  import opened Trees
  import opened Indexing
  import opened Copies

  /** Bytes that lie within the first or last edge of a node. */
  lemma NearOuter(h: Heap, except: set<Id>, k0: nat, back: bool, x: Id, n: nat)
    requires Shape(h) && SettledTo(h, except, k0) && x in h && h[x].rep.Btree? && h[x].rep.Out() != []
    requires h[x].rep.Level() <= k0
    ensures
      var e := Outer(!back, h[x].rep.Out());
      && IsEdge(h, h[x].rep.height, e) && h[e].rep.Len() == |Bytes(h, e)| <= |Bytes(h, x)|
      && (n <= |Bytes(h, e)| ==> Near(back, Bytes(h, x), n) == Near(back, Bytes(h, e), n))
  {
    hide RepOk, Join, Near, Inner, Outer, Bytes, BytesOf, SettledTo;
    var k, es := h[x].rep.height, h[x].rep.Out();
    NodeBytes(h, x);
    OuterBytes(h, k, !back, es);
    var e, inner := Outer(!back, es), BytesOf(h, k, Inner(!back, es));
    LenIsBytesTo(h, except, k0, e);
    JoinFlip(back, Bytes(h, e), inner);
    JoinLens(back, Bytes(h, e), inner);
    if n <= |Bytes(h, e)| {
      NearWithin(back, Bytes(h, e), inner, n);
    }
  }

  /** A new handle on `x` itself. */
  method Share(a: Arena, ghost except: set<Id>, x: Id) returns (r: Id)
    requires a.Ok() && AllSettled(a.cells, except) && x in a.cells
    modifies a
    ensures a.Ok() && a.next == old(a.next) && r == x
    ensures Fresh(old(a.cells), old(a.next), old(a.held), except, a.cells, a.held, r)
    ensures SameAbove(old(a.cells), old(a.cells)[x].rep.Rank(), a.cells)
    ensures r in a.cells && a.cells[r].rep == old(a.cells)[x].rep && Bytes(a.cells, r) == old(Bytes(a.cells, x))
  {
    hide Inv, RepOk, Settled, Bytes;
    InvShape(a.cells, a.held);
    ghost var h := a.cells;
    Ref(a, x);
    r := x;
    InvShape(a.cells, a.held);
    forall y | y in a.cells && y !in except ensures Settled(a.cells, y) {
      SettledKept(h, a.cells, y);
    }
    BytesFrame(h, a.cells, {}, x);
  }

  /** A new handle on part of the data edge `x`. */
  method Part(a: Arena, ghost except: set<Id>, x: Id, offset: nat, n: nat) returns (r: Id)
    requires a.Ok() && AllSettled(a.cells, except) && x in a.cells && !a.cells[x].rep.Btree?
    requires 0 < n && offset + n <= a.cells[x].rep.Len()
    modifies a
    ensures a.Ok() && old(a.next) <= a.next <= old(a.next) + 1
    ensures Fresh(old(a.cells), old(a.next), old(a.held), except, a.cells, a.held, r)
    ensures SameAbove(old(a.cells), 1, a.cells)
    ensures r in a.cells && !a.cells[r].rep.Btree? && Bytes(a.cells, r) == Slice(old(Bytes(a.cells, x)), offset, n)
  {
    hide Inv, RepOk, Settled, Bytes, DataBytes;
    InvShape(a.cells, a.held);
    ghost var h := a.cells;
    BytesOfData(h, x);
    r := PartOf(a, x, offset, n);
    InvShape(a.cells, a.held);
    BytesOfData(a.cells, r);
    forall y | y in a.cells && y !in except ensures Settled(a.cells, y) {
      if y in h {
        SettledKept(h, a.cells, y);
      } else {
        DataSettled(a.cells, y);
      }
    }
  }

  /**
  A copy of the first (`back`, as in `copy_prefix`) or last (as in `copy_suffix`) `n` bytes of a
  tree. With `allowFolding` the result has no more levels than it needs and may be a data edge.
  */
  method CopyEnd(a: Arena, ghost except: set<Id>, back: bool, tree: Id, n: nat, allowFolding: bool) returns (r: Id)
    requires a.Ok() && tree in a.cells && a.cells[tree].rep.Btree? && (forall x :: x in except ==> x < a.next)
    requires SettledTo(a.cells, except, a.cells[tree].rep.Level())
    requires 0 < n <= a.cells[tree].rep.length
    modifies a
    ensures r in a.cells && a.Ok() && old(a.next) <= a.next <= old(a.next) + a.cells[r].rep.Level() + 1
    ensures Fresh(old(a.cells), old(a.next), old(a.held), except, a.cells, a.held, r)
    ensures SameAbove(old(a.cells), old(a.cells)[tree].rep.Rank(), a.cells)
    ensures a.cells[r].rep.Level() <= old(a.cells)[tree].rep.Level()
    ensures !allowFolding ==> a.cells[r].rep.Level() == old(a.cells)[tree].rep.Level()
    ensures allowFolding ==> Folded(a.cells[r].rep)
    ensures n <= |old(Bytes(a.cells, tree))| && Bytes(a.cells, r) == Near(back, old(Bytes(a.cells, tree)), n)
  {
    hide Inv, RepOk, Near, Inner, Outer, Bytes, AllSettled, Fresh;
    ghost var k0 := a.cells[tree].rep.Level();
    InvShape(a.cells, a.held);
    LenIsBytesTo(a.cells, except, k0, tree);
    SettledNode(a.cells, except, k0, tree);
    var node := tree;
    NearOuter(a.cells, except, k0, back, node, n);
    var edge := Outer(!back, a.cells[node].rep.Out());
    while allowFolding && a.cells[edge].rep.Len() >= n && a.cells[node].rep.height > 0
      invariant a.cells == old(a.cells) && a.held == old(a.held) && a.next == old(a.next)
      invariant node in a.cells && a.cells[node].rep.Btree? && n <= a.cells[node].rep.length
      invariant a.cells[node].rep.Out() != [] && edge == Outer(!back, a.cells[node].rep.Out()) && edge in a.cells
      invariant a.cells[node].rep.Level() <= a.cells[tree].rep.Level()
      invariant !allowFolding ==> node == tree
      invariant n <= |Bytes(a.cells, node)|
      invariant Near(back, Bytes(a.cells, node), n) == Near(back, Bytes(a.cells, tree), n)
      decreases a.cells[node].rep.height
    {
      NearOuter(a.cells, except, k0, back, node, n);
      node := edge;
      SettledNode(a.cells, except, k0, node);
      NearOuter(a.cells, except, k0, back, node, n);
      edge := Outer(!back, a.cells[node].rep.Out());
    }
    NearOuter(a.cells, except, k0, back, node, n);
    if allowFolding && a.cells[edge].rep.Len() >= n {
      PartBytes(back, Bytes(a.cells, edge), n);
      r := Part(a, except, edge, if back then 0 else a.cells[edge].rep.Len() - n, n);
    } else if a.cells[node].rep.length == n {
      LenIsBytesTo(a.cells, except, k0, node);
      NearWhole(back, Bytes(a.cells, node));
      SettledNode(a.cells, except, k0, node);
      if allowFolding {
        WholeWidth(a.cells, back, node);
      }
      r := Share(a, except, node);
    } else {
      r := CopySpan(a, except, back, node, n);
    }
  }

  lemma WholeWidth(h: Heap, back: bool, x: Id)
    requires x in h && IsSettledNode(h, h[x].rep) && h[x].rep.Out() != [] && Outer(!back, h[x].rep.Out()) in h
    requires h[Outer(!back, h[x].rep.Out())].rep.Len() < h[x].rep.length
    ensures Folded(h[x].rep)
  {
    var es := h[x].rep.Out();
    if |es| == 1 {
      assert SumLen(h, es) == h[es[0]].rep.Len() + SumLen(h, es[1..]);
    }
  }

  /** Nothing that holds bytes is new. */
  lemma FreshData(h: Heap, n: Id, held: multiset<Id>, h': Heap, held': multiset<Id>, r: Id)
    requires Fresh(h, n, held, {}, h', held', r)
    ensures NoNewData(h, h') && Extends(h, h')
    ensures forall x :: x in h' && (h'[x].rep.Flat? || h'[x].rep.External?) ==> x in h
  {
  }

  lemma NearWhole(back: bool, bytes: seq<byte>)
    ensures Near(back, bytes, |bytes|) == bytes
  {
  }

  // --- Two ends ----------------------------------------------------------------------------------

  /** Nothing has been given up or written; `p` and `q` are two more handles. */
  ghost predicate FreshPair(h0: Heap, n0: Id, held0: multiset<Id>, h: Heap, held: multiset<Id>, p: Id, q: Id) {
    && Inv(h, held) && AllSettled(h, {}) && held == held0 + multiset{p, q}
    && Extends(h0, h) && Kept(h0, n0, {}, h) && p in h && q in h && NoNewData(h0, h)
  }

  lemma FreshTwice(h0: Heap, n0: Id, held0: multiset<Id>, h1: Heap, n1: Id, held1: multiset<Id>, p: Id, h2: Heap,
                   held2: multiset<Id>, q: Id)
    requires Fresh(h0, n0, held0, {}, h1, held1, p) && Fresh(h1, n1, held1, {}, h2, held2, q) && n0 <= n1
    ensures Shape(h1) && Shape(h2) && FreshPair(h0, n0, held0, h2, held2, p, q) && p in h1
    ensures p in h2 && q in h2 && h2[p].rep == h1[p].rep && Bytes(h2, p) == Bytes(h1, p)
  {
    hide Inv, AllSettled, Bytes;
    InvShape(h1, held1);
    InvShape(h2, held2);
    BytesFrame(h1, h2, {}, p);
    assert held2 == held0 + multiset{p, q};
  }

  /** Puts nodes with a single edge over `e` until it is an edge for height `level`. */
  method Raise(a: Arena, e: Id, level: nat) returns (r: Id)
    requires a.Ok() && AllSettled(a.cells, {}) && e in a.held && e in a.cells && a.cells[e].rep.Level() <= level
    modifies a
    ensures a.Ok() && AllSettled(a.cells, {}) && a.next == old(a.next) + level - old(a.cells)[e].rep.Level()
    ensures a.held == old(a.held) - multiset{e} + multiset{r}
    ensures Grew(old(a.cells), old(a.next), a.cells) && NoNewData(old(a.cells), a.cells)
    ensures r in a.cells && a.cells[r].rep.Level() == level && Bytes(a.cells, r) == old(Bytes(a.cells, e))
  {
    hide Inv, RepOk, AllSettled, Bytes;
    InvShape(a.cells, a.held);
    r := e;
    SwapHeld(a.held, e, e);
    while a.cells[r].rep.Level() < level
      invariant a.Ok() && AllSettled(a.cells, {}) && r in a.cells && a.cells[r].rep.Level() <= level && r in a.held
      invariant a.next == old(a.next) + a.cells[r].rep.Level() - old(a.cells)[e].rep.Level()
      invariant a.held == old(a.held) - multiset{e} + multiset{r}
      invariant Grew(old(a.cells), old(a.next), a.cells) && NoNewData(old(a.cells), a.cells)
      invariant Shape(a.cells) && Bytes(a.cells, r) == old(Bytes(a.cells, e))
      decreases level - a.cells[r].rep.Level()
    {
      ghost var h, was := a.cells, r;
      r := NewWith(a, r);
      InvShape(a.cells, a.held);
      Wrapped(h, was, r, a.cells);
    }
  }

  lemma Wrapped(h: Heap, e: Id, r: Id, h': Heap)
    requires Shape(h) && Shape(h') && AllSettled(h, {}) && e in h && r !in h && r in h' && h' == h[r := h'[r]]
    requires NodeWith(h'[r].rep, h[e].rep.Level(), h[e].rep.Len(), [e])
    ensures AllSettled(h', {}) && Bytes(h', r) == Bytes(h, e)
  {
    hide RepOk, Settled, Bytes;
    forall x | x in h' ensures Settled(h', x) {
      if x == r {
        assert SumLen(h', [e]) == h'[e].rep.Len() + SumLen(h', []);
        JustSettled(h', r);
      } else {
        SettledKept(h, h', x);
      }
    }
    BytesFrame(h, h', {}, e);
    NodeBytes(h', r);
    BytesOfOne(h', h[e].rep.Level(), e);
  }

  /** A node over `p`, new references on `mid`, and `q`. */
  method Compose(a: Arena, p: Id, mid: seq<Id>, q: Id, k: nat, length: nat) returns (r: Id)
    requires a.Ok() && AllSettled(a.cells, {}) && multiset{p, q} <= a.held && |mid| + 2 <= MAX_CAPACITY
    requires IsEdge(a.cells, k, p) && IsEdge(a.cells, k, q) && AllEdges(a.cells, k, mid)
    requires length == a.cells[p].rep.Len() + SumLen(a.cells, mid) + a.cells[q].rep.Len()
    modifies a
    ensures a.Ok() && AllSettled(a.cells, {}) && a.next == old(a.next) + 1
    ensures a.held == old(a.held) - multiset{p, q} + multiset{r}
    ensures Extends(old(a.cells), a.cells) && Kept(old(a.cells), old(a.next), {}, a.cells)
    ensures NoNewData(old(a.cells), a.cells)
    ensures r in a.cells && a.cells[r].rep.Level() == k + 1 && |a.cells[r].rep.Out()| == |mid| + 2
    ensures Bytes(a.cells, r) == old(Bytes(a.cells, p)) + old(BytesOf(a.cells, k, mid)) + old(Bytes(a.cells, q))
  {
    hide Inv, RepOk, AllSettled, Bytes, BytesOf, SumLen;
    InvShape(a.cells, a.held);
    ghost var h := a.cells;
    var rep := Row(p, mid, q, k, length);
    r := AllocRow(a, p, mid, q, k, rep);
    InvShape(a.cells, a.held);
    Composed(h, k, p, mid, q, r, a.cells);
  }

  method AllocRow(a: Arena, p: Id, mid: seq<Id>, q: Id, k: nat, rep: Rep) returns (r: Id)
    requires a.Ok() && multiset{p, q} <= a.held && IsEdge(a.cells, k, p) && IsEdge(a.cells, k, q)
    requires AllEdges(a.cells, k, mid)
    requires IsNode(rep) && rep.height == k && rep.Out() == [p] + mid + [q]
    modifies a
    ensures a.Ok() && r == old(a.next) && a.next == r + 1 && a.held == old(a.held) - multiset{p, q} + multiset{r}
    ensures r !in old(a.cells) && a.cells.Keys == old(a.cells).Keys + {r} && a.cells[r].rep == rep
    ensures Extends(old(a.cells), a.cells) && Kept(old(a.cells), old(a.next), {}, a.cells)
  {
    hide Inv, RepOk;
    ghost var h := a.cells;
    assert forall e :: e in mid ==> IsEdge(h, k, e);
    RefAll(a, mid);
    ComposeBag(old(a.held), p, mid, q);
    ComposeOk(h, a.cells, k, rep, p, mid, q);
    r := Alloc(a, Cell(1, rep));
  }

  /** A node value with the edges `p`, `mid` and `q`. */
  method Row(p: Id, mid: seq<Id>, q: Id, k: nat, length: nat) returns (rep: Rep)
    requires |mid| + 2 <= MAX_CAPACITY
    ensures NodeWith(rep, k, length, [p] + mid + [q])
  {
    var slots: seq<Id> := EMPTY_SLOTS[0 := p];
    var end := 1;
    while end - 1 < |mid|
      invariant 1 <= end <= |mid| + 1 && |slots| == MAX_CAPACITY
      invariant slots[..end] == [p] + mid[..end - 1]
    {
      slots := slots[end := mid[end - 1]];
      end := end + 1;
      assert slots[..end] == slots[..end - 1] + [mid[end - 2]];
      assert mid[..end - 1] == mid[..end - 2] + [mid[end - 2]];
    }
    slots := slots[end := q];
    end := end + 1;
    assert mid[..end - 2] == mid && slots[..end] == slots[..end - 1] + [q];
    rep := Btree(length, k, 0, end, slots);
    assert rep.Out() == slots[..end];
  }

  lemma ComposeBag(held: multiset<Id>, p: Id, mid: seq<Id>, q: Id)
    requires multiset{p, q} <= held
    ensures multiset([p] + mid + [q]) <= held + multiset(mid)
    ensures held + multiset(mid) - multiset([p] + mid + [q]) == held - multiset{p, q}
  {
    assert multiset([p] + mid + [q]) == multiset{p, q} + multiset(mid);
  }

  lemma ComposeOk(h: Heap, h': Heap, k: nat, rep: Rep, p: Id, mid: seq<Id>, q: Id)
    requires IsEdge(h, k, p) && IsEdge(h, k, q) && AllEdges(h, k, mid) && Extends(h, h')
    requires IsNode(rep) && rep.height == k && rep.Out() == [p] + mid + [q]
    ensures RepOk(h', rep)
  {
    forall e | e in rep.Out() ensures IsEdge(h', k, e) {
      assert e in mid || e == p || e == q;
      assert IsEdge(h, k, e);
    }
  }

  lemma Composed(h: Heap, k: nat, p: Id, mid: seq<Id>, q: Id, r: Id, h': Heap)
    requires Shape(h) && Shape(h') && AllSettled(h, {}) && Extends(h, h') && r !in h && h'.Keys == h.Keys + {r}
    requires IsEdge(h, k, p) && IsEdge(h, k, q) && AllEdges(h, k, mid)
    requires NodeWith(h'[r].rep, k, h[p].rep.Len() + SumLen(h, mid) + h[q].rep.Len(), [p] + mid + [q])
    ensures AllSettled(h', {})
    ensures Bytes(h', r) == Bytes(h, p) + BytesOf(h, k, mid) + Bytes(h, q)
  {
    hide RepOk, Settled, Bytes, BytesOf, SumLen;
    ComposedLens(h, k, p, mid, q, h');
    forall x | x in h' ensures Settled(h', x) {
      if x == r {
        JustSettled(h', r);
      } else {
        SettledKept(h, h', x);
      }
    }
    BytesFrame(h, h', {}, p);
    BytesFrame(h, h', {}, q);
    SumLenSame(h, h', k, mid);
    BytesOfFrame(h, h', {}, k, mid);
    NodeBytes(h', r);
    BytesOfOne(h', k, p);
    BytesOfOne(h', k, q);
    BytesOfAppend(h', k, [p], mid);
    BytesOfAppend(h', k, [p] + mid, [q]);
  }

  lemma ComposedLens(h: Heap, k: nat, p: Id, mid: seq<Id>, q: Id, h': Heap)
    requires Extends(h, h') && IsEdge(h, k, p) && IsEdge(h, k, q) && AllEdges(h, k, mid)
    ensures SumLen(h', [p] + mid + [q]) == h[p].rep.Len() + SumLen(h, mid) + h[q].rep.Len()
  {
    SumLenSame(h, h', k, mid);
    SumLenAppend(h', [p], mid);
    SumLenAppend(h', [p] + mid, [q]);
    assert SumLen(h', [p]) == h'[p].rep.Len() + SumLen(h', []);
    assert SumLen(h', [q]) == h'[q].rep.Len() + SumLen(h', []);
  }

  // --- `sub_tree` --------------------------------------------------------------------------------

  lemma SlicesOf(a: seq<byte>, b: seq<byte>, c: seq<byte>, offset: nat, n: nat)
    requires offset + n <= |b|
    ensures Slice(a + b + c, |a| + offset, n) == Slice(b, offset, n)
  {
  }

  /** The bytes of a node, split at one of its slots. */
  lemma SlotBytesTo(h: Heap, except: set<Id>, k0: nat, x: Id, i: nat)
    requires Shape(h) && SettledTo(h, except, k0) && x in h && h[x].rep.Level() <= k0
    requires h[x].rep.Btree? && h[x].rep.begin <= i < h[x].rep.end <= |h[x].rep.slots| == MAX_CAPACITY
    ensures
      var node := h[x].rep;
      && AllEdges(h, node.height, node.slots[node.begin..i]) && AllEdges(h, node.height, node.slots[i + 1..node.end])
      && IsEdge(h, node.height, node.slots[i]) && |Bytes(h, node.slots[i])| == h[node.slots[i]].rep.Len()
      && |BytesOf(h, node.height, node.slots[node.begin..i])| == Span(h, node, node.begin, i)
      && Bytes(h, x) == BytesOf(h, node.height, node.slots[node.begin..i]) + Bytes(h, node.slots[i]) +
                        BytesOf(h, node.height, node.slots[i + 1..node.end])
  {
    hide RepOk, Bytes, BytesOf, SettledTo;
    var node := h[x].rep;
    NodeBytes(h, x);
    var left, rest := node.slots[node.begin..i], node.slots[i..node.end];
    assert node.Out() == left + rest && rest == [node.slots[i]] + node.slots[i + 1..node.end];
    PartsAllEdges(h, node.height, left, rest);
    PartsAllEdges(h, node.height, [node.slots[i]], node.slots[i + 1..node.end]);
    assert node.slots[i] in [node.slots[i]];
    BytesOfAppend(h, node.height, left, rest);
    BytesOfAppend(h, node.height, [node.slots[i]], node.slots[i + 1..node.end]);
    BytesOfOne(h, node.height, node.slots[i]);
    LenIsBytesTo(h, except, k0, node.slots[i]);
    LenIsBytesOfTo(h, except, k0, node.height, left);
  }

  lemma SlotBytes(h: Heap, x: Id, i: nat)
    requires Shape(h) && AllSettled(h, {}) && x in h && h[x].rep.Btree?
    requires h[x].rep.begin <= i < h[x].rep.end <= |h[x].rep.slots| == MAX_CAPACITY
    ensures
      var node := h[x].rep;
      && AllEdges(h, node.height, node.slots[node.begin..i]) && AllEdges(h, node.height, node.slots[i + 1..node.end])
      && IsEdge(h, node.height, node.slots[i]) && |Bytes(h, node.slots[i])| == h[node.slots[i]].rep.Len()
      && |BytesOf(h, node.height, node.slots[node.begin..i])| == Span(h, node, node.begin, i)
      && Bytes(h, x) == BytesOf(h, node.height, node.slots[node.begin..i]) + Bytes(h, node.slots[i]) +
                        BytesOf(h, node.height, node.slots[i + 1..node.end])
  {
    SlotBytesTo(h, {}, h[x].rep.Level(), x, i);
  }

  lemma PartsAllEdges(h: Heap, k: nat, a: seq<Id>, b: seq<Id>)
    requires AllEdges(h, k, a + b)
    ensures AllEdges(h, k, a) && AllEdges(h, k, b)
  {
    forall e | e in a || e in b ensures IsEdge(h, k, e) {
      assert e in a + b;
    }
  }

  /** The wanted bytes lie in `node`, starting `m` bytes into the edge in slot `index`. */
  ghost predicate Located(h: Heap, want: seq<byte>, n: nat, node: Id, index: nat, m: nat)
    requires Shape(h)
  {
    && node in h && IsSettledNode(h, h[node].rep) && h[node].rep.begin <= index < h[node].rep.end
    && h[node].rep.slots[index] in h && m < h[h[node].rep.slots[index]].rep.Len()
    && Span(h, h[node].rep, h[node].rep.begin, index) + m + n <= |Bytes(h, node)|
    && want == Slice(Bytes(h, node), Span(h, h[node].rep, h[node].rep.begin, index) + m, n)
  }

  lemma LocatedBelow(h: Heap, want: seq<byte>, n: nat, node: Id, index: nat, m: nat)
    requires Shape(h) && AllSettled(h, {}) && Located(h, want, n, node, index, m)
    requires m + n <= h[h[node].rep.slots[index]].rep.Len()
    ensures
      var e := h[node].rep.slots[index];
      IsEdge(h, h[node].rep.height, e) && |Bytes(h, e)| == h[e].rep.Len() && want == Slice(Bytes(h, e), m, n)
  {
    hide RepOk, Bytes, BytesOf, AllSettled, Slice;
    SlotBytes(h, node, index);
    var rep := h[node].rep;
    SlicesOf(BytesOf(h, rep.height, rep.slots[rep.begin..index]), Bytes(h, rep.slots[index]),
             BytesOf(h, rep.height, rep.slots[index + 1..rep.end]), m, n);
  }

  lemma LocatedAt(h: Heap, want: seq<byte>, offset: nat, n: nat, node: Id, index: nat, m: nat)
    requires Shape(h) && AllSettled(h, {}) && node in h && h[node].rep.Btree? && offset + n <= |Bytes(h, node)|
    requires want == Slice(Bytes(h, node), offset, n)
    requires IsSettledNode(h, h[node].rep) && h[node].rep.begin <= index < h[node].rep.end
    requires h[node].rep.slots[index] in h && m < h[h[node].rep.slots[index]].rep.Len()
    requires Span(h, h[node].rep, h[node].rep.begin, index) + m == offset
    ensures Located(h, want, n, node, index, m)
  {
  }

  /**
  The `n` bytes of a tree at `offset`, sharing nodes with it. The result is no taller than the
  tree; at most two nodes per level below its root, the root, and two substrings are allocated.
  */
  method SubTree(a: Arena, tree: Id, offset: nat, n: nat) returns (r: Option<Id>)
    requires a.Ok() && AllSettled(a.cells, {}) && tree in a.cells && a.cells[tree].rep.Btree?
    requires offset + n <= a.cells[tree].rep.length
    modifies a
    ensures r.None? <==> n == 0
    ensures r.None? ==> a.cells == old(a.cells) && a.held == old(a.held) && a.next == old(a.next)
    ensures a.Ok() && (r.Some? ==> Fresh(old(a.cells), old(a.next), old(a.held), {}, a.cells, a.held, r.value))
    ensures r.Some? ==> r.value in a.cells && Bytes(a.cells, r.value) == Slice(old(Bytes(a.cells, tree)), offset, n)
    ensures r.Some? ==> a.cells[r.value].rep.Level() <= old(a.cells)[tree].rep.Level()
    ensures r.Some? && a.cells[r.value].rep.Btree? ==> |a.cells[r.value].rep.Out()| >= 2
    ensures forall x :: x in a.cells && (a.cells[x].rep.Flat? || a.cells[x].rep.External?) ==> x in old(a.cells)
    ensures r.Some? ==> old(a.next) <= a.next <= old(a.next) + 1 + 2 * a.cells[r.value].rep.Level()
  {
    hide Inv, RepOk, AllSettled, Bytes, Fresh, Slice, Span, Located, IsSettledNode, NoNewData;
    ghost var held0, n0 := a.held, a.next;
    r := None;
    if n != 0 {
      InvShape(a.cells, a.held);
      LenIsBytes(a.cells, tree);
      SettledNode(a.cells, {}, a.cells[tree].rep.Level(), tree);
      ghost var h, want := a.cells, Slice(Bytes(a.cells, tree), offset, n);
      var node := tree;
      var index: nat, m: nat := IndexOf(a.cells, a.cells[node].rep, offset);
      LocatedAt(h, want, offset, n, node, index, m);
      var left := a.cells[node].rep.slots[index];
      while m + n <= a.cells[left].rep.Len() && a.cells[node].rep.height > 0
        invariant a.cells == h && a.held == old(a.held) && a.next == old(a.next)
        invariant node in h && h[node].rep.Btree? && h[node].rep.Level() <= h[tree].rep.Level()
        invariant index < |h[node].rep.slots| && left == h[node].rep.slots[index] && left in h
        invariant Located(h, want, n, node, index, m)
        decreases h[node].rep.height
      {
        LocatedBelow(h, want, n, node, index, m);
        ghost var was := m;
        node := left;
        SettledNode(a.cells, {}, a.cells[node].rep.Level(), node);
        index, m := IndexOf(a.cells, a.cells[node].rep, m);
        LocatedAt(h, want, was, n, node, index, m);
        left := a.cells[node].rep.slots[index];
      }
      if m + n <= a.cells[left].rep.Len() {
        LocatedBelow(h, want, n, node, index, m);
        var s := Part(a, {}, left, m, n);
        r := Some(s);
      } else {
        var s := SubNode(a, want, node, index, m, n);
        r := Some(s);
      }
      FreshData(h, n0, held0, a.cells, a.held, r.value);
    }
  }

  /** A node split at two of its slots. */
  lemma TwoSlots(h: Heap, x: Id, i: nat, j: nat)
    requires Shape(h) && AllSettled(h, {}) && x in h && IsSettledNode(h, h[x].rep)
    requires h[x].rep.begin <= i < j < h[x].rep.end
    ensures
      var node := h[x].rep;
      var left, mid, right, after := node.slots[i], node.slots[i + 1..j], node.slots[j], node.slots[j + 1..node.end];
      && IsEdge(h, node.height, left) && IsEdge(h, node.height, right) && AllEdges(h, node.height, mid)
      && AllEdges(h, node.height, after)
      && AllEdges(h, node.height, node.slots[node.begin..i])
      && |Bytes(h, left)| == h[left].rep.Len() && |Bytes(h, right)| == h[right].rep.Len()
      && |BytesOf(h, node.height, node.slots[node.begin..i])| == Span(h, node, node.begin, i)
      && Bytes(h, x) == BytesOf(h, node.height, node.slots[node.begin..i]) + Bytes(h, left) +
                        (BytesOf(h, node.height, mid) + (Bytes(h, right) + BytesOf(h, node.height, after)))
  {
    hide RepOk, Bytes, BytesOf, AllSettled, Span;
    var node := h[x].rep;
    var mid, right, after := node.slots[i + 1..j], node.slots[j], node.slots[j + 1..node.end];
    SlotBytes(h, x, i);
    SlotBytes(h, x, j);
    var k, rest := node.height, node.slots[i + 1..node.end];
    assert rest == mid + ([right] + after);
    PartsAllEdges(h, k, mid, [right] + after);
    BytesOfAppend(h, k, mid, [right] + after);
    PartsAllEdges(h, k, [right], after);
    BytesOfAppend(h, k, [right], after);
    BytesOfOne(h, k, right);
  }

  /** What lies between two positions in different edges of a node. */
  lemma MiddleBytes(h: Heap, x: Id, i: nat, j: nat, m: nat, m': nat, n: nat)
    requires Shape(h) && AllSettled(h, {}) && x in h && IsSettledNode(h, h[x].rep)
    requires h[x].rep.begin <= i < j < h[x].rep.end
    requires h[x].rep.slots[i] in h && m < h[h[x].rep.slots[i]].rep.Len()
    requires h[x].rep.slots[j] in h && m' <= h[h[x].rep.slots[j]].rep.Len()
    requires Span(h, h[x].rep, i, j) + m' == m + n
    ensures
      var node := h[x].rep;
      var left, mid, right := node.slots[i], node.slots[i + 1..j], node.slots[j];
      && IsEdge(h, node.height, left) && IsEdge(h, node.height, right) && AllEdges(h, node.height, mid)
      && |Bytes(h, left)| == h[left].rep.Len() && |Bytes(h, right)| == h[right].rep.Len()
      && n == |Bytes(h, left)| - m + SumLen(h, mid) + m'
      && Slice(Bytes(h, x), Span(h, node, node.begin, i) + m, n) ==
           Near(false, Bytes(h, left), |Bytes(h, left)| - m) + BytesOf(h, node.height, mid)
             + Near(true, Bytes(h, right), m')
  {
    hide RepOk, Bytes, BytesOf, AllSettled, Slice, Near, AllEdges;
    var node := h[x].rep;
    var k, mid := node.height, node.slots[i + 1..j];
    TwoSlots(h, x, i, j);
    LenIsBytesOf(h, k, mid);
    SpanSplit(h, node, i, i + 1, j);
    SpanOne(h, node, i);
    Middle(BytesOf(h, k, node.slots[node.begin..i]), Bytes(h, node.slots[i]), BytesOf(h, k, mid),
           Bytes(h, node.slots[j]), BytesOf(h, k, node.slots[j + 1..node.end]), m, m', n);
  }

  lemma Middle(a: seq<byte>, left: seq<byte>, mid: seq<byte>, right: seq<byte>, z: seq<byte>, m: nat, m': nat, n: nat)
    requires m <= |left| && m' <= |right| && n == |left| - m + |mid| + m'
    ensures Slice(a + left + (mid + (right + z)), |a| + m, n)
        == Near(false, left, |left| - m) + mid + Near(true, right, m')
  {
    var all := a + left + (mid + (right + z));
    assert all == a + left[..m] + (left[m..] + mid + right[..m']) + (right[m'..] + z);
  }

  /** The two partial edges at the ends of a span. */
  method Ends(a: Arena, k: nat, left: Id, m: nat, right: Id, m': nat) returns (p: Id, q: Id)
    requires a.Ok() && AllSettled(a.cells, {}) && Shape(a.cells) && IsEdge(a.cells, k, left)
    requires IsEdge(a.cells, k, right)
    requires m < a.cells[left].rep.Len() && 0 < m' <= a.cells[right].rep.Len()
    modifies a
    ensures a.Ok() && FreshPair(old(a.cells), old(a.next), old(a.held), a.cells, a.held, p, q)
    ensures p in a.cells && q in a.cells && a.cells[p].rep.Level() <= k && a.cells[q].rep.Level() <= k
    ensures old(a.next) <= a.next <= old(a.next) + a.cells[p].rep.Level() + a.cells[q].rep.Level() + 2
    ensures m <= |old(Bytes(a.cells, left))| && m' <= |old(Bytes(a.cells, right))| && Shape(a.cells)
    ensures Bytes(a.cells, p) == Near(false, old(Bytes(a.cells, left)), |old(Bytes(a.cells, left))| - m)
    ensures Bytes(a.cells, q) == Near(true, old(Bytes(a.cells, right)), m')
  {
    hide Inv, RepOk, AllSettled, Bytes, Fresh, FreshPair, Near, Slice;
    ghost var h0, n0, held0 := a.cells, a.next, a.held;
    LenIsBytes(a.cells, left);
    LenIsBytes(a.cells, right);
    var leftLen := a.cells[left].rep.Len();
    PartBytes(false, Bytes(h0, left), leftLen - m);
    PartBytes(true, Bytes(h0, right), m');
    if k > 0 {
      p := CopyEnd(a, {}, false, left, leftLen - m, true);
    } else {
      p := Part(a, {}, left, m, leftLen - m);
    }
    ghost var h1, n1, held1 := a.cells, a.next, a.held;
    FreshEdge(h0, n0, held0, h1, held1, p, right);
    if k > 0 {
      q := CopyEnd(a, {}, true, right, m', true);
    } else {
      q := Part(a, {}, right, 0, m');
    }
    FreshTwice(h0, n0, held0, h1, n1, held1, p, a.cells, a.held, q);
  }

  lemma FreshEdge(h0: Heap, n0: Id, held0: multiset<Id>, h: Heap, held: multiset<Id>, r: Id, x: Id)
    requires Fresh(h0, n0, held0, {}, h, held, r) && Shape(h0) && x in h0
    ensures Shape(h) && AllSettled(h, {}) && x in h && h[x].rep == h0[x].rep && Bytes(h, x) == Bytes(h0, x)
  {
    hide Inv, RepOk, AllSettled, Bytes;
    InvShape(h, held);
    BytesFrame(h0, h, {}, x);
  }

  lemma RaisedPair(h0: Heap, n0: Id, held0: multiset<Id>, h: Heap, n1: Id, held: multiset<Id>, p: Id, q: Id, h': Heap,
                   held': multiset<Id>, r: Id)
    requires FreshPair(h0, n0, held0, h, held, p, q) && Grew(h, n1, h') && n0 <= n1 && Inv(h', held')
    requires AllSettled(h', {}) && NoNewData(h, h')
    requires held' == held - multiset{p} + multiset{r} && r in h'
    ensures FreshPair(h0, n0, held0, h', held', r, q) && FreshPair(h0, n0, held0, h', held', q, r)
    ensures Shape(h) && Shape(h') && q in h && q in h' && h'[q] == h[q] && Bytes(h', q) == Bytes(h, q)
  {
    hide Inv, RepOk, AllSettled, Bytes;
    InvShape(h, held);
    InvShape(h', held');
    GrewSame(h, n1, h', q);
    PairHeld(held0, p, q, r, held, held');
  }

  lemma PairHeld(held0: multiset<Id>, p: Id, q: Id, r: Id, held: multiset<Id>, held': multiset<Id>)
    requires held == held0 + multiset{p, q} && held' == held - multiset{p} + multiset{r}
    ensures held' == held0 + multiset{r, q} && multiset{r, q} == multiset{q, r}
  {
    assert multiset{p, q} == multiset{p} + multiset{q} && multiset{r, q} == multiset{r} + multiset{q};
  }

  lemma FreshPairFacts(h0: Heap, n0: Id, held0: multiset<Id>, h: Heap, held: multiset<Id>, p: Id, q: Id)
    requires FreshPair(h0, n0, held0, h, held, p, q)
    ensures Shape(h) && AllSettled(h, {}) && p in held && q in held && multiset{p, q} <= held && Extends(h0, h)
    ensures FreshPair(h0, n0, held0, h, held, q, p)
  {
    hide Inv, AllSettled;
    InvShape(h, held);
    assert multiset{p, q} == multiset{q, p};
  }

  /** The wanted bytes span several edges of `node`. */
  method SubNode(a: Arena, ghost want: seq<byte>, node: Id, index: nat, m: nat, n: nat) returns (r: Id)
    requires a.Ok() && AllSettled(a.cells, {}) && Shape(a.cells) && Located(a.cells, want, n, node, index, m)
    requires m + n > a.cells[a.cells[node].rep.slots[index]].rep.Len()
    modifies a
    ensures a.Ok() && r in a.cells && Fresh(old(a.cells), old(a.next), old(a.held), {}, a.cells, a.held, r)
    ensures Bytes(a.cells, r) == want && a.cells[r].rep.Level() <= old(a.cells)[node].rep.Level()
    ensures Folded(a.cells[r].rep)
    ensures old(a.next) <= a.next <= old(a.next) + 1 + 2 * a.cells[r].rep.Level()
  {
    hide Inv, RepOk, AllSettled, Bytes, BytesOf, Fresh, FreshPair, Near, Slice, Span, SumLen;
    ghost var h0, n0, held0 := a.cells, a.next, a.held;
    var rep := a.cells[node].rep;
    LocatedSpan(h0, want, n, node, index, m);
    var j, m' := IndexBeforeFrom(a.cells, rep, index, m, n);
    var left, mid, right := rep.slots[index], rep.slots[index + 1..j], rep.slots[j];
    MiddleBytes(h0, node, index, j, m, m', n);
    ghost var first, last := Near(false, Bytes(h0, left), |Bytes(h0, left)| - m), Near(true, Bytes(h0, right), m');
    ghost var middle := BytesOf(h0, rep.height, mid);
    assert want == first + middle + last;
    var p, q := Ends(a, rep.height, left, m, right, m');
    var k := rep.height;
    if rep.height > 0 && index + 1 == j {
      k := if a.cells[p].rep.Level() >= a.cells[q].rep.Level() then a.cells[p].rep.Level() else a.cells[q].rep.Level();
    }
    FreshPairFacts(h0, n0, held0, a.cells, a.held, p, q);
    p, q := RaiseBoth(a, h0, n0, held0, p, q, k);
    FreshPairFacts(h0, n0, held0, a.cells, a.held, p, q);
    ghost var h1, held1, n1 := a.cells, a.held, a.next;
    MidKept(h0, h1, rep.height, k, mid);
    LenIsBytes(h1, p);
    LenIsBytes(h1, q);
    NearLen(false, Bytes(h0, left), |Bytes(h0, left)| - m);
    NearLen(true, Bytes(h0, right), m');
    assert Bytes(h1, p) == first && BytesOf(h1, k, mid) == middle && Bytes(h1, q) == last;
    r := Compose(a, p, mid, q, k, n);
    ComposedFresh(h0, n0, held0, h1, held1, p, q, a.cells, a.held, r, n1);
  }

  lemma LocatedSpan(h: Heap, want: seq<byte>, n: nat, node: Id, index: nat, m: nat)
    requires Shape(h) && AllSettled(h, {}) && Located(h, want, n, node, index, m)
    ensures m + n <= Span(h, h[node].rep, index, h[node].rep.end)
    ensures Span(h, h[node].rep, index, index) == 0
    ensures Span(h, h[node].rep, index, index + 1) == h[h[node].rep.slots[index]].rep.Len()
  {
    hide RepOk, AllSettled, Bytes, Slice;
    LenIsBytes(h, node);
    SpanWhole(h, h[node].rep, index);
    SpanNone(h, h[node].rep, index);
    SpanOne(h, h[node].rep, index);
  }

  /** Edges between the ends keep the tree at its height; without any the height is free. */
  lemma MidKept(h: Heap, h': Heap, k: nat, k': nat, mid: seq<Id>)
    requires Shape(h) && Shape(h') && Extends(h, h') && AllEdges(h, k, mid) && (mid != [] ==> k' == k)
    ensures AllEdges(h', k', mid) && BytesOf(h', k', mid) == BytesOf(h, k, mid) && SumLen(h', mid) == SumLen(h, mid)
  {
    SumLenSame(h, h', k, mid);
    if mid != [] {
      BytesOfFrame(h, h', {}, k, mid);
    }
  }

  /** Raises both ends to the same level. */
  method RaiseBoth(a: Arena, ghost h0: Heap, ghost n0: Id, ghost held0: multiset<Id>, p0: Id, q0: Id, k: nat)
    returns (p: Id, q: Id)
    requires a.Ok() && FreshPair(h0, n0, held0, a.cells, a.held, p0, q0) && n0 <= a.next && Shape(a.cells)
    requires p0 in a.cells && q0 in a.cells && a.cells[p0].rep.Level() <= k && a.cells[q0].rep.Level() <= k
    modifies a
    ensures a.Ok() && FreshPair(h0, n0, held0, a.cells, a.held, p, q)
    ensures a.next == old(a.next) + 2 * k - old(a.cells)[p0].rep.Level() - old(a.cells)[q0].rep.Level()
    ensures IsEdge(a.cells, k, p) && IsEdge(a.cells, k, q) && Shape(a.cells)
    ensures Bytes(a.cells, p) == old(Bytes(a.cells, p0)) && Bytes(a.cells, q) == old(Bytes(a.cells, q0))
  {
    hide Inv, RepOk, AllSettled, Bytes, FreshPair, Grew;
    FreshPairFacts(h0, n0, held0, a.cells, a.held, p0, q0);
    ghost var h, n1, held := a.cells, a.next, a.held;
    p := Raise(a, p0, k);
    RaisedPair(h0, n0, held0, h, n1, held, p0, q0, a.cells, a.held, p);
    FreshPairFacts(h0, n0, held0, a.cells, a.held, p, q0);
    h, n1, held := a.cells, a.next, a.held;
    q := Raise(a, q0, k);
    RaisedPair(h0, n0, held0, h, n1, held, q0, p, a.cells, a.held, q);
  }

  lemma ComposedFresh(h0: Heap, n0: Id, held0: multiset<Id>, h: Heap, held: multiset<Id>, p: Id, q: Id, h': Heap,
                      held': multiset<Id>, r: Id, n1: Id)
    requires FreshPair(h0, n0, held0, h, held, p, q) && Extends(h, h') && Kept(h, n1, {}, h') && n0 <= n1
    requires Inv(h', held') && AllSettled(h', {}) && held' == held - multiset{p, q} + multiset{r} && r in h'
    requires NoNewData(h, h')
    ensures Fresh(h0, n0, held0, {}, h', held', r)
  {
    hide Inv, AllSettled;
    assert held0 + multiset{p, q} - multiset{p, q} == held0;
  }
}
