/**
Paths from the root of a tree to one of its data edges, as a navigator keeps them: for every height
a node and the slot of the edge that the path takes.
*/
module Paths {
  import opened Heap
  import opened Arenas
  import opened Legs
  import opened Nodes
  import opened Edits
  import opened Indexing

  /** Only the entries up to `top` mean anything. */
  datatype Route = Route(top: nat, node: seq<Id>, index: seq<nat>) {
    predicate Sized() {
      |node| == |index| == MAX_DEPTH && top < MAX_DEPTH
    }

    /** The path with another entry at height `k`. */
    function At(k: nat, x: Id, i: nat): (p: Route)
      requires Sized() && k <= top
      ensures p.Sized()
    {
      Route(top, node[k := x], index[k := i])
    }
  }

  /** From height `k` up, the entries are nodes of the tree, each the chosen edge of the next. */
  ghost predicate On(h: Heap, p: Route, k: nat) {
    && p.Sized() && k <= p.top
    && (forall i :: k <= i <= p.top ==> p.node[i] in h && IsNode(h[p.node[i]].rep) && h[p.node[i]].rep.height == i)
    && (forall i :: k <= i <= p.top ==> h[p.node[i]].rep.begin <= p.index[i] < h[p.node[i]].rep.end)
    && (forall i, j :: k <= i && j == i + 1 && j <= p.top ==> Edge(h, p, j) == p.node[i])
  }

  /** The edge that the path takes at height `k`. */
  function Edge(h: Heap, p: Route, k: nat): Id {
    if p.Sized() && k <= p.top && p.node[k] in h && IsNode(h[p.node[k]].rep) && p.index[k] < h[p.node[k]].rep.end then
      h[p.node[k]].rep.slots[p.index[k]]
    else 0
  }

  /** The edges of a node after (`ahead`) or before slot `i`. */
  function Row(rep: Rep, ahead: bool, i: nat): (es: seq<Id>)
    requires IsNode(rep) && rep.begin <= i < rep.end
    ensures forall e :: e in es ==> e in rep.Out()
  {
    var es := if ahead then rep.slots[i + 1..rep.end] else rep.slots[rep.begin..i];
    assert forall j :: 0 <= j < |es| ==> es[j] == rep.Out()[if ahead then i + 1 - rep.begin + j else j];
    es
  }

  lemma RowOk(h: Heap, x: Id, ahead: bool, i: nat)
    requires Shape(h) && x in h && IsNode(h[x].rep) && h[x].rep.begin <= i < h[x].rep.end
    ensures AllEdges(h, h[x].rep.height, Row(h[x].rep, ahead, i))
  {
    NodeOk(h, x);
  }

  ghost function RowLeaves(h: Heap, x: Id, ahead: bool, i: nat): seq<Id>
    requires Shape(h) && x in h && IsNode(h[x].rep) && h[x].rep.begin <= i < h[x].rep.end
  {
    RowOk(h, x, ahead, i);
    LeavesOf(h, h[x].rep.height, Row(h[x].rep, ahead, i))
  }

  /** The data edges of the tree ahead of, or behind, the edge that the path takes at height `k`. */
  ghost function Side(h: Heap, p: Route, ahead: bool, k: nat): seq<Id>
    requires Shape(h) && On(h, p, k)
    decreases p.top - k
  {
    var row := RowLeaves(h, p.node[k], ahead, p.index[k]);
    if k == p.top then row else Join(ahead, row, Side(h, p, ahead, k + 1))
  }

  /** A node, split at one of its slots. */
  lemma NodeSplit(h: Heap, x: Id, i: nat)
    requires Shape(h) && x in h && IsNode(h[x].rep) && h[x].rep.begin <= i < h[x].rep.end
    ensures var e := h[x].rep.slots[i];
      && IsEdge(h, h[x].rep.height, e)
      && Leaves(h, x) == RowLeaves(h, x, false, i) + Leaves(h, e) + RowLeaves(h, x, true, i)
  {
    hide RepOk, Leaves, LeavesOf;
    RowOk(h, x, true, i);
    RowOk(h, x, false, i);
    NodeOk(h, x);
    var rep := h[x].rep;
    var k, e, before, after := rep.height, rep.slots[i], Row(rep, false, i), Row(rep, true, i);
    assert e == rep.Out()[i - rep.begin];
    assert IsEdge(h, k, e);
    assert rep.Out() == before + [e] + after;
    LeavesOfOne(h, k, e);
    LeavesOfAppend(h, k, before, [e]);
    LeavesOfAppend(h, k, before + [e], after);
    LeavesOfNode(h, x);
  }

  /** At every height, what lies behind, the edge, and what lies ahead make up the tree. */
  lemma {:induction false} WholeTree(h: Heap, p: Route, k: nat)
    requires Shape(h) && On(h, p, k)
    ensures Edge(h, p, k) in h && h[Edge(h, p, k)].rep.Level() == k
    ensures Leaves(h, p.node[p.top]) == Side(h, p, false, k) + Leaves(h, Edge(h, p, k)) + Side(h, p, true, k)
    decreases p.top - k
  {
    hide RepOk, Leaves, RowLeaves;
    NodeSplit(h, p.node[k], p.index[k]);
    if k < p.top {
      WholeTree(h, p, k + 1);
      Nested(Side(h, p, false, k + 1), RowLeaves(h, p.node[k], false, p.index[k]), Leaves(h, Edge(h, p, k)),
             RowLeaves(h, p.node[k], true, p.index[k]), Side(h, p, true, k + 1));
    }
  }

  lemma Nested(a: seq<Id>, b: seq<Id>, c: seq<Id>, d: seq<Id>, e: seq<Id>)
    ensures a + (b + c + d) + e == (a + b) + c + (d + e)
  {
  }

  lemma {:induction false} OnUp(h: Heap, p: Route, k: nat)
    requires On(h, p, k) && k < p.top
    ensures On(h, p, k + 1) && Edge(h, p, k + 1) == p.node[k]
  {
  }

  /** What lies beside the edge at height `k` does not depend on the entries below. */
  lemma {:induction false} SideAbove(h: Heap, p: Route, q: Route, ahead: bool, k: nat)
    requires Shape(h) && On(h, p, k) && q.Sized() && q.top == p.top
    requires forall i :: k <= i <= p.top ==> q.node[i] == p.node[i] && q.index[i] == p.index[i]
    ensures On(h, q, k) && Edge(h, q, k) == Edge(h, p, k) && Side(h, q, ahead, k) == Side(h, p, ahead, k)
    decreases p.top - k
  {
    hide RepOk, RowLeaves;
    forall i, j | k <= i && j == i + 1 && j <= p.top ensures Edge(h, q, j) == q.node[i] {
      assert Edge(h, q, j) == Edge(h, p, j);
    }
    if k < p.top {
      SideAbove(h, p, q, ahead, k + 1);
    }
  }

  /** The rows of two paths that meet above height `k` differ only at `k`. */
  lemma SideAt(h: Heap, p: Route, x: Id, i: nat, k: nat, ahead: bool)
    requires Shape(h) && On(h, p, k) && x == p.node[k] && h[x].rep.begin <= i < h[x].rep.end
    ensures var q := p.At(k, x, i);
      && On(h, q, k) && Edge(h, q, k) == h[x].rep.slots[i]
      && Side(h, q, ahead, k) == Join(ahead, RowLeaves(h, x, ahead, i), Above(h, p, k, ahead))
  {
    hide RepOk, RowLeaves;
    var q := p.At(k, x, i);
    OnAbove(h, p, q, k);
    if k < p.top {
      OnUp(h, p, k);
      SideAbove(h, p, q, ahead, k + 1);
    }
  }

  /** The data edges beside the node at height `k`. */
  ghost function Above(h: Heap, p: Route, k: nat, ahead: bool): seq<Id>
    requires Shape(h) && On(h, p, k)
  {
    if k == p.top then [] else Side(h, p, ahead, k + 1)
  }

  lemma SideIs(h: Heap, p: Route, k: nat, ahead: bool)
    requires Shape(h) && On(h, p, k)
    ensures Edge(h, p, k) == h[p.node[k]].rep.slots[p.index[k]]
    ensures Side(h, p, ahead, k) == Join(ahead, RowLeaves(h, p.node[k], ahead, p.index[k]), Above(h, p, k, ahead))
  {
    hide RepOk, RowLeaves;
  }

  lemma OnAbove(h: Heap, p: Route, q: Route, k: nat)
    requires On(h, p, k) && q.Sized() && q.top == p.top && q.node[k] == p.node[k]
    requires h[p.node[k]].rep.begin <= q.index[k] < h[p.node[k]].rep.end
    requires forall i :: k < i <= p.top ==> q.node[i] == p.node[i] && q.index[i] == p.index[i]
    ensures On(h, q, k)
  {
    forall i, j | k <= i && j == i + 1 && j <= p.top ensures Edge(h, q, j) == q.node[i] {
      assert Edge(h, q, j) == Edge(h, p, j);
    }
  }

  /** One edge on within the node at height `k`. */
  lemma AcrossSides(h: Heap, p: Route, k: nat, ahead: bool, i: nat)
    requires Shape(h) && On(h, p, k) && h[p.node[k]].rep.begin <= i < h[p.node[k]].rep.end
    requires if ahead then i == p.index[k] + 1 else i + 1 == p.index[k]
    ensures var q := p.At(k, p.node[k], i);
      && On(h, q, k) && Edge(h, p, k) in h && Edge(h, q, k) in h
      && Side(h, q, !ahead, k) == Join(ahead, Side(h, p, !ahead, k), Leaves(h, Edge(h, p, k)))
      && Side(h, p, ahead, k) == Join(!ahead, Side(h, q, ahead, k), Leaves(h, Edge(h, q, k)))
  {
    hide RepOk, RowLeaves, Leaves, Side, On, Above, Edge;
    var x := NodeAt(h, p, k);
    SideAt(h, p, x, i, k, true);
    SideAt(h, p, x, i, k, false);
    SideIs(h, p, k, true);
    SideIs(h, p, k, false);
    RowAcross(h, x, ahead, p.index[k], i);
  }

  lemma NodeAt(h: Heap, p: Route, k: nat) returns (x: Id)
    requires On(h, p, k)
    ensures p.Sized() && k <= p.top && x == p.node[k] && x in h && IsNode(h[x].rep) && h[x].rep.height == k
    ensures h[x].rep.begin <= p.index[k] < h[x].rep.end
  {
    x := p.node[k];
  }

  lemma RowAcross(h: Heap, x: Id, ahead: bool, i: nat, j: nat)
    requires Shape(h) && x in h && IsNode(h[x].rep) && h[x].rep.begin <= i < h[x].rep.end
    requires h[x].rep.begin <= j < h[x].rep.end && (if ahead then j == i + 1 else j + 1 == i)
    ensures var rep := h[x].rep;
      && rep.slots[i] in h && rep.slots[j] in h
      && RowLeaves(h, x, !ahead, j) == Join(ahead, RowLeaves(h, x, !ahead, i), Leaves(h, rep.slots[i]))
      && RowLeaves(h, x, ahead, i) == Join(!ahead, RowLeaves(h, x, ahead, j), Leaves(h, rep.slots[j]))
  {
    hide RepOk, Leaves, RowLeaves, Join;
    RowMore(h, x, ahead, i, j);
    RowMore(h, x, !ahead, j, i);
  }

  lemma RowMore(h: Heap, x: Id, ahead: bool, i: nat, j: nat)
    requires Shape(h) && x in h && IsNode(h[x].rep) && h[x].rep.begin <= i < h[x].rep.end
    requires h[x].rep.begin <= j < h[x].rep.end && (if ahead then j == i + 1 else j + 1 == i)
    ensures h[x].rep.slots[j] in h
    ensures RowLeaves(h, x, ahead, i) == Join(!ahead, RowLeaves(h, x, ahead, j), Leaves(h, h[x].rep.slots[j]))
  {
    hide RepOk, Leaves, LeavesOf;
    NodeOk(h, x);
    var rep := h[x].rep;
    var k, f := rep.height, rep.slots[j];
    assert f == rep.Out()[j - rep.begin];
    assert IsEdge(h, k, f);
    LeavesOfOne(h, k, f);
    assert Row(rep, ahead, i) == Join(!ahead, Row(rep, ahead, j), [f]);
    LeavesOfJoin(h, k, !ahead, Row(rep, ahead, j), [f]);
  }

  /** Into the edge at height `k`, taking its slot `i`. */
  lemma DownSides(h: Heap, p: Route, k: nat, i: nat)
    requires Shape(h) && k > 0 && On(h, p, k)
    requires var e := Edge(h, p, k); e in h && IsNode(h[e].rep) && h[e].rep.begin <= i < h[e].rep.end
    ensures var e := Edge(h, p, k); var q := p.At(k - 1, e, i);
      && On(h, q, k - 1) && h[e].rep.height == k - 1 && Edge(h, q, k - 1) == h[e].rep.slots[i]
      && (forall ahead :: Side(h, q, ahead, k - 1) == Join(ahead, RowLeaves(h, e, ahead, i), Side(h, p, ahead, k)))
  {
    hide RepOk, RowLeaves, Leaves;
    var e := Edge(h, p, k);
    var q := p.At(k - 1, e, i);
    WholeTree(h, p, k);
    SideAbove(h, p, q, true, k);
    SideAbove(h, p, q, false, k);
    forall m, j | k - 1 <= m && j == m + 1 && j <= p.top ensures Edge(h, q, j) == q.node[m] {
      assert Edge(h, q, j) == Edge(h, p, j);
    }
    assert On(h, q, k - 1);
  }

  /** At the end of a node, what lies ahead lies ahead of the node. */
  lemma UpSides(h: Heap, p: Route, k: nat, ahead: bool)
    requires Shape(h) && On(h, p, k)
    requires p.index[k] == if ahead then h[p.node[k]].rep.end - 1 else h[p.node[k]].rep.begin
    ensures Edge(h, p, k) in h && Side(h, p, ahead, k) == Above(h, p, k, ahead)
    ensures k < p.top ==> On(h, p, k + 1) && Edge(h, p, k + 1) == p.node[k]
    ensures Join(ahead, Side(h, p, !ahead, k), Leaves(h, Edge(h, p, k)))
        == Join(ahead, Above(h, p, k, !ahead), Leaves(h, p.node[k]))
  {
    hide RepOk, RowLeaves, Leaves, Side, On, Above, Edge;
    var x := NodeAt(h, p, k);
    SideIs(h, p, k, true);
    SideIs(h, p, k, false);
    NodeSplit(h, x, p.index[k]);
    RowEnd(h, x, ahead, p.index[k]);
    if k < p.top {
      OnUp(h, p, k);
    }
  }

  lemma RowEnd(h: Heap, x: Id, ahead: bool, i: nat)
    requires Shape(h) && x in h && IsNode(h[x].rep) && h[x].rep.begin <= i < h[x].rep.end
    requires i == if ahead then h[x].rep.end - 1 else h[x].rep.begin
    ensures RowLeaves(h, x, ahead, i) == []
  {
    assert Row(h[x].rep, ahead, i) == [];
  }

  /** From the edge at height `k` to its first (`ahead`) or last edge. */
  lemma EnterSides(h: Heap, p: Route, k: nat, ahead: bool, i: nat)
    requires Shape(h) && k > 0 && On(h, p, k)
    requires var e := Edge(h, p, k); e in h && IsNode(h[e].rep) && h[e].rep.begin <= i < h[e].rep.end
    requires var rep := h[Edge(h, p, k)].rep; i == if ahead then rep.begin else rep.end - 1
    ensures var e := Edge(h, p, k); var q := p.At(k - 1, e, i);
      && On(h, q, k - 1) && Edge(h, q, k - 1) == h[e].rep.slots[i] && h[e].rep.slots[i] in h
      && Side(h, q, !ahead, k - 1) == Side(h, p, !ahead, k)
      && Join(!ahead, Side(h, q, ahead, k - 1), Leaves(h, Edge(h, q, k - 1)))
          == Join(!ahead, Side(h, p, ahead, k), Leaves(h, e))
  {
    hide RepOk, RowLeaves, Leaves, Side, On, Edge;
    var e := Edge(h, p, k);
    DownSides(h, p, k, i);
    NodeSplit(h, e, i);
    RowEnd(h, e, !ahead, i);
    JoinSplit(ahead, Side(h, p, ahead, k), RowLeaves(h, e, ahead, i), Leaves(h, h[e].rep.slots[i]));
  }

  lemma JoinSplit(ahead: bool, a: seq<Id>, b: seq<Id>, c: seq<Id>)
    ensures Join(!ahead, Join(ahead, b, a), c) == Join(!ahead, a, Join(!ahead, b, c))
  {
  }

  // --- Positions in bytes ----------------------------------------------------------------------

  /** How many bytes lie behind the edge that the path takes at height `k`. */
  ghost function Position(h: Heap, p: Route, k: nat): nat
    requires Shape(h) && On(h, p, k)
  {
    |Cat(h, Side(h, p, false, k))|
  }

  lemma EdgeLen(h: Heap, p: Route, k: nat)
    requires Shape(h) && AllSettled(h, {}) && On(h, p, k)
    ensures Edge(h, p, k) in h && h[Edge(h, p, k)].rep.Level() == k
    ensures |Bytes(h, Edge(h, p, k))| == h[Edge(h, p, k)].rep.Len() > 0
    ensures p.node[p.top] in h
    ensures Bytes(h, p.node[p.top])
        == Cat(h, Side(h, p, false, k)) + Bytes(h, Edge(h, p, k)) + Cat(h, Side(h, p, true, k))
    ensures Position(h, p, k) + h[Edge(h, p, k)].rep.Len() <= |Bytes(h, p.node[p.top])|
  {
    hide RepOk, Side, Leaves;
    WholeTree(h, p, k);
    LenIsBytes(h, Edge(h, p, k));
    CatAppend(h, Side(h, p, false, k) + Leaves(h, Edge(h, p, k)), Side(h, p, true, k));
    CatAppend(h, Side(h, p, false, k), Leaves(h, Edge(h, p, k)));
  }

  lemma PositionAcross(h: Heap, p: Route, k: nat, i: nat)
    requires Shape(h) && AllSettled(h, {}) && On(h, p, k) && i == p.index[k] + 1 < h[p.node[k]].rep.end
    ensures var q := p.At(k, p.node[k], i);
      On(h, q, k) && Edge(h, p, k) in h && Position(h, q, k) == Position(h, p, k) + h[Edge(h, p, k)].rep.Len()
  {
    hide RepOk, Side, Leaves, Edge;
    AcrossSides(h, p, k, true, i);
    EdgeLen(h, p, k);
    CatAppend(h, Side(h, p, false, k), Leaves(h, Edge(h, p, k)));
  }

  lemma PositionUp(h: Heap, p: Route, k: nat)
    requires Shape(h) && AllSettled(h, {}) && On(h, p, k) && p.index[k] + 1 == h[p.node[k]].rep.end
    ensures Edge(h, p, k) in h
    ensures k == p.top ==> Position(h, p, k) + h[Edge(h, p, k)].rep.Len() == h[p.node[k]].rep.Len()
    ensures k < p.top ==> On(h, p, k + 1) && Edge(h, p, k + 1) == p.node[k]
    ensures k < p.top ==>
      Position(h, p, k) + h[Edge(h, p, k)].rep.Len() == Position(h, p, k + 1) + h[p.node[k]].rep.Len()
  {
    hide RepOk, Side, Leaves, Edge;
    UpSides(h, p, k, true);
    EdgeLen(h, p, k);
    LenIsBytes(h, p.node[k]);
    CatAppend(h, Side(h, p, false, k), Leaves(h, Edge(h, p, k)));
    CatAppend(h, Above(h, p, k, false), Leaves(h, p.node[k]));
  }

  lemma RowBytes(h: Heap, x: Id, i: nat)
    requires Shape(h) && AllSettled(h, {}) && x in h && IsNode(h[x].rep) && h[x].rep.begin <= i < h[x].rep.end
    ensures |Cat(h, RowLeaves(h, x, false, i))| == Span(h, h[x].rep, h[x].rep.begin, i)
  {
    hide RepOk, Leaves, LeavesOf;
    RowOk(h, x, false, i);
    LenIsBytesOf(h, h[x].rep.height, Row(h[x].rep, false, i));
  }

  lemma PositionDown(h: Heap, p: Route, k: nat, i: nat)
    requires Shape(h) && AllSettled(h, {}) && k > 0 && On(h, p, k)
    requires var e := Edge(h, p, k); e in h && IsNode(h[e].rep) && h[e].rep.begin <= i < h[e].rep.end
    ensures var e := Edge(h, p, k); var q := p.At(k - 1, e, i);
      && On(h, q, k - 1) && Edge(h, q, k - 1) == h[e].rep.slots[i]
      && Position(h, q, k - 1) == Position(h, p, k) + Span(h, h[e].rep, h[e].rep.begin, i)
  {
    hide RepOk, Side, RowLeaves, Edge, On, Span;
    var e := Edge(h, p, k);
    DownSides(h, p, k, i);
    RowBytes(h, e, i);
    CatAppend(h, Side(h, p, false, k), RowLeaves(h, e, false, i));
  }

  /** A path of a single entry. */
  lemma PositionTop(h: Heap, p: Route)
    requires Shape(h) && AllSettled(h, {}) && On(h, p, p.top)
    ensures Position(h, p, p.top) == Span(h, h[p.node[p.top]].rep, h[p.node[p.top]].rep.begin, p.index[p.top])
  {
    hide RepOk, RowLeaves, Edge, Span;
    RowBytes(h, p.node[p.top], p.index[p.top]);
  }

  /** A route in a heap to which only cells and references were added. */
  lemma {:induction false} SideExtends(h: Heap, h': Heap, p: Route, ahead: bool, k: nat)
    requires Shape(h) && Shape(h') && Extends(h, h') && On(h, p, k)
    ensures On(h', p, k) && Edge(h', p, k) == Edge(h, p, k) && Side(h', p, ahead, k) == Side(h, p, ahead, k)
    decreases p.top - k
  {
    hide RepOk, RowLeaves;
    forall i, j | k <= i && j == i + 1 && j <= p.top ensures Edge(h', p, j) == p.node[i] {
      assert Edge(h', p, j) == Edge(h, p, j);
    }
    RowExtends(h, h', p.node[k], ahead, p.index[k]);
    if k < p.top {
      SideExtends(h, h', p, ahead, k + 1);
    }
  }

  lemma RowExtends(h: Heap, h': Heap, x: Id, ahead: bool, i: nat)
    requires Shape(h) && Shape(h') && Extends(h, h') && x in h && IsNode(h[x].rep) && h[x].rep.begin <= i < h[x].rep.end
    ensures RowLeaves(h', x, ahead, i) == RowLeaves(h, x, ahead, i)
  {
    hide RepOk, Row;
    RowOk(h, x, ahead, i);
    RowOk(h', x, ahead, i);
    LeavesOfFrame(h, h', {}, h[x].rep.height, Row(h[x].rep, ahead, i));
  }

  lemma {:induction false} SideData(h: Heap, p: Route, ahead: bool, k: nat)
    requires Shape(h) && On(h, p, k)
    ensures AllEdges(h, 0, Side(h, p, ahead, k))
    decreases p.top - k
  {
    hide RepOk, Row, LeavesOf;
    RowOk(h, p.node[k], ahead, p.index[k]);
    LeavesOfAreData(h, k, Row(h[p.node[k]].rep, ahead, p.index[k]));
    if k < p.top {
      SideData(h, p, ahead, k + 1);
    }
  }

  lemma PositionExtends(h: Heap, h': Heap, p: Route, k: nat)
    requires Shape(h) && Shape(h') && Extends(h, h') && On(h, p, k)
    ensures On(h', p, k) && Edge(h', p, k) == Edge(h, p, k) && Position(h', p, k) == Position(h, p, k)
  {
    hide RepOk, Side;
    SideExtends(h, h', p, false, k);
    SideData(h, p, false, k);
    forall e | e in Side(h, p, false, k) ensures e in h' {
      assert IsEdge(h, 0, e);
    }
    CatFrame(h, h', {}, Side(h, p, false, k));
  }
}
