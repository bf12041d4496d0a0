/**
Btree nodes: the window of edge slots, copies, and edge manipulation (rep/btree.rs).
*/
module Nodes {
  import opened Heap
  import opened Counts
  import opened Arenas
  import opened Legs

  /** A btree node whose window lies within its slots. */
  predicate IsNode(rep: Rep) {
    rep.Btree? && |rep.slots| == MAX_CAPACITY && rep.begin <= rep.end <= MAX_CAPACITY
  }

  /** A node with the given height, stored length and edges; where its window lies is left open. */
  predicate NodeWith(rep: Rep, height: nat, length: nat, out: seq<Id>) {
    IsNode(rep) && rep.height == height && rep.length == length && rep.Out() == out
  }

  const EMPTY_SLOTS: seq<Id> := [0, 0, 0, 0, 0, 0]

  // --- Edge slots ------------------------------------------------------------------

  /** Moves the edges to the start of the slots. */
  method AlignBegin(node: Rep) returns (r: Rep)
    requires IsNode(node)
    ensures NodeWith(r, node.height, node.length, node.Out()) && r.begin == 0
  {
    var delta := node.begin;
    var slots := node.slots;
    if delta != 0 {
      var newEnd := node.end - delta;
      var i := 0;
      while i < newEnd
        invariant i <= newEnd && |slots| == MAX_CAPACITY
        invariant forall j :: 0 <= j < i ==> slots[j] == node.slots[j + delta]
        invariant forall j :: i + delta <= j < MAX_CAPACITY ==> slots[j] == node.slots[j]
      {
        slots := slots[i := slots[i + delta]];
        i := i + 1;
      }
      r := node.(begin := 0, end := newEnd, slots := slots);
      assert forall j :: 0 <= j < newEnd ==> r.Out()[j] == node.Out()[j];
    } else {
      r := node;
    }
  }

  /** Moves the edges to the end of the slots. */
  method AlignEnd(node: Rep) returns (r: Rep)
    requires IsNode(node)
    ensures NodeWith(r, node.height, node.length, node.Out()) && r.end == MAX_CAPACITY
  {
    var delta := MAX_CAPACITY - node.end;
    var slots := node.slots;
    if delta != 0 {
      var newBegin := node.begin + delta;
      var i := MAX_CAPACITY;
      while i > newBegin
        invariant newBegin <= i <= MAX_CAPACITY && |slots| == MAX_CAPACITY
        invariant forall j :: i <= j < MAX_CAPACITY ==> slots[j] == node.slots[j - delta]
        invariant forall j :: 0 <= j < i ==> slots[j] == node.slots[j]
      {
        i := i - 1;
        slots := slots[i := slots[i - delta]];
      }
      r := node.(begin := newBegin, end := MAX_CAPACITY, slots := slots);
      assert forall j :: 0 <= j < node.end - node.begin ==> r.Out()[j] == node.Out()[j];
    } else {
      r := node;
    }
  }

  /** Adds one edge at the back or front of a node with a spare slot. */
  method Add(back: bool, node: Rep, edge: Id) returns (r: Rep)
    requires IsNode(node) && |node.Out()| < MAX_CAPACITY
    ensures NodeWith(r, node.height, node.length, Join(back, node.Out(), [edge]))
  {
    if back {
      r := AlignBegin(node);
      r := r.(end := r.end + 1, slots := r.slots[r.end := edge]);
    } else {
      r := AlignEnd(node);
      r := r.(begin := r.begin - 1, slots := r.slots[r.begin - 1 := edge]);
    }
  }

  /** Adds all edges of `src`, in their order, at the back or front. */
  method AddEdgesFrom(back: bool, node: Rep, src: Rep) returns (r: Rep)
    requires IsNode(node) && IsNode(src) && |node.Out()| + |src.Out()| <= MAX_CAPACITY
    ensures NodeWith(r, node.height, node.length, Join(back, node.Out(), src.Out()))
  {
    if back {
      r := AlignBegin(node);
      r := CopyEdgesBehind(r, src);
    } else {
      r := AlignEnd(node);
      r := CopyEdgesBefore(r, src);
    }
  }

  method CopyEdgesBehind(node: Rep, src: Rep) returns (r: Rep)
    requires IsNode(node) && IsNode(src) && node.begin == 0 && |node.Out()| + |src.Out()| <= MAX_CAPACITY
    ensures NodeWith(r, node.height, node.length, node.Out() + src.Out())
  {
    var end := node.end;
    var slots := node.slots;
    var i := src.begin;
    while i < src.end
      invariant src.begin <= i <= src.end && end == node.end + i - src.begin && |slots| == MAX_CAPACITY
      invariant forall j :: 0 <= j < node.end ==> slots[j] == node.slots[j]
      invariant forall j :: node.end <= j < end ==> slots[j] == src.slots[j - node.end + src.begin]
    {
      slots := slots[end := src.slots[i]];
      end := end + 1;
      i := i + 1;
    }
    assert slots[node.end..end] == src.Out();
    assert slots[..node.end] == node.Out();
    assert slots[..end] == slots[..node.end] + slots[node.end..end];
    r := node.(end := end, slots := slots);
  }

  method CopyEdgesBefore(node: Rep, src: Rep) returns (r: Rep)
    requires IsNode(node) && IsNode(src) && node.end == MAX_CAPACITY && |node.Out()| + |src.Out()| <= MAX_CAPACITY
    ensures NodeWith(r, node.height, node.length, src.Out() + node.Out())
  {
    var begin := node.begin - (src.end - src.begin);
    var slots := node.slots;
    var i := src.begin;
    while i < src.end
      invariant src.begin <= i <= src.end && |slots| == MAX_CAPACITY
      invariant forall j :: node.begin <= j < MAX_CAPACITY ==> slots[j] == node.slots[j]
      invariant forall j :: begin <= j < begin + i - src.begin ==> slots[j] == src.slots[j - begin + src.begin]
    {
      slots := slots[begin + i - src.begin := src.slots[i]];
      i := i + 1;
    }
    BeforeParts(node, src, begin, slots);
    r := node.(begin := begin, slots := slots);
    assert r.Out() == slots[begin..];
  }

  lemma BeforeParts(node: Rep, src: Rep, begin: nat, slots: seq<Id>)
    requires IsNode(node) && IsNode(src) && begin == node.begin - (src.end - src.begin) && |slots| == MAX_CAPACITY
    requires node.end == MAX_CAPACITY && forall j :: node.begin <= j < MAX_CAPACITY ==> slots[j] == node.slots[j]
    requires forall j :: begin <= j < node.begin ==> slots[j] == src.slots[j - begin + src.begin]
    ensures slots[begin..] == src.Out() + node.Out()
  {
    assert slots[begin..node.begin] == src.Out();
    assert slots[node.begin..] == node.Out();
    assert slots[begin..] == slots[begin..node.begin] + slots[node.begin..];
  }

  /** The node with its outermost edge replaced and `delta` added to its length. */
  function WithOuter(back: bool, node: Rep, edge: Id, delta: nat): (r: Rep)
    requires IsNode(node) && node.Out() != []
    ensures NodeWith(r, node.height, node.length + delta, Join(back, Inner(back, node.Out()), [edge]))
  {
    node.(slots := node.slots[(if back then node.end - 1 else node.begin) := edge], length := node.length + delta)
  }

  // --- New nodes and copies ----------------------------------------------------------

  lemma NodeOk(h: Heap, x: Id)
    requires Shape(h) && x in h && h[x].rep.Btree?
    ensures RepOk(h, h[x].rep) && IsNode(h[x].rep) && AllEdges(h, h[x].rep.height, h[x].rep.Out())
  {
  }

  /** A new node with the single edge `e`. */
  method NewWith(a: Arena, e: Id) returns (r: Id)
    requires a.Ok() && e in a.held
    modifies a
    ensures a.Ok() && r == old(a.next) && a.next == r + 1 && r !in old(a.cells)
    ensures a.held == old(a.held) - multiset{e} + multiset{r}
    ensures r in a.cells && a.cells == old(a.cells)[r := a.cells[r]] && a.cells[r].rc == 1
    ensures e in old(a.cells) && a.cells[r].rep.Btree? && a.cells[r].rep.begin == 0 &&
      NodeWith(a.cells[r].rep, old(a.cells)[e].rep.Level(), old(a.cells)[e].rep.Len(), [e])
  {
    hide Inv;
    HeldIn(a.cells, a.held, e);
    var rep := Btree(a.cells[e].rep.Len(), a.cells[e].rep.Level(), 0, 1, EMPTY_SLOTS[0 := e]);
    assert rep.Out() == [e];
    r := Alloc(a, Cell(1, rep));
  }

  /** A new node over two nodes of equal height. */
  method NewPair(a: Arena, front: Id, back: Id) returns (r: Id)
    requires a.Ok() && multiset{front, back} <= a.held
    requires front in a.cells && back in a.cells && a.cells[front].rep.Btree? && a.cells[back].rep.Btree?
    requires a.cells[front].rep.height == a.cells[back].rep.height
    modifies a
    ensures a.Ok() && r == old(a.next) && a.next == r + 1 && r !in old(a.cells)
    ensures a.held == old(a.held) - multiset{front, back} + multiset{r}
    ensures r in a.cells && a.cells == old(a.cells)[r := a.cells[r]] && a.cells[r].rc == 1
    ensures NodeWith(a.cells[r].rep, old(a.cells)[front].rep.height + 1,
                     old(a.cells)[front].rep.length + old(a.cells)[back].rep.length, [front, back])
  {
    hide Inv;
    var rep := Btree(a.cells[front].rep.length + a.cells[back].rep.length, a.cells[front].rep.height + 1,
                     0, 2, EMPTY_SLOTS[0 := front][1 := back]);
    assert rep.Out() == [front, back];
    assert multiset(rep.Out()) == multiset{front, back};
    r := Alloc(a, Cell(1, rep));
  }

  /** What taking one reference per element of `es` and allocating cell `r` does to the heap. */
  ghost predicate CopyOf(h: Heap, es: seq<Id>, r: Id, h': Heap) {
    && h'.Keys == h.Keys + {r} && r !in h && Extends(h, h')
    && h'[r].rc == 1
    && forall x :: x in h ==> h'[x].rc == h[x].rc + multiset(es)[x]
  }

  /** Allocates a node of which the caller does not yet own the edges; each gets a new reference. */
  method CopyNode(a: Arena, rep: Rep) returns (r: Id)
    requires a.Ok() && IsNode(rep) && AllEdges(a.cells, rep.height, rep.Out())
    modifies a
    ensures a.Ok() && r == old(a.next) && a.next == r + 1
    ensures a.held == old(a.held) + multiset{r}
    ensures CopyOf(old(a.cells), rep.Out(), r, a.cells) && a.cells[r].rep == rep
    ensures r in a.cells && Extends(old(a.cells), a.cells)
  {
    hide Inv, RepOk;
    ghost var h, held := a.cells, a.held;
    RefAll(a, rep.Out());
    ghost var h1 := a.cells;
    EdgesOk(h, rep, h1);
    TakenUp(held, multiset(rep.Out()), a.next);
    r := Alloc(a, Cell(1, rep));
    IsCopy(h, rep.Out(), r, h1, a.cells);
  }

  lemma EdgesOk(h: Heap, rep: Rep, h': Heap)
    requires IsNode(rep) && AllEdges(h, rep.height, rep.Out()) && Extends(h, h')
    ensures RepOk(h', rep)
  {
    forall e | e in rep.Out() ensures IsEdge(h', rep.height, e) {
      assert IsEdge(h, rep.height, e);
    }
  }

  lemma TakenUp(held: multiset<Id>, es: multiset<Id>, r: Id)
    ensures es <= held + es && held + es - es + multiset{r} == held + multiset{r}
  {
  }

  lemma IsCopy(h: Heap, es: seq<Id>, r: Id, h1: Heap, h': Heap)
    requires h1.Keys == h.Keys && Extends(h, h1) && (forall x :: x in h1 ==> h1[x].rc == h[x].rc + multiset(es)[x])
    requires r !in h && r in h' && h' == h1[r := h'[r]] && h'[r].rc == 1
    ensures CopyOf(h, es, r, h')
  {
  }

  // --- Adding and replacing edges --------------------------------------------------------

  /** What an operation on a node means for its parents (`Action` in rep/btree.rs). */
  datatype Action = InPlace | Copied | Popped

  /** How `node` may have become `r`. */
  ghost predicate Edited(h: Heap, node: Id, copied: seq<Id>, action: Action, r: Id, h': Heap)
    requires node in h
  {
    match action
    case InPlace => r == node && r in h' && h' == h[node := h'[node]] && h'[node].rc == h[node].rc
    case Copied => CopyOf(h, copied, r, h')
    case Popped => r !in h && r in h' && h' == h[r := h'[r]] && h'[r].rc == 1
  }

  /** Adds `edge`: in place if owned, on a copy if shared, as a popped leg if the node is full. */
  method AddEdge(a: Arena, back: bool, node: Id, owned: bool, edge: Id, delta: nat) returns (r: Id, action: Action)
    requires a.Ok() && node in a.cells && a.cells[node].rep.Btree? && edge in a.held
    requires IsEdge(a.cells, a.cells[node].rep.height, edge)
    modifies a
    ensures a.Ok() && (action == InPlace ==> a.next == old(a.next))
    ensures action != InPlace ==> r == old(a.next) && a.next == r + 1
    ensures action == (if |old(a.cells)[node].rep.Out()| >= MAX_CAPACITY then Popped
                       else if owned then InPlace else Copied)
    ensures a.held == old(a.held) - multiset{edge} + (if action == InPlace then multiset{} else multiset{r})
    ensures Edited(old(a.cells), node, old(a.cells)[node].rep.Out(), action, r, a.cells)
    ensures var was := old(a.cells)[node].rep;
      NodeWith(a.cells[r].rep, was.height,
               if action == Popped then old(a.cells)[edge].rep.Len() else was.length + delta,
               if action == Popped then [edge] else Join(back, was.Out(), [edge]))
  {
    hide Inv, RepOk, Join, CopyOf;
    InvShape(a.cells, a.held);
    NodeOk(a.cells, node);
    var was := a.cells[node].rep;
    ghost var h, held := a.cells, a.held;
    if was.end - was.begin >= MAX_CAPACITY {
      r := NewWith(a, edge);
      action := Popped;
    } else {
      r := node;
      action := InPlace;
      if !owned {
        r := CopyNode(a, was);
        action := Copied;
      }
      var rep := Add(back, was, edge);
      ghost var h1 := a.cells;
      InstallEdges(a, back, r, rep.(length := rep.length + delta), [edge]);
      if !owned {
        CopyWritten(h, was.Out(), r, h1, a.cells);
        HeldSwap(held, r, edge);
      }
    }
  }

  lemma CopyWritten(h: Heap, es: seq<Id>, r: Id, h1: Heap, h': Heap)
    requires CopyOf(h, es, r, h1) && r in h1 && r in h' && h' == h1[r := h'[r]] && h'[r].rc == h1[r].rc
    ensures CopyOf(h, es, r, h')
  {
  }

  lemma HeldSwap(held: multiset<Id>, x: Id, y: Id)
    requires y in held
    ensures held + multiset{x} - multiset{y} == held - multiset{y} + multiset{x}
  {
  }

  /** Writes `rep`, which has the edges of node `r` plus `more`, consuming the handles of `more`. */
  method InstallEdges(a: Arena, ghost back: bool, r: Id, rep: Rep, ghost more: seq<Id>)
    requires a.Ok() && r in a.cells && a.cells[r].rep.Btree? && IsNode(rep)
    requires rep.height == a.cells[r].rep.height && rep.Out() == Join(back, a.cells[r].rep.Out(), more)
    requires multiset(more) <= a.held && AllEdges(a.cells, rep.height, more)
    modifies a
    ensures a.Ok() && a.next == old(a.next)
    ensures a.cells == old(a.cells)[r := Cell(old(a.cells)[r].rc, rep)]
    ensures a.held == old(a.held) - multiset(more)
  {
    hide Inv;
    InvShape(a.cells, a.held);
    NodeOk(a.cells, r);
    ghost var out := multiset(a.cells[r].rep.Out());
    assert multiset(rep.Out()) == out + multiset(more);
    WriteNode(a, r, Cell(a.cells[r].rc, rep));
    assert old(a.held) + out - (out + multiset(more)) == old(a.held) - multiset(more);
  }

  /** A copy of `node` that also holds `more`. */
  method CopyWith(a: Arena, ghost back: bool, node: Id, rep: Rep, ghost more: seq<Id>) returns (r: Id)
    requires a.Ok() && node in a.cells && a.cells[node].rep.Btree? && IsNode(rep)
    requires rep.height == a.cells[node].rep.height && rep.Out() == Join(back, a.cells[node].rep.Out(), more)
    requires multiset(more) <= a.held && AllEdges(a.cells, rep.height, more)
    modifies a
    ensures a.Ok() && r == old(a.next) && a.next == r + 1
    ensures a.held == old(a.held) - multiset(more) + multiset{r}
    ensures CopyOf(old(a.cells), old(a.cells)[node].rep.Out(), r, a.cells) && a.cells[r].rep == rep
  {
    hide Inv, RepOk, Join;
    InvShape(a.cells, a.held);
    NodeOk(a.cells, node);
    r := CopyNode(a, a.cells[node].rep);
    InstallEdges(a, back, r, rep, more);
    CopyHeld(old(a.held), multiset(more), r);
  }

  lemma CopyHeld(held: multiset<Id>, more: multiset<Id>, r: Id)
    requires more <= held
    ensures held + multiset{r} - more == held - more + multiset{r}
  {
  }

  /**
  Replaces the outermost edge by `edge`: in place if owned, giving up the old edge, or on a copy
  that never refers to the old edge.
  */
  method SetEdge(a: Arena, back: bool, node: Id, owned: bool, edge: Id, delta: nat) returns (r: Id, action: Action)
    requires a.Ok() && node in a.cells && a.cells[node].rep.Btree? && a.cells[node].rep.Out() != []
    requires edge in a.held && IsEdge(a.cells, a.cells[node].rep.height, edge)
    modifies a
    ensures a.Ok() && action == (if owned then InPlace else Copied)
    ensures a.held == old(a.held) - multiset{edge} + (if owned then multiset{} else multiset{r})
    ensures owned ==> r == node && EdgeReplaced(old(a.cells), node, a.cells) && a.next == old(a.next)
    ensures !owned ==> r == old(a.next) && a.next == r + 1
    ensures !owned ==> CopyOf(old(a.cells), Inner(back, old(a.cells)[node].rep.Out()), r, a.cells)
    ensures r in a.cells && OuterSet(old(a.cells)[node].rep, back, edge, delta, a.cells[r].rep)
  {
    hide Inv;
    if owned {
      SetEdgeOwned(a, back, node, edge, delta);
      r := node;
      action := InPlace;
    } else {
      r := SetEdgeShared(a, back, node, edge, delta);
      action := Copied;
    }
  }

  ghost predicate OuterSet(was: Rep, back: bool, edge: Id, delta: nat, rep: Rep)
    requires was.Btree? && was.Out() != []
  {
    NodeWith(rep, was.height, was.length + delta, Join(back, Inner(back, was.Out()), [edge]))
  }

  /** Only `node` is written; what it no longer refers to may have been freed. */
  ghost predicate EdgeReplaced(h: Heap, node: Id, h': Heap)
    requires node in h && h[node].rep.Btree?
  {
    && node in h' && h'[node].rc == h[node].rc
    && (forall x :: x in h' ==> x in h && h'[x].rc <= h[x].rc && (x != node ==> Same(h[x], h'[x])))
    && (forall x :: x in h && x != node && h[x].rep.Level() > h[node].rep.height ==> x in h' && h'[x] == h[x])
  }

  method SetEdgeOwned(a: Arena, back: bool, node: Id, edge: Id, delta: nat)
    requires a.Ok() && node in a.cells && a.cells[node].rep.Btree? && a.cells[node].rep.Out() != []
    requires edge in a.held && IsEdge(a.cells, a.cells[node].rep.height, edge)
    modifies a
    ensures a.Ok() && a.next == old(a.next)
    ensures a.held == old(a.held) - multiset{edge}
    ensures EdgeReplaced(old(a.cells), node, a.cells)
    ensures OuterSet(old(a.cells)[node].rep, back, edge, delta, a.cells[node].rep)
  {
    hide Inv, RepOk, Inner, Outer, Join, EdgeReplaced, OnlyUnreachableGone;
    InvShape(a.cells, a.held);
    NodeOk(a.cells, node);
    var was := a.cells[node].rep;
    var last := Outer(back, was.Out());
    var rep := WithOuter(back, was, edge, delta);
    SplitOuter(back, was.Out());
    InnerIn(back, was.Out());
    JoinBag(back, Inner(back, was.Out()), edge);
    assert IsEdge(a.cells, was.height, last);
    ghost var inner := multiset(Inner(back, was.Out()));
    ghost var held0 := a.held;
    NodeOkWith(a.cells, was.height, back, Inner(back, was.Out()), edge, rep);
    Swap(held0, inner, multiset{last}, multiset{edge});
    WriteNode(a, node, Cell(a.cells[node].rc, rep));
    ghost var h1 := a.cells;
    Unref(a, last);
    EdgeReplacedBy(old(a.cells), node, h1, last, a.cells);
  }

  lemma EdgeReplacedBy(h: Heap, node: Id, h1: Heap, last: Id, h2: Heap)
    requires node in h && h[node].rep.Btree? && IsEdge(h, h[node].rep.height, last)
    requires node in h1 && h1 == h[node := Cell(h[node].rc, h1[node].rep)]
    requires h1[node].rep.Btree? && h1[node].rep.height == h[node].rep.height
    requires Shrunk(h1, h2) && SameAbove(h1, h[last].rep.Rank(), h2)
    ensures EdgeReplaced(h, node, h2) && h2[node] == h1[node]
  {
  }

  lemma Swap(held: multiset<Id>, common: multiset<Id>, back: multiset<Id>, adopted: multiset<Id>)
    requires adopted <= held
    ensures common + adopted <= held + (common + back)
    ensures common + adopted <= held + common
    ensures held + (common + back) - (common + adopted) == held - adopted + back
    ensures held + common - (common + adopted) == held - adopted
  {
  }

  lemma JoinBag(back: bool, es: seq<Id>, e: Id)
    ensures multiset(Join(back, es, [e])) == multiset(es) + multiset{e}
  {
  }

  lemma NodeOkWith(h: Heap, k: nat, back: bool, es: seq<Id>, e: Id, rep: Rep)
    requires AllEdges(h, k, es) && IsEdge(h, k, e)
    requires IsNode(rep) && rep.height == k && rep.Out() == Join(back, es, [e])
    ensures RepOk(h, rep)
  {
  }

  method SetEdgeShared(a: Arena, back: bool, node: Id, edge: Id, delta: nat) returns (r: Id)
    requires a.Ok() && node in a.cells && a.cells[node].rep.Btree? && a.cells[node].rep.Out() != []
    requires edge in a.held && IsEdge(a.cells, a.cells[node].rep.height, edge)
    modifies a
    ensures a.Ok() && r == old(a.next) && a.next == r + 1
    ensures a.held == old(a.held) - multiset{edge} + multiset{r}
    ensures CopyOf(old(a.cells), Inner(back, old(a.cells)[node].rep.Out()), r, a.cells)
    ensures OuterSet(old(a.cells)[node].rep, back, edge, delta, a.cells[r].rep)
  {
    hide Inv, RepOk, Inner, Outer, Join, CopyOf;
    InvShape(a.cells, a.held);
    NodeOk(a.cells, node);
    var was := a.cells[node].rep;
    var rep := WithOuter(back, was, edge, delta);
    SplitOuter(back, was.Out());
    InnerIn(back, was.Out());
    JoinBag(back, Inner(back, was.Out()), edge);
    ghost var inner := multiset(Inner(back, was.Out()));
    ghost var h := a.cells;
    RefAll(a, Inner(back, was.Out()));
    ghost var h1 := a.cells;
    NodeOkWith(h1, was.height, back, Inner(back, was.Out()), edge, rep);
    Swap(old(a.held), inner, multiset{}, multiset{edge});
    r := Alloc(a, Cell(1, rep));
    IsCopy(h, Inner(back, was.Out()), r, h1, a.cells);
  }
}
