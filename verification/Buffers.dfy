/**
The last flat of a tree as a buffer: growing it in place, and taking it out (`get_append_buffer`
and `extract_append_buffer` of rep/btree.rs).
*/
module Buffers {
  import opened Heap
  import opened Counts
  import opened Arenas
  import opened Substrings
  import opened Legs
  import opened Nodes
  import opened Edits
  import opened Steps
  import opened Rebuilds
  import opened Unwinding
  import opened Trees
  import opened Copies
  import opened SubTrees
  import opened Crops

  // --- Lengths along a leg -----------------------------------------------------------------------

  /** The cell with its stored length changed. */
  function Resized(c: Cell, delta: int): Cell
    requires c.rep.Btree? && c.rep.length + delta >= 0
  {
    Cell(c.rc, c.rep.(length := c.rep.length + delta))
  }

  /** The nodes of the leg at depths `[lo, hi)`. */
  ghost function Depths(leg: seq<Id>, lo: nat, hi: nat): set<Id>
    requires lo <= hi <= |leg|
  {
    set i | lo <= i < hi :: leg[i]
  }

  lemma DepthsNext(leg: seq<Id>, lo: nat, hi: nat)
    requires lo <= hi < |leg|
    ensures Depths(leg, lo, hi + 1) == Depths(leg, lo, hi) + {leg[hi]}
  {
  }

  /** The nodes at depths below `d` have had `delta` added to their stored length. */
  ghost predicate LengthsChanged(h: Heap, leg: seq<Id>, d: nat, delta: int, h': Heap) {
    && d <= |leg| && h'.Keys == h.Keys
    && (forall i :: 0 <= i < d ==>
          && leg[i] in h && h[leg[i]].rep.Btree? && h[leg[i]].rep.length + delta >= 0
          && h'[leg[i]] == Resized(h[leg[i]], delta))
    && (forall x :: x in h && x !in Depths(leg, 0, d) ==> h'[x] == h[x])
  }

  /** Adds `delta` to the stored length of the nodes at depths below `d`. */
  method ChangeLengths(a: Arena, leg: seq<Id>, d: nat, delta: int)
    requires a.Ok() && d <= |leg| && (forall i :: 0 <= i < d ==> leg[i] in a.cells && a.cells[leg[i]].rep.Btree?)
    requires forall i :: 0 <= i < d ==> a.cells[leg[i]].rep.length + delta >= 0
    requires forall i, j :: 0 <= i < j < d ==> leg[i] != leg[j]
    modifies a
    ensures a.Ok() && a.next == old(a.next) && a.held == old(a.held)
    ensures LengthsChanged(old(a.cells), leg, d, delta, a.cells)
  {
    hide Inv, RepOk, LengthsChanged;
    var i := 0;
    LengthsNone(a.cells, leg, delta);
    while i < d
      invariant 0 <= i <= d && a.Ok() && a.next == old(a.next) && a.held == old(a.held)
      invariant LengthsChanged(old(a.cells), leg, i, delta, a.cells)
    {
      ghost var h := a.cells;
      LengthsNext(old(a.cells), leg, i, delta, h);
      ChangeLength(a, leg[i], delta);
      LengthsStep(old(a.cells), leg, i, delta, h, a.cells);
      i := i + 1;
    }
  }

  method ChangeLength(a: Arena, x: Id, delta: int)
    requires a.Ok() && x in a.cells && a.cells[x].rep.Btree? && a.cells[x].rep.length + delta >= 0
    modifies a
    ensures a.Ok() && a.next == old(a.next) && a.held == old(a.held)
    ensures a.cells == old(a.cells)[x := Resized(old(a.cells)[x], delta)]
  {
    hide Inv, RepOk;
    InvShape(a.cells, a.held);
    NodeOk(a.cells, x);
    var was := a.cells[x];
    SameEdgesOk(a.cells, was.rep, Resized(was, delta).rep);
    assert Resized(was, delta).rep.Out() == was.rep.Out();
    WriteNode(a, x, Resized(was, delta));
    CropHeld(old(a.held), multiset(was.rep.Out()));
  }

  lemma LengthsNone(h: Heap, leg: seq<Id>, delta: int)
    ensures LengthsChanged(h, leg, 0, delta, h)
  {
  }

  lemma LengthsNext(h: Heap, leg: seq<Id>, i: nat, delta: int, h': Heap)
    requires i < |leg| && LengthsChanged(h, leg, i, delta, h') && leg[i] in h
    requires forall j :: 0 <= j < i ==> leg[j] != leg[i]
    ensures leg[i] in h' && h'[leg[i]] == h[leg[i]]
  {
  }

  lemma LengthsStep(h: Heap, leg: seq<Id>, i: nat, delta: int, h1: Heap, h2: Heap)
    requires i < |leg| && LengthsChanged(h, leg, i, delta, h1) && leg[i] in h && h[leg[i]].rep.Btree?
    requires h[leg[i]].rep.length + delta >= 0 && leg[i] in h1 && h1[leg[i]] == h[leg[i]]
    requires forall j :: 0 <= j < i ==> leg[j] != leg[i]
    requires h2 == h1[leg[i] := Resized(h[leg[i]], delta)]
    ensures LengthsChanged(h, leg, i + 1, delta, h2)
  {
    DepthsNext(leg, 0, i);
  }

  /** A leg of private nodes over a private data edge: nothing else refers to any of them. */
  ghost predicate PrivatePath(h: Heap, held: multiset<Id>, leg: seq<Id>, edge: Id) {
    && OwnedLeg(h, held, true, leg, |leg|) && h[leg[|leg| - 1]].rep.height == 0
    && h[leg[|leg| - 1]].rep.Out() != [] && edge == Outer(true, h[leg[|leg| - 1]].rep.Out())
    && edge in h && !h[edge].rep.Btree? && h[edge].rc == 1
  }

  ghost function PathIds(leg: seq<Id>, edge: Id): set<Id> {
    Ids(leg) + {edge}
  }

  /** The only edge to `edge` is that of the last node of the leg. */
  lemma PathEdge(h: Heap, held: multiset<Id>, leg: seq<Id>, edge: Id, x: Id)
    requires Inv(h, held) && PrivatePath(h, held, leg, edge) && x in h && edge in h[x].rep.Out()
    ensures x == leg[|leg| - 1] && edge !in Inner(true, h[x].rep.Out()) && held[edge] == 0
  {
    hide EdgeBag, RepOk, Inner, Outer;
    var t := leg[|leg| - 1];
    assert h[edge].rc == EdgeBag(h)[edge] + held[edge];
    var es := h[t].rep.Out();
    SplitOuter(true, es);
    InnerIn(true, es);
    EdgeBagAtLeast(h, t);
    InBag(Inner(true, es), edge);
    if x != t {
      EdgeBagTwo(h, x, t, edge);
    }
  }

  lemma PathClosed(h: Heap, held: multiset<Id>, leg: seq<Id>, edge: Id)
    requires Inv(h, held) && PrivatePath(h, held, leg, edge)
    ensures Closed(h, PathIds(leg, edge))
    ensures forall x :: x in held - multiset{leg[0]} ==> x !in PathIds(leg, edge)
  {
    hide Inv, RepOk, Outer;
    assert leg[..|leg|] == leg;
    OwnedIsClosed(h, held, true, leg, |leg|);
    InnerIn(true, h[leg[|leg| - 1]].rep.Out());
    PathEdge(h, held, leg, edge, leg[|leg| - 1]);
    forall x, e | x in h && x !in PathIds(leg, edge) && e in h[x].rep.Out() ensures e !in PathIds(leg, edge) {
      if e == edge {
        PathEdge(h, held, leg, edge, x);
      }
    }
  }

  /** Inner edges of the leg lie off the path. */
  lemma PathInner(h: Heap, held: multiset<Id>, leg: seq<Id>, edge: Id, i: nat)
    requires Inv(h, held) && Shape(h) && PrivatePath(h, held, leg, edge) && i < |leg|
    ensures h[leg[i]].rep.Out() != []
    ensures forall e :: e in Inner(true, h[leg[i]].rep.Out()) ==> e !in PathIds(leg, edge)
  {
    hide Inv, RepOk, Outer, Inner, Ids;
    var es := h[leg[i]].rep.Out();
    InnerIn(true, es);
    InnerOffLeg(h, held, leg, i);
    forall e | e in Inner(true, es) ensures e != edge {
      if e == edge {
        PathEdge(h, held, leg, edge, leg[i]);
      }
    }
  }

  lemma InnerOffLeg(h: Heap, held: multiset<Id>, leg: seq<Id>, i: nat)
    requires Inv(h, held) && Shape(h) && OwnedLeg(h, held, true, leg, |leg|) && i < |leg|
    requires h[leg[i]].rep.Out() != []
    ensures forall e :: e in Inner(true, h[leg[i]].rep.Out()) ==> e !in Ids(leg)
  {
    hide Inv, RepOk, Outer, Inner;
    var es := h[leg[i]].rep.Out();
    InnerIn(true, es);
    assert leg[..|leg|] == leg;
    if i < |leg| - 1 {
      OwnedIsEdgeOnce(h, held, true, leg, |leg|, i + 1);
      InnerAvoidsLeg(h, true, leg, |leg| - 1, i);
    } else {
      forall e | e in Inner(true, es) ensures e !in Ids(leg) {
        LegAvoids(h, leg, e);
      }
    }
  }

  // --- Finding the last flat -----------------------------------------------------------------------

  /** The last data edge of a tree. */
  ghost function LastLeaf(h: Heap, x: Id): Id
    requires Shape(h) && x in h && Leaves(h, x) != []
  {
    Leaves(h, x)[|Leaves(h, x)| - 1]
  }

  /** Nothing but `x` leads to its last data edge, which is a flat with room for `room` bytes. */
  ghost predicate HasBuffer(h: Heap, x: Id, room: nat)
    requires Shape(h)
  {
    && PrivateLeg(h, true, x) && Leaves(h, x) != []
    && LastLeaf(h, x) in h && h[LastLeaf(h, x)].rc == 1 && h[LastLeaf(h, x)].rep.Flat?
    && |h[LastLeaf(h, x)].rep.data| + room <= h[LastLeaf(h, x)].rep.capacity
  }

  /** The way down the back of `x`, to its last data edge. */
  ghost function BackPath(h: Heap, x: Id): (p: seq<Id>)
    requires Shape(h) && x in h
    ensures p != []
    decreases h[x].rep.Level()
  {
    var es := h[x].rep.Out();
    if h[x].rep.Btree? && es != [] then
      LevelBelow(h, x, es[|es| - 1]);
      [x] + BackPath(h, es[|es| - 1])
    else [x]
  }

  /** The last edge of `x` is `y`. */
  ghost predicate EndsIn(h: Heap, x: Id, y: Id) {
    x in h && h[x].rep.Btree? && h[x].rep.Out() != [] && y == h[x].rep.Out()[|h[x].rep.Out()| - 1]
  }

  /** Each node of the path leads to the next one by its last edge, and the path ends in a data edge. */
  lemma {:induction false} BackPathIs(h: Heap, x: Id)
    requires Shape(h) && AllSettled(h, {}) && x in h
    ensures
      var p := BackPath(h, x);
      && p[0] == x && p[|p| - 1] in h && !h[p[|p| - 1]].rep.Btree?
      && forall i, j :: 0 <= i < |p| && j == i + 1 < |p| ==> EndsIn(h, p[i], p[j])
    decreases h[x].rep.Level()
  {
    hide RepOk, AllSettled, BackPath, EndsIn;
    var p := BackPath(h, x);
    SettledAt(h, x);
    if h[x].rep.Btree? {
      var e := h[x].rep.Out()[|h[x].rep.Out()| - 1];
      LevelBelow(h, x, e);
      BackPathStep(h, x);
      BackPathIs(h, e);
      var q := BackPath(h, e);
      assert p[|p| - 1] == q[|q| - 1];
      forall i, j | 0 <= i < |p| && j == i + 1 < |p| ensures EndsIn(h, p[i], p[j]) {
        if i > 0 {
          assert p[i] == q[i - 1] && p[j] == q[j - 1];
        }
      }
    } else {
      BackPathData(h, x);
    }
  }

  lemma BackPathStep(h: Heap, x: Id)
    requires Shape(h) && x in h && h[x].rep.Btree? && h[x].rep.Out() != []
    ensures h[x].rep.Out()[|h[x].rep.Out()| - 1] in h
    ensures BackPath(h, x) == [x] + BackPath(h, h[x].rep.Out()[|h[x].rep.Out()| - 1])
    ensures EndsIn(h, x, h[x].rep.Out()[|h[x].rep.Out()| - 1])
  {
    hide RepOk;
    LevelBelow(h, x, h[x].rep.Out()[|h[x].rep.Out()| - 1]);
  }

  lemma SettledAt(h: Heap, x: Id)
    requires AllSettled(h, {}) && x in h
    ensures Settled(h, x)
  {
  }

  /** The leg ends at the last leaf. */
  lemma {:induction false} LegToLast(h: Heap, leg: seq<Id>)
    requires Shape(h) && AllSettled(h, {}) && Leg(h, true, leg) && h[leg[|leg| - 1]].rep.height == 0
    ensures h[leg[|leg| - 1]].rep.Out() != [] && Leaves(h, leg[0]) != []
    ensures LastLeaf(h, leg[0]) == Outer(true, h[leg[|leg| - 1]].rep.Out())
    decreases |leg|
  {
    hide RepOk, Leaves, Join, Outer, Inner;
    var x := leg[0];
    assert Settled(h, x);
    LeavesSplit(h, true, x);
    var e := Outer(true, h[x].rep.Out());
    if |leg| > 1 {
      LegTail(h, true, leg);
      assert leg[1..][|leg| - 2] == leg[|leg| - 1] && leg[0 + 1] == e;
      LegToLast(h, leg[1..]);
      JoinLast(LeavesOf(h, h[x].rep.height, Inner(true, h[x].rep.Out())), Leaves(h, e));
    } else {
      DataLeaf(h, e);
      JoinLast(LeavesOf(h, h[x].rep.height, Inner(true, h[x].rep.Out())), Leaves(h, e));
    }
  }

  lemma JoinLast(a: seq<Id>, b: seq<Id>)
    requires b != []
    ensures Join(true, a, b) != [] && Join(true, a, b)[|Join(true, a, b)| - 1] == b[|b| - 1]
  {
  }

  lemma {:induction false} OwnedPrivate(h: Heap, leg: seq<Id>)
    requires Shape(h) && Leg(h, true, leg) && h[leg[|leg| - 1]].rep.height == 0
    requires forall i :: 0 <= i < |leg| ==> h[leg[i]].rc == 1
    ensures PrivateLeg(h, true, leg[0])
    decreases |leg|
  {
    hide RepOk, Outer, Inner;
    assert h[leg[|leg| - 1]].rep.height == h[leg[0]].rep.height - (|leg| - 1);
    if |leg| > 1 {
      LegTail(h, true, leg);
      assert leg[1..][|leg| - 2] == leg[|leg| - 1] && leg[0 + 1] == Outer(true, h[leg[0]].rep.Out());
      OwnedPrivate(h, leg[1..]);
    }
  }

  /** The last data edge is the end of the path; nothing but `x` leads to it if no count on the path is above one. */
  lemma {:induction false} BackPathPrivate(h: Heap, x: Id)
    requires Shape(h) && AllSettled(h, {}) && x in h
    ensures
      var p := BackPath(h, x);
      && Leaves(h, x) != [] && LastLeaf(h, x) == p[|p| - 1] && p[|p| - 1] in h
      && (PrivateLeg(h, true, x) && h[p[|p| - 1]].rc == 1 <==>
            h[x].rep.Btree? && forall y :: y in p ==> y in h && h[y].rc == 1)
    decreases h[x].rep.Level()
  {
    hide RepOk, Leaves, AllSettled, BackPath;
    SettledAt(h, x);
    var es := h[x].rep.Out();
    if h[x].rep.Btree? {
      var e := es[|es| - 1];
      BackPathStep(h, x);
      LevelBelow(h, x, e);
      BackPathPrivate(h, e);
      LastBelow(h, x, e);
      assert forall y :: y in BackPath(h, x) <==> y == x || y in BackPath(h, e);
      if h[x].rep.height == 0 {
        BackPathData(h, e);
      }
    } else {
      BackPathData(h, x);
      DataLeaf(h, x);
    }
  }

  lemma BackPathData(h: Heap, x: Id)
    requires Shape(h) && x in h && !h[x].rep.Btree?
    ensures BackPath(h, x) == [x]
  {
  }

  /** The last data edge of a node is that of its last edge. */
  lemma LastBelow(h: Heap, x: Id, e: Id)
    requires Shape(h) && x in h && h[x].rep.Btree? && h[x].rep.Out() != [] && e == Outer(true, h[x].rep.Out())
    requires e in h && Leaves(h, e) != []
    ensures Leaves(h, x) != [] && LastLeaf(h, x) == LastLeaf(h, e)
  {
    hide RepOk, Leaves, Inner;
    LeavesSplit(h, true, x);
    JoinLast(LeavesOf(h, h[x].rep.height, Inner(true, h[x].rep.Out())), Leaves(h, e));
  }

  /** A buffer can be taken if no count on the path is above one, and the flat at its end has the room. */
  lemma HasBufferIs(h: Heap, x: Id, room: nat)
    requires Shape(h) && AllSettled(h, {}) && x in h && h[x].rep.Btree?
    ensures
      var p := BackPath(h, x);
      var e := p[|p| - 1];
      && e in h
      && (HasBuffer(h, x, room) <==>
            && (forall y :: y in p ==> y in h && h[y].rc == 1)
            && h[e].rep.Flat? && |h[e].rep.data| + room <= h[e].rep.capacity)
  {
    hide RepOk, Leaves, PrivateLeg, BackPath;
    BackPathPrivate(h, x);
  }

  /** Walks down the back of the tree as long as its nodes are private. */
  method DiveBack(a: Arena, tree: Id) returns (leg: seq<Id>, isPrivate: bool)
    requires a.Ok() && AllSettled(a.cells, {}) && Shape(a.cells) && tree in a.held && tree in a.cells
    requires a.cells[tree].rep.Btree?
    ensures leg != [] && leg[0] == tree && isPrivate == PrivateLeg(a.cells, true, tree)
    ensures isPrivate ==> OwnedLeg(a.cells, a.held, true, leg, |leg|) && a.cells[leg[|leg| - 1]].rep.height == 0
    ensures isPrivate ==> a.cells[leg[|leg| - 1]].rep.Out() != []
    ensures isPrivate ==>
      Leaves(a.cells, tree) != [] && LastLeaf(a.cells, tree) == Outer(true, a.cells[leg[|leg| - 1]].rep.Out())
  {
    hide Inv, RepOk, Outer, Inner, AllSettled, PrivateLeg, Leaves;
    leg := [tree];
    while a.cells[leg[|leg| - 1]].rc == 1 && a.cells[leg[|leg| - 1]].rep.height > 0
      invariant leg != [] && leg[0] == tree && Leg(a.cells, true, leg)
      invariant forall i :: 0 <= i < |leg| - 1 ==> a.cells[leg[i]].rc == 1
      decreases a.cells[leg[|leg| - 1]].rep.height
    {
      assert a.cells[leg[|leg| - 1]].rep.height == a.cells[tree].rep.height - (|leg| - 1);
      var node := StepDown(a, true, leg, a.cells[tree].rep.height);
      leg := leg + [node];
      assert a.cells[leg[|leg| - 1]].rep.height == a.cells[tree].rep.height - (|leg| - 1);
    }
    isPrivate := a.cells[leg[|leg| - 1]].rc == 1;
    if isPrivate {
      OwnedPrivate(a.cells, leg);
      LegToLast(a.cells, leg);
    } else {
      NotPrivate(a.cells, leg, |leg| - 1);
    }
  }

  lemma NotPrivate(h: Heap, leg: seq<Id>, i: nat)
    requires Shape(h) && Leg(h, true, leg) && i < |leg| && h[leg[i]].rc != 1
    ensures !PrivateLeg(h, true, leg[0])
  {
    if PrivateLeg(h, true, leg[0]) {
      PrivateLegOwned(h, true, leg[0], leg);
    }
  }

  // --- Growing the last flat in place -------------------------------------------------------------------

  /** The path after its flat has grown by `more` and its nodes by as much. */
  ghost predicate PathGrown(h: Heap, leg: seq<Id>, edge: Id, more: seq<byte>, h': Heap) {
    && edge in h && h[edge].rep.Flat?
    && LengthsChanged(h[edge := Cell(h[edge].rc, Flat(h[edge].rep.data + more, h[edge].rep.capacity))], leg, |leg|,
        |more|, h')
  }

  lemma PathGrownFrame(h: Heap, leg: seq<Id>, edge: Id, more: seq<byte>, h': Heap)
    requires PathGrown(h, leg, edge, more, h') && edge !in leg
    ensures h'.Keys == h.Keys && Agree(h, h', PathIds(leg, edge)) && h[edge].rep.Flat?
    ensures forall i :: 0 <= i < |leg| ==>
      leg[i] in h && h[leg[i]].rep.Btree? && h'[leg[i]] == Resized(h[leg[i]], |more|)
    ensures h'[edge] == Cell(h[edge].rc, Flat(h[edge].rep.data + more, h[edge].rep.capacity))
  {
    assert Depths(leg, 0, |leg|) == Ids(leg);
  }

  lemma {:induction false} PathBytes(h: Heap, held: multiset<Id>, leg: seq<Id>, edge: Id, more: seq<byte>, h': Heap,
                                     i: nat)
    requires Inv(h, held) && Shape(h) && Shape(h') && PrivatePath(h, held, leg, edge)
    requires PathGrown(h, leg, edge, more, h') && i < |leg|
    ensures leg[i] in h' && Bytes(h', leg[i]) == Bytes(h, leg[i]) + more
    decreases |leg| - i
  {
    hide Inv, RepOk, Outer, Inner, Bytes, BytesOf, PathGrown, Join, LengthsChanged;
    EdgeOffLeg(h, held, leg, edge);
    PathGrownFrame(h, leg, edge, more, h');
    PathClosed(h, held, leg, edge);
    PathInner(h, held, leg, edge, i);
    var k, es := h[leg[i]].rep.height, h[leg[i]].rep.Out();
    var inner, e := Inner(true, es), Outer(true, es);
    NodeBytes(h, leg[i]);
    NodeBytes(h', leg[i]);
    OuterBytes(h, k, true, es);
    OuterBytes(h', k, true, es);
    BytesOfFrame(h, h', PathIds(leg, edge), k, inner);
    if i < |leg| - 1 {
      assert leg[i + 1] == e;
      PathBytes(h, held, leg, edge, more, h', i + 1);
      JoinAssoc(true, BytesOf(h, k, inner), Bytes(h, e), more);
    } else {
      FlatBytes(h, edge);
      FlatBytes(h', edge);
      JoinAssoc(true, BytesOf(h, k, inner), Bytes(h, e), more);
    }
    JoinBack(Bytes(h, leg[i]), more);
    JoinBack(Bytes(h, e), more);
  }

  lemma JoinBack(a: seq<byte>, b: seq<byte>)
    ensures Join(true, a, b) == a + b
  {
  }

  lemma FlatBytes(h: Heap, x: Id)
    requires Shape(h) && x in h && h[x].rep.Flat?
    ensures Bytes(h, x) == h[x].rep.data
  {
    BytesOfData(h, x);
  }

  lemma EdgeOffLeg(h: Heap, held: multiset<Id>, leg: seq<Id>, edge: Id)
    requires PrivatePath(h, held, leg, edge)
    ensures edge !in leg
  {
  }

  lemma PathOthers(h: Heap, held: multiset<Id>, leg: seq<Id>, edge: Id, h': Heap)
    requires Inv(h, held) && Shape(h) && Shape(h') && PrivatePath(h, held, leg, edge) && h'.Keys == h.Keys
    requires Agree(h, h', PathIds(leg, edge))
    ensures Others(h, h', held - multiset{leg[0]})
  {
    hide Inv, RepOk, Bytes, Outer, PathIds;
    PathClosed(h, held, leg, edge);
    forall x | x in held - multiset{leg[0]}
      ensures x in h && x in h' && Same(h[x], h'[x]) && Bytes(h, x) == Bytes(h', x)
    {
      HeldIn(h, held, x);
      BytesFrame(h, h', PathIds(leg, edge), x);
    }
  }

  lemma PathSettled(h: Heap, held: multiset<Id>, leg: seq<Id>, edge: Id, more: seq<byte>, h': Heap)
    requires Inv(h, held) && Shape(h) && Shape(h') && AllSettled(h, {}) && PrivatePath(h, held, leg, edge)
    requires PathGrown(h, leg, edge, more, h')
    ensures AllSettled(h', {})
  {
    hide Inv, RepOk, Outer, PathGrown, LengthsChanged, Settled;
    EdgeOffLeg(h, held, leg, edge);
    PathGrownFrame(h, leg, edge, more, h');
    PathClosed(h, held, leg, edge);
    forall x | x in h' ensures Settled(h', x) {
      if x in leg {
        var i :| 0 <= i < |leg| && leg[i] == x;
        LegSettled(h, held, leg, edge, more, h', i);
      } else if x == edge {
        DataSettled(h', x);
      } else {
        assert x !in PathIds(leg, edge);
        SettledKept(h, h', x);
      }
    }
  }

  lemma LegSettled(h: Heap, held: multiset<Id>, leg: seq<Id>, edge: Id, more: seq<byte>, h': Heap, i: nat)
    requires Inv(h, held) && Shape(h) && Shape(h') && AllSettled(h, {}) && PrivatePath(h, held, leg, edge)
    requires PathGrown(h, leg, edge, more, h') && i < |leg|
    ensures leg[i] in h' && Settled(h', leg[i])
  {
    hide Inv, RepOk, Outer, Inner, PathGrown, LengthsChanged, Settled, Join, PathIds, AllSettled;
    EdgeOffLeg(h, held, leg, edge);
    PathGrownFrame(h, leg, edge, more, h');
    PathInner(h, held, leg, edge, i);
    var x := leg[i];
    var es := h[x].rep.Out();
    OuterLen(h, true, x);
    SplitOuter(true, es);
    InnerIn(true, es);
    EdgesBelow(h, x);
    SumLenFrame(h, h', Inner(true, es));
    SumLenJoin(h', true, Inner(true, es), [Outer(true, es)]);
    assert i < |leg| - 1 ==> Outer(true, es) == leg[i + 1];
    assert SumLen(h', [Outer(true, es)]) == h'[Outer(true, es)].rep.Len() + SumLen(h', []);
    JustSettled(h', x);
  }

  /** The room left in a flat. */
  function Room(rep: Rep): int {
    if rep.Flat? then rep.capacity - |rep.data| else 0
  }

  /** The room in the last flat of a tree that alone leads to it. */
  ghost function SpareBelow(h: Heap, x: Id): nat
    requires Shape(h)
  {
    if HasBuffer(h, x, 0) then Room(h[LastLeaf(h, x)].rep) else 0
  }

  /** The room of the last flat, if no count on the path to it is above one. */
  lemma SpareBelowIs(h: Heap, x: Id)
    requires Shape(h) && AllSettled(h, {}) && x in h && h[x].rep.Btree?
    ensures
      var p := BackPath(h, x);
      var e := p[|p| - 1];
      && e in h && (h[e].rep.Flat? ==> |h[e].rep.data| <= h[e].rep.capacity)
      && SpareBelow(h, x) ==
           if (forall y :: y in p ==> y in h && h[y].rc == 1) && h[e].rep.Flat?
           then h[e].rep.capacity - |h[e].rep.data| else 0
  {
    hide Leaves, PrivateLeg, BackPath, HasBuffer, AllSettled;
    HasBufferIs(h, x, 0);
    BackPathPrivate(h, x);
    var p := BackPath(h, x);
    assert RepOk(h, h[p[|p| - 1]].rep);
  }

  /**
  Appends as much of `data` as fits to the last flat of `tree`, if nothing else can see it, and
  says how much that was: nothing unless every node down to the flat, and the flat, has count one.
  */
  method AppendInPlace(a: Arena, tree: Id, data: seq<byte>) returns (n: nat)
    requires a.Ok() && AllSettled(a.cells, {}) && tree in a.held && a.cells[tree].rep.Btree?
    modifies a
    ensures a.Ok() && a.next == old(a.next) && a.held == old(a.held) && n <= |data|
    ensures n == if |data| < old(SpareBelow(a.cells, tree)) then |data| else old(SpareBelow(a.cells, tree))
    ensures
      var h, p := old(a.cells), old(BackPath(a.cells, tree));
      var e, sole := p[|p| - 1], forall y :: y in p ==> y in h && h[y].rc == 1;
      && e in h && e in a.cells
      && if sole && h[e].rep.Flat? then
           var spare := h[e].rep.capacity - |h[e].rep.data|;
           && n == (if |data| < spare then |data| else spare)
           && a.cells[e] == Cell(1, Flat(h[e].rep.data + data[..n], h[e].rep.capacity))
         else n == 0
    ensures n == 0 ==> a.cells == old(a.cells)
    ensures Shape(a.cells) && Leaves(a.cells, tree) == old(Leaves(a.cells, tree))
    ensures Outcome(old(a.cells), old(a.held) - multiset{tree}, a.cells, a.held, tree,
        old(Bytes(a.cells, tree)) + data[..n])
    ensures tree in a.cells && a.cells[tree].rep.Level() == old(a.cells)[tree].rep.Level()
  {
    hide Inv, RepOk, Outer, Bytes, AllSettled, PrivateLeg, Leaves, Outcome, BackPath, SpareBelow, LastLeaf;
    HeldIn(a.cells, a.held, tree);
    InvShape(a.cells, a.held);
    ghost var h := a.cells;
    SpareBelowIs(h, tree);
    BackPathPrivate(h, tree);
    n := FillLast(a, tree, data);
    NoMore(h, LastLeaf(h, tree), data);
  }

  lemma NoMore(h: Heap, e: Id, data: seq<byte>)
    ensures e in h && h[e].rep.Flat? ==> Flat(h[e].rep.data + data[..0], h[e].rep.capacity) == h[e].rep
  {
    assert e in h && h[e].rep.Flat? ==> h[e].rep.data + data[..0] == h[e].rep.data;
  }

  method FillLast(a: Arena, tree: Id, data: seq<byte>) returns (n: nat)
    requires a.Ok() && AllSettled(a.cells, {}) && tree in a.held && a.cells[tree].rep.Btree?
    modifies a
    ensures a.Ok() && a.next == old(a.next) && a.held == old(a.held) && n <= |data|
    ensures Leaves(old(a.cells), tree) != []
    ensures n == if |data| < old(SpareBelow(a.cells, tree)) then |data| else old(SpareBelow(a.cells, tree))
    ensures n > 0 ==>
      var e := old(LastLeaf(a.cells, tree));
      && e in old(a.cells) && old(a.cells)[e].rep.Flat? && e in a.cells
      && a.cells[e] == Cell(1, Flat(old(a.cells)[e].rep.data + data[..n], old(a.cells)[e].rep.capacity))
    ensures n == 0 ==> a.cells == old(a.cells)
    ensures Shape(a.cells) && Leaves(a.cells, tree) == old(Leaves(a.cells, tree))
    ensures Outcome(old(a.cells), old(a.held) - multiset{tree}, a.cells, a.held, tree,
        old(Bytes(a.cells, tree)) + data[..n])
    ensures tree in a.cells && a.cells[tree].rep.Level() == old(a.cells)[tree].rep.Level()
  {
    hide Inv, RepOk, Outer, Bytes, AllSettled, PrivateLeg, Leaves, Outcome;
    HeldIn(a.cells, a.held, tree);
    ghost var h, held := a.cells, a.held;
    BackPathPrivate(h, tree);
    var leg, isPrivate := DiveBack(a, tree);
    n := 0;
    NoneAppended(h, held, tree, data);
    if isPrivate {
      var edge := OuterEdge(a, leg);
      if data != [] && a.cells[edge].rc == 1 && Room(a.cells[edge].rep) > 0 {
        n := if |data| < Room(a.cells[edge].rep) then |data| else Room(a.cells[edge].rep);
        GrowPath(a, leg, edge, data[..n]);
      }
    }
    InvShape(a.cells, a.held);
  }

  lemma NoneAppended(h: Heap, held: multiset<Id>, x: Id, data: seq<byte>)
    requires Inv(h, held) && Shape(h) && AllSettled(h, {}) && x in held && x in h
    ensures Outcome(h, held - multiset{x}, h, held, x, Bytes(h, x) + data[..0])
  {
    hide Inv, AllSettled, Bytes;
    Unchanged(h, held, x);
    NearWhole(true, Bytes(h, x));
    assert Bytes(h, x) + data[..0] == Bytes(h, x);
  }

  method OuterEdge(a: Arena, leg: seq<Id>) returns (edge: Id)
    requires Shape(a.cells) && Leg(a.cells, true, leg) && a.cells[leg[|leg| - 1]].rep.height == 0
    requires a.cells[leg[|leg| - 1]].rep.Out() != []
    ensures edge == Outer(true, a.cells[leg[|leg| - 1]].rep.Out()) && edge in a.cells && !a.cells[edge].rep.Btree?
  {
    var t := leg[|leg| - 1];
    edge := Outer(true, a.cells[t].rep.Out());
    InnerIn(true, a.cells[t].rep.Out());
    NodeOk(a.cells, t);
    assert IsEdge(a.cells, 0, edge);
  }

  /** Adds `more` to the flat at the end of a private path. */
  method GrowPath(a: Arena, leg: seq<Id>, edge: Id, more: seq<byte>)
    requires a.Ok() && AllSettled(a.cells, {}) && PrivatePath(a.cells, a.held, leg, edge) && more != []
    requires a.cells[edge].rep.Flat? && |more| <= Room(a.cells[edge].rep)
    modifies a
    ensures a.Ok() && a.next == old(a.next) && a.held == old(a.held)
    ensures Outcome(old(a.cells), old(a.held) - multiset{leg[0]}, a.cells, a.held, leg[0],
        old(Bytes(a.cells, leg[0])) + more)
    ensures leg[0] in a.cells && a.cells[leg[0]].rep.Level() == old(a.cells)[leg[0]].rep.Level()
    ensures Shape(a.cells) && Leaves(a.cells, leg[0]) == old(Leaves(a.cells, leg[0]))
    ensures
      var flat := old(a.cells)[edge].rep;
      edge in a.cells && a.cells[edge] == Cell(1, Flat(flat.data + more, flat.capacity))
  {
    hide Inv, RepOk, Outer, Bytes, AllSettled, Outcome, LengthsChanged, Leaves;
    InvShape(a.cells, a.held);
    ghost var h, held := a.cells, a.held;
    EdgeOffLeg(h, held, leg, edge);
    InnerIn(true, h[leg[|leg| - 1]].rep.Out());
    OwnedBacksNoSubstring(h, held, leg[|leg| - 1], edge);
    var rep := Flat(a.cells[edge].rep.data + more, a.cells[edge].rep.capacity);
    assert rep.Out() == a.cells[edge].rep.Out();
    FlatOk(a.cells, rep);
    WriteData(a, edge, rep);
    forall i, j | 0 <= i < j < |leg| ensures leg[i] != leg[j] {
      LegDistinct(h, true, leg, i, j);
    }
    ChangeLengths(a, leg, |leg|, |more|);
    assert PathGrown(h, leg, edge, more, a.cells);
    PathOutcome(h, held, leg, edge, more, a.cells);
    InvShape(a.cells, a.held);
    PathLeaves(h, held, leg, edge, more, a.cells);
    PathGrownFrame(h, leg, edge, more, a.cells);
  }

  /** The path has the same data edges as before. */
  lemma PathLeaves(h: Heap, held: multiset<Id>, leg: seq<Id>, edge: Id, more: seq<byte>, h': Heap)
    requires Shape(h) && Shape(h') && PrivatePath(h, held, leg, edge) && PathGrown(h, leg, edge, more, h')
    ensures leg[0] in h' && Leaves(h', leg[0]) == Leaves(h, leg[0])
  {
    hide RepOk, Leaves, Outer;
    EdgeOffLeg(h, held, leg, edge);
    PathGrownFrame(h, leg, edge, more, h');
    assert AgreeEdges(h, h', {});
    LeavesFrameEdges(h, h', {}, leg[0]);
  }

  lemma FlatOk(h: Heap, rep: Rep)
    requires rep.Flat? && 0 < |rep.data| <= rep.capacity
    ensures RepOk(h, rep)
  {
  }

  lemma PathOutcome(h: Heap, held: multiset<Id>, leg: seq<Id>, edge: Id, more: seq<byte>, h': Heap)
    requires Inv(h, held) && Shape(h) && AllSettled(h, {}) && PrivatePath(h, held, leg, edge)
    requires PathGrown(h, leg, edge, more, h')
    requires Inv(h', held)
    ensures Outcome(h, held - multiset{leg[0]}, h', held, leg[0], Bytes(h, leg[0]) + more)
    ensures leg[0] in h' && h'[leg[0]].rep.Level() == h[leg[0]].rep.Level()
  {
    hide Inv, RepOk, Outer, Bytes, AllSettled, LengthsChanged, PathGrown, Others;
    InvShape(h', held);
    EdgeOffLeg(h, held, leg, edge);
    PathGrownFrame(h, leg, edge, more, h');
    PathBytes(h, held, leg, edge, more, h', 0);
    PathSettled(h, held, leg, edge, more, h');
    PathOthers(h, held, leg, edge, h');
    assert held - multiset{leg[0]} + multiset{leg[0]} == held;
  }

  // --- Taking the last flat out -------------------------------------------------------------------------

  /** A data edge under nodes with a single edge each. */
  ghost predicate SinglePath(h: Heap, x: Id)
    requires Shape(h) && x in h
    decreases h[x].rep.Level()
  {
    h[x].rep.Btree? ==> |h[x].rep.Out()| == 1 && (LevelBelow(h, x, h[x].rep.Out()[0]); SinglePath(h, h[x].rep.Out()[0]))
  }

  /** The nodes with a single edge at the top of `x` all have count one. */
  ghost predicate ChainPrivate(h: Heap, x: Id)
    requires Shape(h) && x in h
    decreases h[x].rep.Level()
  {
    h[x].rep.Btree? && |h[x].rep.Out()| == 1 ==>
      h[x].rc == 1 && (LevelBelow(h, x, h[x].rep.Out()[0]); ChainPrivate(h, h[x].rep.Out()[0]))
  }

  /**
  What is left of `x` without its last data edge can be folded: no shared node is among the
  nodes with a single edge that are freed.
  */
  ghost predicate SafeToTake(h: Heap, x: Id)
    requires Shape(h) && x in h
    decreases h[x].rep.Level()
  {
    h[x].rep.Btree? && h[x].rep.Out() != [] ==>
      var es := h[x].rep.Out();
      InnerIn(true, es);
      LevelBelow(h, x, Outer(true, es));
      LevelBelow(h, x, es[0]);
      if SinglePath(h, Outer(true, es)) then |es| == 2 ==> ChainPrivate(h, es[0])
      else |es| == 1 ==> SafeToTake(h, Outer(true, es))
  }

  /** What hangs below depth `d` of the leg. */
  function Below(leg: seq<Id>, edge: Id, d: nat): Id
    requires d <= |leg|
  {
    if d < |leg| then leg[d] else edge
  }

  /** The nodes of the leg from depth `d` on have a single edge each. */
  ghost predicate SingleFrom(h: Heap, leg: seq<Id>, edge: Id, d: nat) {
    d <= |leg| && forall i :: d <= i < |leg| ==> leg[i] in h && h[leg[i]].rep.Out() == [Below(leg, edge, i + 1)]
  }

  /** Frees the nodes of the leg from depth `d` on, each with a single edge; `edge` stays. */
  method DeleteChain(a: Arena, leg: seq<Id>, d: nat, edge: Id)
    requires a.Ok() && d <= |leg| && Below(leg, edge, d) in a.held && SingleFrom(a.cells, leg, edge, d)
    requires forall i :: d <= i < |leg| ==> leg[i] in a.cells && a.cells[leg[i]].rc == 1
    requires forall i, j :: d <= i < j < |leg| ==> leg[i] != leg[j]
    modifies a
    ensures a.Ok() && a.next == old(a.next)
    ensures a.held == old(a.held) - multiset{Below(leg, edge, d)} + multiset{edge}
    ensures a.cells == old(a.cells) - Depths(leg, d, |leg|)
  {
    hide Inv, RepOk, SingleFrom, Below, Depths;
    var i := d;
    ghost var h, rest := a.cells, a.held - multiset{Below(leg, edge, d)};
    assert a.held == rest + multiset{Below(leg, edge, d)};
    NoDepths(leg, d);
    assert a.cells == h - Depths(leg, d, d);
    while i < |leg|
      invariant d <= i <= |leg| && a.Ok() && a.next == old(a.next)
      invariant a.held == rest + multiset{Below(leg, edge, i)}
      invariant a.cells == h - Depths(leg, d, i)
    {
      NotYet(leg, d, i);
      SingleAt(h, leg, edge, d, i);
      DepthsNext(leg, d, i);
      Delete(a, leg[i]);
      assert h - Depths(leg, d, i) - {leg[i]} == h - (Depths(leg, d, i) + {leg[i]});
      ChainHeld(rest, leg[i], Below(leg, edge, i + 1));
      i := i + 1;
    }
    SingleEnd(leg, edge);
  }

  lemma NoDepths(leg: seq<Id>, d: nat)
    requires d <= |leg|
    ensures Depths(leg, d, d) == {}
  {
  }

  lemma NotYet(leg: seq<Id>, d: nat, i: nat)
    requires d <= i < |leg| && forall i, j :: d <= i < j < |leg| ==> leg[i] != leg[j]
    ensures leg[i] !in Depths(leg, d, i)
  {
  }

  lemma SingleAt(h: Heap, leg: seq<Id>, edge: Id, d: nat, i: nat)
    requires SingleFrom(h, leg, edge, d) && d <= i < |leg|
    ensures leg[i] in h && h[leg[i]].rep.Out() == [Below(leg, edge, i + 1)] && Below(leg, edge, i) == leg[i]
  {
  }

  lemma SingleEnd(leg: seq<Id>, edge: Id)
    ensures Below(leg, edge, |leg|) == edge
  {
  }

  lemma ChainHeld(held: multiset<Id>, x: Id, y: Id)
    ensures held + multiset{x} - multiset{x} + multiset([y]) == held + multiset{y}
  {
  }

  /** The path without its flat: the nodes from depth `d` on are gone, the others have lost its length. */
  ghost predicate PathCut(h: Heap, leg: seq<Id>, d: nat, edge: Id, h': Heap) {
    var loss: int := if edge in h then h[edge].rep.Len() else 0;
    && 0 < d <= |leg| && edge in h
    && (forall i :: 0 <= i < d ==> leg[i] in h && IsNode(h[leg[i]].rep) && h[leg[i]].rep.length >= loss && leg[i] in h')
    && h'.Keys == h.Keys - Depths(leg, d, |leg|)
    && (forall x :: x in h' && x !in Depths(leg, 0, d) ==> h'[x] == h[x])
    && (forall i :: 0 <= i < d - 1 ==> h'[leg[i]] == Resized(h[leg[i]], -loss))
    && h[leg[d - 1]].rep.Out() != []
    && h'[leg[d - 1]] == Resized(Cell(h[leg[d - 1]].rc, WithoutLast(h[leg[d - 1]].rep)), -loss)
  }

  lemma {:induction false} SingleBelow(h: Heap, leg: seq<Id>, edge: Id, d: nat, i: nat)
    requires Shape(h) && AllSettled(h, {}) && Leg(h, true, leg) && SingleFrom(h, leg, edge, d) && d <= i <= |leg|
    requires edge in h && !h[edge].rep.Btree?
    ensures Below(leg, edge, i) in h && SinglePath(h, Below(leg, edge, i))
    ensures Leaves(h, Below(leg, edge, i)) == [edge] && Bytes(h, Below(leg, edge, i)) == Bytes(h, edge)
    ensures h[Below(leg, edge, i)].rep.Len() == h[edge].rep.Len()
    decreases |leg| - i
  {
    hide RepOk, Outer, Inner, AllSettled, Leaves;
    DataLeaf(h, edge);
    if i < |leg| {
      SingleBelow(h, leg, edge, d, i + 1);
      var x, e := leg[i], Below(leg, edge, i + 1);
      assert h[x].rep.Out() == [e];
      LeavesOfNode(h, x);
      LeavesOfOne(h, h[x].rep.height, e);
      LenIsBytes(h, x);
      LenIsBytes(h, e);
    }
  }

  /** Every node of the path holds at least the bytes of its flat. */
  lemma {:induction false} PathLen(h: Heap, held: multiset<Id>, leg: seq<Id>, edge: Id, i: nat)
    requires AllSettled(h, {}) && PrivatePath(h, held, leg, edge) && i < |leg|
    ensures h[leg[i]].rep.length >= h[edge].rep.Len()
    decreases |leg| - i
  {
    hide Inner, Outer;
    OuterLen(h, true, leg[i]);
    if i < |leg| - 1 {
      PathLen(h, held, leg, edge, i + 1);
      assert Outer(true, h[leg[i]].rep.Out()) == leg[i + 1];
    }
  }

  lemma CutFrame(h: Heap, held: multiset<Id>, leg: seq<Id>, d: nat, edge: Id, h': Heap)
    requires PrivatePath(h, held, leg, edge) && PathCut(h, leg, d, edge, h')
    ensures Agree(h, h', PathIds(leg, edge)) && Agree(h', h, PathIds(leg, edge))
    ensures forall x :: x in h && x !in PathIds(leg, edge) ==> x in h' && h'[x] == h[x]
    ensures forall x :: x in h' ==> x in h && h'[x].rep.Level() == h[x].rep.Level()
    ensures edge in h' && h'[edge] == h[edge]
  {
    hide Outer;
    EdgeOffLeg(h, held, leg, edge);
    forall x | x in h' && x in Depths(leg, 0, d) ensures h'[x].rep.Level() == h[x].rep.Level() {
      var i :| 0 <= i < d && leg[i] == x;
    }
  }

  lemma {:induction false} CutBytesAt(h: Heap, held: multiset<Id>, leg: seq<Id>, d: nat, edge: Id, h': Heap, i: nat)
    requires Inv(h, held) && Shape(h) && Shape(h') && AllSettled(h, {}) && PrivatePath(h, held, leg, edge)
    requires SingleFrom(h, leg, edge, d) && PathCut(h, leg, d, edge, h') && i < d
    ensures leg[i] in h' && Bytes(h, leg[i]) == Bytes(h', leg[i]) + Bytes(h, edge)
    decreases d - i
  {
    hide Inv, RepOk, Outer, Inner, Bytes, BytesOf, Join, AllSettled, SingleFrom;
    CutFrame(h, held, leg, d, edge, h');
    PathClosed(h, held, leg, edge);
    PathInner(h, held, leg, edge, i);
    CutOut(h, held, leg, d, edge, h', i);
    var k, es := h[leg[i]].rep.height, h[leg[i]].rep.Out();
    var inner, e := Inner(true, es), Outer(true, es);
    NodeBytes(h, leg[i]);
    NodeBytes(h', leg[i]);
    OuterBytes(h, k, true, es);
    if i < d - 1 {
      OuterBytes(h', k, true, es);
      BytesOfFrame(h, h', PathIds(leg, edge), k, inner);
      CutBytesAt(h, held, leg, d, edge, h', i + 1);
      JoinAssoc(true, BytesOf(h, k, inner), Bytes(h', e), Bytes(h, edge));
      JoinBack(Bytes(h', e), Bytes(h, edge));
    } else {
      BytesOfFrame(h, h', PathIds(leg, edge), k, inner);
      SingleBelow(h, leg, edge, d, d);
    }
    JoinBack(Bytes(h', leg[i]), Bytes(h, edge));
  }

  /** The same for data edges: the path has lost its last one. */
  lemma {:induction false} CutLeavesAt(h: Heap, held: multiset<Id>, leg: seq<Id>, d: nat, edge: Id, h': Heap, i: nat)
    requires Inv(h, held) && Shape(h) && Shape(h') && AllSettled(h, {}) && PrivatePath(h, held, leg, edge)
    requires SingleFrom(h, leg, edge, d) && PathCut(h, leg, d, edge, h') && i < d
    ensures leg[i] in h' && Leaves(h, leg[i]) == Leaves(h', leg[i]) + [edge]
    decreases d - i
  {
    hide Inv, RepOk, Outer, Inner, Leaves, LeavesOf, AllSettled, SingleFrom;
    CutFrame(h, held, leg, d, edge, h');
    PathClosed(h, held, leg, edge);
    PathInner(h, held, leg, edge, i);
    CutOut(h, held, leg, d, edge, h', i);
    var k, es := h[leg[i]].rep.height, h[leg[i]].rep.Out();
    var inner, e := Inner(true, es), Outer(true, es);
    LeavesSplit(h, true, leg[i]);
    LeavesOfFrame(h, h', PathIds(leg, edge), k, inner);
    if i < d - 1 {
      LeavesSplit(h', true, leg[i]);
      CutLeavesAt(h, held, leg, d, edge, h', i + 1);
    } else {
      SingleBelow(h, leg, edge, d, d);
      LeavesOfNode(h', leg[i]);
    }
  }

  lemma CutOut(h: Heap, held: multiset<Id>, leg: seq<Id>, d: nat, edge: Id, h': Heap, i: nat)
    requires PrivatePath(h, held, leg, edge) && PathCut(h, leg, d, edge, h') && i < d
    ensures
      var es := h[leg[i]].rep.Out();
      && es != [] && leg[i] in h' && h'[leg[i]].rep.Btree? && h'[leg[i]].rep.height == h[leg[i]].rep.height
      && h'[leg[i]].rc == 1
      && h'[leg[i]].rep.length == h[leg[i]].rep.length - h[edge].rep.Len()
      && h'[leg[i]].rep.Out() == (if i < d - 1 then es else Inner(true, es))
      && Outer(true, es) == Below(leg, edge, i + 1)
  {
    hide Outer, Inner;
  }

  lemma CutSettled(h: Heap, held: multiset<Id>, leg: seq<Id>, d: nat, edge: Id, h': Heap)
    requires Inv(h, held) && Shape(h) && Shape(h') && AllSettled(h, {}) && PrivatePath(h, held, leg, edge)
    requires SingleFrom(h, leg, edge, d) && PathCut(h, leg, d, edge, h') && |h[leg[d - 1]].rep.Out()| > 1
    ensures AllSettled(h', {})
  {
    hide Inv, RepOk, Outer, PathCut, Settled, SingleFrom;
    CutFrame(h, held, leg, d, edge, h');
    PathClosed(h, held, leg, edge);
    forall x | x in h' ensures Settled(h', x) {
      if x !in PathIds(leg, edge) {
        SettledKept(h, h', x);
      } else if x == edge {
        DataSettled(h', x);
      } else {
        var i :| 0 <= i < |leg| && leg[i] == x;
        CutIndex(h, leg, d, edge, h', i);
        CutLegSettled(h, held, leg, d, edge, h', i);
      }
    }
  }

  lemma CutIndex(h: Heap, leg: seq<Id>, d: nat, edge: Id, h': Heap, i: nat)
    requires PathCut(h, leg, d, edge, h') && i < |leg| && leg[i] in h'
    ensures i < d
  {
    assert forall j :: d <= j < |leg| ==> leg[j] in Depths(leg, d, |leg|);
  }

  lemma CutLegSettled(h: Heap, held: multiset<Id>, leg: seq<Id>, d: nat, edge: Id, h': Heap, i: nat)
    requires Inv(h, held) && Shape(h) && Shape(h') && AllSettled(h, {}) && PrivatePath(h, held, leg, edge)
    requires SingleFrom(h, leg, edge, d) && PathCut(h, leg, d, edge, h') && |h[leg[d - 1]].rep.Out()| > 1 && i < d
    ensures leg[i] in h' && Settled(h', leg[i])
  {
    hide Inv, RepOk, Outer, PathCut, Settled, SingleFrom, Inner, AllSettled, Join;
    CutFrame(h, held, leg, d, edge, h');
    CutIs(h, leg, d, edge, h');
    PathInner(h, held, leg, edge, i);
    CutOut(h, held, leg, d, edge, h', i);
    var x, es := leg[i], h[leg[i]].rep.Out();
    OuterLen(h, true, x);
    InnerIn(true, es);
    InnerSize(es);
    EdgesBelow(h, x);
    SumLenFrame(h, h', Inner(true, es));
    if i < d - 1 {
      CutOut(h, held, leg, d, edge, h', i + 1);
      SplitOuter(true, es);
      SumLenJoin(h', true, Inner(true, es), [Outer(true, es)]);
      assert SumLen(h', [Outer(true, es)]) == h'[Outer(true, es)].rep.Len() + SumLen(h', []);
    } else {
      SingleBelow(h, leg, edge, d, d);
    }
    JustSettled(h', x);
  }

  lemma CutIs(h: Heap, leg: seq<Id>, d: nat, edge: Id, h': Heap)
    requires PathCut(h, leg, d, edge, h')
    ensures 0 < d <= |leg|
  {
  }

  lemma CutOthers(h: Heap, held: multiset<Id>, leg: seq<Id>, d: nat, edge: Id, h': Heap)
    requires Inv(h, held) && Shape(h) && Shape(h') && PrivatePath(h, held, leg, edge) && PathCut(h, leg, d, edge, h')
    ensures Others(h, h', held - multiset{leg[0]})
  {
    hide Inv, RepOk, Bytes, Outer, PathIds, PathCut;
    CutFrame(h, held, leg, d, edge, h');
    PathClosed(h, held, leg, edge);
    forall x | x in held - multiset{leg[0]}
      ensures x in h && x in h' && Same(h[x], h'[x]) && Bytes(h, x) == Bytes(h', x)
    {
      HeldIn(h, held, x);
      BytesFrame(h, h', PathIds(leg, edge), x);
    }
  }

  /** The nodes from depth `d` on are gone, and so is the edge to them. */
  ghost predicate ChainGone(h: Heap, leg: seq<Id>, d: nat, h': Heap) {
    && 0 < d <= |leg| && leg[d - 1] in h && IsNode(h[leg[d - 1]].rep) && h[leg[d - 1]].rep.Out() != []
    && h' == (h - Depths(leg, d, |leg|))[leg[d - 1] := Cell(h[leg[d - 1]].rc, WithoutLast(h[leg[d - 1]].rep))]
  }

  /** Takes the flat at the end of a private path out of the tree; depth `d - 1` is the last to stay. */
  method CutPath(a: Arena, leg: seq<Id>, d: nat, edge: Id)
    requires a.Ok() && AllSettled(a.cells, {}) && PrivatePath(a.cells, a.held, leg, edge) && 0 < d <= |leg|
    requires SingleFrom(a.cells, leg, edge, d)
    modifies a
    ensures a.Ok() && a.next == old(a.next) && a.held == old(a.held) + multiset{edge}
    ensures PathCut(old(a.cells), leg, d, edge, a.cells)
  {
    hide Inv, RepOk, Outer, Inner, AllSettled, PathCut, LengthsChanged, ChainGone;
    InvShape(a.cells, a.held);
    ghost var h, held := a.cells, a.held;
    var length: int := a.cells[edge].rep.Len();
    CutChain(a, leg, d, edge);
    ghost var h2 := a.cells;
    forall i | 0 <= i < d ensures h[leg[i]].rep.length >= length {
      PathLen(h, held, leg, edge, i);
    }
    CutUpper(h, held, leg, d, edge, h2);
    ChangeLengths(a, leg, d, -length);
    CutIsPathCut(h, held, leg, d, edge, h2, a.cells);
  }

  method CutChain(a: Arena, leg: seq<Id>, d: nat, edge: Id)
    requires a.Ok() && PrivatePath(a.cells, a.held, leg, edge) && 0 < d <= |leg| && SingleFrom(a.cells, leg, edge, d)
    modifies a
    ensures a.Ok() && a.next == old(a.next) && a.held == old(a.held) + multiset{edge}
    ensures ChainGone(old(a.cells), leg, d, a.cells)
  {
    hide Inv, RepOk, Outer, Inner;
    InvShape(a.cells, a.held);
    ghost var h, held := a.cells, a.held;
    var t := leg[d - 1];
    ghost var e := Below(leg, edge, d);
    PathInner(h, held, leg, edge, d - 1);
    NodeOk(h, t);
    assert e == Outer(true, h[t].rep.Out());
    DetachOk(h, t, e);
    DetachBag(held, Inner(true, h[t].rep.Out()), e);
    WriteNode(a, t, Cell(a.cells[t].rc, WithoutLast(a.cells[t].rep)));
    ChainReady(h, held, leg, d, edge, a.cells);
    DeleteChain(a, leg, d, edge);
    CutHeld(held, e, edge);
    CutTop(h, held, leg, d, edge);
  }

  lemma CutHeld(held: multiset<Id>, e: Id, edge: Id)
    ensures held + multiset{e} - multiset{e} + multiset{edge} == held + multiset{edge}
  {
  }

  lemma CutTop(h: Heap, held: multiset<Id>, leg: seq<Id>, d: nat, edge: Id)
    requires PrivatePath(h, held, leg, edge) && 0 < d <= |leg|
    ensures leg[d - 1] !in Depths(leg, d, |leg|)
  {
    hide Outer;
    forall i | d <= i < |leg| ensures leg[i] != leg[d - 1] {
      LegDistinct(h, true, leg, i, d - 1);
    }
  }

  lemma ChainReady(h: Heap, held: multiset<Id>, leg: seq<Id>, d: nat, edge: Id, h1: Heap)
    requires PrivatePath(h, held, leg, edge) && 0 < d <= |leg| && SingleFrom(h, leg, edge, d)
    requires leg[d - 1] in h1 && h1 == h[leg[d - 1] := h1[leg[d - 1]]]
    ensures SingleFrom(h1, leg, edge, d)
    ensures forall i :: d <= i < |leg| ==> leg[i] in h1 && h1[leg[i]].rc == 1
    ensures forall i, j :: d <= i < j < |leg| ==> leg[i] != leg[j]
  {
    hide Outer, Below;
    forall i | d <= i < |leg| ensures leg[i] in h1 && h1[leg[i]] == h[leg[i]] {
      LegDistinct(h, true, leg, i, d - 1);
    }
    forall i, j | d <= i < j < |leg| ensures leg[i] != leg[j] {
      LegDistinct(h, true, leg, i, j);
    }
  }

  lemma CutUpper(h: Heap, held: multiset<Id>, leg: seq<Id>, d: nat, edge: Id, h2: Heap)
    requires PrivatePath(h, held, leg, edge) && ChainGone(h, leg, d, h2)
    ensures forall i :: 0 <= i < d ==> leg[i] in h2 && h2[leg[i]].rep.Btree?
    ensures forall i :: 0 <= i < d ==> h2[leg[i]].rep.length == h[leg[i]].rep.length
    ensures forall i :: 0 <= i < d - 1 ==> h2[leg[i]] == h[leg[i]]
    ensures forall i, j :: 0 <= i < j < d ==> leg[i] != leg[j]
  {
    hide Outer;
    forall i, j | 0 <= i < j < |leg| ensures leg[i] != leg[j] {
      LegDistinct(h, true, leg, i, j);
    }
    forall i | 0 <= i < d ensures leg[i] !in Depths(leg, d, |leg|) {
    }
  }

  lemma CutIsPathCut(h: Heap, held: multiset<Id>, leg: seq<Id>, d: nat, edge: Id, h2: Heap, h3: Heap)
    requires Shape(h) && PrivatePath(h, held, leg, edge) && ChainGone(h, leg, d, h2)
    requires forall i :: 0 <= i < d ==> h[leg[i]].rep.length >= h[edge].rep.Len()
    requires
      var loss: int := h[edge].rep.Len();
      LengthsChanged(h2, leg, d, -loss, h3)
    ensures PathCut(h, leg, d, edge, h3)
  {
    hide PrivatePath, WithoutLast, RepOk, Shape, LengthsChanged, Resized, Depths, ChainGone, IsNode;
    PathNodes(h, held, leg, edge);
    ChainBounds(h, leg, d, h2);
    var loss: int := h[edge].rep.Len();
    CutUpper(h, held, leg, d, edge, h2);
    CutTop(h, held, leg, d, edge);
    CutKeys(h, leg, d, h2, -loss, h3);
    CutRest(h, leg, d, h2, -loss, h3);
    CutLegs(h, leg, d, h2, -loss, h3);
    forall i | 0 <= i < d ensures IsNode(h[leg[i]].rep) {
      NodeOk(h, leg[i]);
    }
  }

  lemma ChainBounds(h: Heap, leg: seq<Id>, d: nat, h2: Heap)
    requires ChainGone(h, leg, d, h2)
    ensures 0 < d <= |leg| && leg[d - 1] in h && IsNode(h[leg[d - 1]].rep)
  {
  }

  lemma CutKeys(h: Heap, leg: seq<Id>, d: nat, h2: Heap, delta: int, h3: Heap)
    requires ChainGone(h, leg, d, h2) && LengthsChanged(h2, leg, d, delta, h3) && leg[d - 1] !in Depths(leg, d, |leg|)
    ensures 0 < d <= |leg| && h[leg[d - 1]].rep.Out() != []
    ensures h3.Keys == h.Keys - Depths(leg, d, |leg|) && forall i :: 0 <= i < d ==> leg[i] in h3
  {
    hide WithoutLast, Depths, Resized;
  }

  lemma CutRest(h: Heap, leg: seq<Id>, d: nat, h2: Heap, delta: int, h3: Heap)
    requires ChainGone(h, leg, d, h2) && LengthsChanged(h2, leg, d, delta, h3)
    ensures forall x :: x in h3 && x !in Depths(leg, 0, d) ==> x in h && h3[x] == h[x]
  {
    hide WithoutLast, Resized;
    assert leg[d - 1] in Depths(leg, 0, d);
  }

  lemma CutLegs(h: Heap, leg: seq<Id>, d: nat, h2: Heap, delta: int, h3: Heap)
    requires ChainGone(h, leg, d, h2) && LengthsChanged(h2, leg, d, delta, h3)
    requires forall i :: 0 <= i < d - 1 ==> leg[i] in h && leg[i] in h2 && h2[leg[i]] == h[leg[i]]
    ensures forall i :: 0 <= i < d - 1 ==>
      leg[i] in h3 && h[leg[i]].rep.Btree? && h[leg[i]].rep.length + delta >= 0
      && h3[leg[i]] == Resized(h[leg[i]], delta)
    ensures
      var last := Cell(h[leg[d - 1]].rc, WithoutLast(h[leg[d - 1]].rep));
      leg[d - 1] in h3 && last.rep.Btree? && last.rep.length + delta >= 0 && h3[leg[d - 1]] == Resized(last, delta)
  {
    hide WithoutLast, Depths, Resized;
  }

  lemma PathNodes(h: Heap, held: multiset<Id>, leg: seq<Id>, edge: Id)
    requires PrivatePath(h, held, leg, edge)
    ensures forall i :: 0 <= i < |leg| ==> leg[i] in h && h[leg[i]].rep.Btree?
    ensures edge in h
  {
  }


  // --- Folding the top of the remaining tree ------------------------------------------------------------

  /**
  Frees node `x` whatever its count is (`delete`). All is well only if this was the last
  reference to it.
  */
  method FreeNode(a: Arena, x: Id)
    requires x in a.cells
    modifies a
    ensures a.cells == old(a.cells) - {x} && a.next == old(a.next)
    ensures a.held == old(a.held) - multiset{x} + multiset(old(a.cells)[x].rep.Out())
    ensures old(a.Ok()) && x in old(a.held) && old(a.cells)[x].rc == 1 ==> a.Ok()
  {
    hide Inv;
    if a.Ok() && x in a.held && a.cells[x].rc == 1 {
      DeleteInv(a.cells, a.held, x);
    }
    a.held := a.held - multiset{x} + multiset(a.cells[x].rep.Out());
    a.cells := a.cells - {x};
  }

  /** A cell is missing to which a handle of `rest`, or a cell ranked above `rank`, still refers. */
  ghost predicate Dangling(h: Heap, rest: multiset<Id>, rank: nat) {
    exists m :: m !in h && (m in rest || exists y :: y in h && m in h[y].rep.Out() && h[y].rep.Rank() > rank)
  }

  lemma DanglingIsBroken(h: Heap, rest: multiset<Id>, rank: nat)
    requires Dangling(h, rest, rank)
    ensures !(Shape(h) && forall x :: x in rest ==> x in h)
  {
    if Shape(h) && forall x :: x in rest ==> x in h {
      var m :| m !in h && (m in rest || exists y :: y in h && m in h[y].rep.Out() && h[y].rep.Rank() > rank);
      var y :| y in h && m in h[y].rep.Out();
      EdgeIn(h, y, m);
    }
  }

  lemma DanglingStays(h: Heap, rest: multiset<Id>, x: Id, rank': nat)
    requires x in h && Dangling(h, rest, h[x].rep.Rank()) && rank' <= h[x].rep.Rank()
    ensures Dangling(h - {x}, rest, rank')
  {
    var m :| m !in h && (m in rest || exists y :: y in h && m in h[y].rep.Out() && h[y].rep.Rank() > h[x].rep.Rank());
    if m !in rest {
      var y :| y in h && m in h[y].rep.Out() && h[y].rep.Rank() > h[x].rep.Rank();
      assert y in h - {x};
    }
    assert m !in h - {x};
  }

  /** Freeing a node to which something else refers leaves that dangling. */
  lemma SharedDangles(h: Heap, held: multiset<Id>, rest: multiset<Id>, x: Id, rank': nat)
    requires Inv(h, held) && held == rest + multiset{x} && x in h && h[x].rc != 1 && rank' < h[x].rep.Rank()
    ensures Dangling(h - {x}, rest, rank')
  {
    hide EdgeBag, RepOk;
    if x !in rest {
      assert h[x].rc == EdgeBag(h)[x] + held[x];
      var y := EdgeBagParent(h, x);
      EdgeIn(h, y, x);
      assert y in h - {x};
    }
    assert x !in h - {x};
  }

  /** Freeing a private node with a single edge leaves the edge in its place. */
  lemma FoldStep(h: Heap, held: multiset<Id>, x: Id, e: Id, h': Heap, held': multiset<Id>)
    requires Inv(h, held) && Shape(h) && AllSettled(h, {}) && x in h && h[x].rep.Btree? && h[x].rep.Out() == [e]
    requires Inv(h', held') && h' == h - {x} && e in held'
    ensures Shape(h') && AllSettled(h', {}) && e in h' && e in h && Bytes(h', e) == Bytes(h, x)
    ensures Leaves(h', e) == Leaves(h, x)
  {
    hide Inv, RepOk, Bytes, Settled, Leaves;
    InvShape(h', held');
    forall y | y in h' ensures Settled(h', y) {
      SettledKept(h, h', y);
    }
    BytesFrame(h, h', {}, e);
    NodeBytes(h, x);
    assert e in [e] && IsEdge(h, h[x].rep.height, e);
    BytesOfOne(h, h[x].rep.height, e);
    LeavesOfNode(h, x);
    LeavesOfOne(h, h[x].rep.height, e);
  }

  /** Frees the nodes with a single edge at the top of `tree`; `sound` says whether each was private. */
  method Fold(a: Arena, tree: Id) returns (r: Id, sound: bool)
    requires a.Ok() && AllSettled(a.cells, {}) && Shape(a.cells) && tree in a.held && tree in a.cells
    modifies a
    ensures a.next == old(a.next) && (sound <==> old(ChainPrivate(a.cells, tree)))
    ensures forall x :: x in a.cells ==> x in old(a.cells) && a.cells[x] == old(a.cells)[x]
    ensures forall x :: x in old(a.cells) && !old(a.cells)[x].rep.Btree? ==> x in a.cells
    ensures sound ==> a.Ok() && AllSettled(a.cells, {}) && Shape(a.cells) && r in a.cells
    ensures sound ==>
      a.held == old(a.held) - multiset{tree} + multiset{r} && Bytes(a.cells, r) == old(Bytes(a.cells, tree))
    ensures sound ==> Leaves(a.cells, r) == old(Leaves(a.cells, tree))
    ensures r in old(a.cells) && old(a.cells)[r].rep.Level() <= old(a.cells)[tree].rep.Level()
    ensures !sound ==> !(Shape(a.cells) && forall x :: x in old(a.held) - multiset{tree} ==> x in a.cells)
  {
    hide Inv, RepOk, Bytes, AllSettled, ChainPrivate, Dangling, Leaves;
    ghost var h0, rest := a.cells, a.held - multiset{tree};
    assert a.held == rest + multiset{tree};
    r, sound := tree, true;
    while a.cells[r].rep.Btree? && |a.cells[r].rep.Out()| == 1
      invariant a.next == old(a.next) && r in a.cells && r in h0 && h0[r].rep.Level() <= h0[tree].rep.Level()
      invariant forall x :: x in a.cells ==> x in h0 && a.cells[x] == h0[x]
      invariant forall x :: x in h0 && !h0[x].rep.Btree? ==> x in a.cells
      invariant forall x :: x in h0 && h0[x].rep.Rank() <= h0[r].rep.Rank() ==> x in a.cells
      invariant sound ==> a.Ok() && AllSettled(a.cells, {}) && Shape(a.cells) && a.held == rest + multiset{r}
      invariant sound ==> Leaves(a.cells, r) == Leaves(h0, tree)
      invariant sound ==> Bytes(a.cells, r) == Bytes(h0, tree) && ChainPrivate(h0, r) == ChainPrivate(h0, tree)
      invariant !sound ==> !ChainPrivate(h0, tree) && Dangling(a.cells, rest, a.cells[r].rep.Rank())
      decreases h0[r].rep.Rank()
    {
      var edge := a.cells[r].rep.Out()[0];
      ghost var h, held := a.cells, a.held;
      ghost var was := sound;
      FoldEdge(h0, r, edge);
      sound := sound && a.cells[r].rc == 1;
      FreeNode(a, r);
      if sound {
        FoldHeld(rest, r, edge);
        HeldIn(a.cells, a.held, edge);
        FoldStep(h, held, r, edge, a.cells, a.held);
      } else if was {
        SharedDangles(h, held, rest, r, h0[edge].rep.Rank());
      } else {
        DanglingStays(h, rest, r, h0[edge].rep.Rank());
      }
      r := edge;
    }
    if sound {
      FoldEnd(h0, r);
    } else {
      DanglingIsBroken(a.cells, rest, a.cells[r].rep.Rank());
    }
  }

  lemma FoldHeld(rest: multiset<Id>, x: Id, e: Id)
    ensures rest + multiset{x} - multiset{x} + multiset([e]) == rest + multiset{e}
  {
  }

  lemma FoldEnd(h: Heap, x: Id)
    requires Shape(h) && x in h && !(h[x].rep.Btree? && |h[x].rep.Out()| == 1)
    ensures ChainPrivate(h, x)
  {
  }

  lemma FoldEdge(h: Heap, x: Id, e: Id)
    requires Shape(h) && x in h && h[x].rep.Btree? && |h[x].rep.Out()| == 1 && e == h[x].rep.Out()[0]
    ensures h[x].rep.Out() == [e] && e in h && e != x && h[e].rep.Rank() < h[x].rep.Rank()
    ensures h[e].rep.Level() < h[x].rep.Level()
    ensures ChainPrivate(h, x) <==> h[x].rc == 1 && ChainPrivate(h, e)
  {
    EdgesBelow(h, x);
    LevelBelow(h, x, e);
  }

  lemma {:induction false} ChainFrame(h: Heap, h': Heap, o: set<Id>, x: Id)
    requires Shape(h) && Shape(h') && Closed(h, o) && (forall y :: y in h && y !in o ==> y in h' && h'[y] == h[y])
    requires x in h && x !in o
    ensures x in h' && (ChainPrivate(h', x) <==> ChainPrivate(h, x))
    decreases h[x].rep.Level()
  {
    hide RepOk;
    if h[x].rep.Btree? && |h[x].rep.Out()| == 1 {
      LevelBelow(h, x, h[x].rep.Out()[0]);
      ChainFrame(h, h', o, h[x].rep.Out()[0]);
    }
  }

  lemma {:induction false} NotSingle(h: Heap, held: multiset<Id>, leg: seq<Id>, edge: Id, d: nat, i: nat)
    requires Shape(h) && PrivatePath(h, held, leg, edge) && i < d <= |leg| && |h[leg[d - 1]].rep.Out()| > 1
    ensures !SinglePath(h, leg[i])
    decreases d - i
  {
    hide RepOk;
    if i < d - 1 {
      NotSingle(h, held, leg, edge, d, i + 1);
      assert Outer(true, h[leg[i]].rep.Out()) == leg[i + 1];
    }
  }

  /** Whether the remaining tree folds safely can be told before anything is taken out. */
  lemma {:induction false} SafeIsChain(h: Heap, held: multiset<Id>, leg: seq<Id>, d: nat, edge: Id, h': Heap, i: nat)
    requires Inv(h, held) && Shape(h) && Shape(h') && AllSettled(h, {}) && PrivatePath(h, held, leg, edge)
    requires SingleFrom(h, leg, edge, d) && PathCut(h, leg, d, edge, h') && |h[leg[d - 1]].rep.Out()| > 1 && i < d
    ensures leg[i] in h' && (SafeToTake(h, leg[i]) <==> ChainPrivate(h', leg[i]))
    decreases d - i
  {
    hide Inv, RepOk, AllSettled, PathCut, SingleFrom, PrivatePath, Leaves, PathIds, SinglePath, SafeToTake,
      ChainPrivate, Inner, Outer;
    CutOut(h, held, leg, d, edge, h', i);
    PathNodes(h, held, leg, edge);
    CutIs(h, leg, d, edge, h');
    var es := h[leg[i]].rep.Out();
    InnerIn(true, es);
    FewEdges(es);
    if i < d - 1 {
      SafeIsChain(h, held, leg, d, edge, h', i + 1);
      NotSingle(h, held, leg, edge, d, i + 1);
      SafeStep(h, leg[i], leg[i + 1]);
      ChainStep(h', leg[i]);
    } else {
      SingleEdge(h, held, leg, edge, d);
      SafeEnd(h, leg[i]);
      ChainStep(h', leg[i]);
      if |es| == 2 {
        CutFrame(h, held, leg, d, edge, h');
        PathClosed(h, held, leg, edge);
        PathInner(h, held, leg, edge, i);
        LevelBelow(h, leg[i], es[0]);
        ChainFrame(h, h', PathIds(leg, edge), es[0]);
      }
    }
  }

  lemma FewEdges(es: seq<Id>)
    requires es != []
    ensures |es| == 1 ==> Outer(true, es) == es[0]
    ensures |Inner(true, es)| == |es| - 1 && (|es| == 2 ==> Inner(true, es) == [es[0]])
  {
  }

  lemma SingleEdge(h: Heap, held: multiset<Id>, leg: seq<Id>, edge: Id, d: nat)
    requires Shape(h) && AllSettled(h, {}) && PrivatePath(h, held, leg, edge) && SingleFrom(h, leg, edge, d)
    requires 0 < d <= |leg|
    ensures h[leg[d - 1]].rep.Out() != [] && Outer(true, h[leg[d - 1]].rep.Out()) in h
    ensures SinglePath(h, Outer(true, h[leg[d - 1]].rep.Out()))
  {
    hide RepOk, AllSettled, SingleFrom, Leaves, Outer;
    SingleBelow(h, leg, edge, d, d);
    assert Outer(true, h[leg[d - 1]].rep.Out()) == Below(leg, edge, d);
  }

  lemma SafeStep(h: Heap, x: Id, e: Id)
    requires Shape(h) && x in h && h[x].rep.Btree? && h[x].rep.Out() != [] && e == Outer(true, h[x].rep.Out()) && e in h
    requires !SinglePath(h, e)
    ensures SafeToTake(h, x) <==> (|h[x].rep.Out()| == 1 ==> SafeToTake(h, e))
  {
  }

  lemma SafeEnd(h: Heap, x: Id)
    requires Shape(h) && x in h && h[x].rep.Btree? && h[x].rep.Out() != []
    requires Outer(true, h[x].rep.Out()) in h && SinglePath(h, Outer(true, h[x].rep.Out()))
    ensures h[x].rep.Out()[0] in h
    ensures SafeToTake(h, x) <==> (|h[x].rep.Out()| == 2 ==> ChainPrivate(h, h[x].rep.Out()[0]))
  {
    LevelBelow(h, x, h[x].rep.Out()[0]);
  }

  lemma ChainStep(h: Heap, x: Id)
    requires Shape(h) && x in h && h[x].rep.Btree? && h[x].rc == 1
    ensures |h[x].rep.Out()| == 1 ==> h[x].rep.Out()[0] in h
    ensures ChainPrivate(h, x) <==> (|h[x].rep.Out()| == 1 ==> ChainPrivate(h, h[x].rep.Out()[0]))
  {
    if |h[x].rep.Out()| == 1 {
      LevelBelow(h, x, h[x].rep.Out()[0]);
    }
  }

  /** The handles that an extraction leaves: the remaining tree, if any, and the flat. */
  ghost function Remaining(r: Option<Id>, edge: Id): multiset<Id> {
    (if r.Some? then multiset{r.value} else multiset{}) + multiset{edge}
  }

  ghost function RemainingBytes(h: Heap, r: Option<Id>): seq<byte>
    requires Shape(h) && (r.Some? ==> r.value in h)
  {
    if r.Some? then Bytes(h, r.value) else []
  }

  ghost function RemainingLeaves(h: Heap, r: Option<Id>): seq<Id>
    requires Shape(h) && (r.Some? ==> r.value in h)
  {
    if r.Some? then Leaves(h, r.value) else []
  }

  /**
  Takes the last flat out of a tree that alone leads to it, if it has room for `extra` bytes.
  What remains is a tree, a data edge or nothing. The result is sound exactly if no node is
  freed to which something else refers.
  */
  method ExtractAppendBuffer(a: Arena, tree: Id, extra: nat) returns (r: Option<Id>, extracted: Option<Id>, sound: bool)
    requires a.Ok() && AllSettled(a.cells, {}) && tree in a.held && a.cells[tree].rep.Btree?
    modifies a
    ensures a.next == old(a.next) && (extracted.Some? <==> old(HasBuffer(a.cells, tree, extra)))
    ensures
      var h, p := old(a.cells), old(BackPath(a.cells, tree));
      var e, sole := p[|p| - 1], forall y :: y in p ==> y in h && h[y].rc == 1;
      && e in h
      && (extracted.Some? <==> sole && h[e].rep.Flat? && |h[e].rep.data| + extra <= h[e].rep.capacity)
      && (extracted.Some? ==> extracted.value == e)
    ensures extracted.None? ==> r == Some(tree) && sound && a.cells == old(a.cells) && a.held == old(a.held)
    ensures extracted.Some? ==>
      extracted.value == old(LastLeaf(a.cells, tree)) && (sound <==> old(SafeToTake(a.cells, tree)))
    ensures extracted.Some? && !sound ==>
      !(Shape(a.cells) && forall x :: x in old(a.held) - multiset{tree} ==> x in a.cells)
    ensures extracted.Some? && sound ==> a.Ok() && AllSettled(a.cells, {})
    ensures extracted.Some? && sound ==> a.held == old(a.held) - multiset{tree} + Remaining(r, extracted.value)
    ensures extracted.Some? && sound ==> Others(old(a.cells), a.cells, old(a.held) - multiset{tree})
    ensures extracted.Some? && sound ==>
      extracted.value in a.cells && a.cells[extracted.value] == old(a.cells[LastLeaf(a.cells, tree)])
    ensures extracted.Some? && sound ==>
      a.cells[extracted.value].rep.Flat? && a.cells[extracted.value].rc == 1 && Shape(a.cells)
    ensures extracted.Some? && sound ==>
      (r.Some? ==> r.value in a.cells && a.cells[r.value].rep.Level() <= old(a.cells)[tree].rep.Level())
    ensures extracted.Some? && sound ==>
      old(Bytes(a.cells, tree)) == RemainingBytes(a.cells, r) + a.cells[extracted.value].rep.data
    ensures extracted.Some? && sound ==> old(Leaves(a.cells, tree)) == RemainingLeaves(a.cells, r) + [extracted.value]
  {
    hide Inv, RepOk, Outer, Bytes, AllSettled, PrivateLeg, Leaves, SafeToTake, Others, BackPath;
    HeldIn(a.cells, a.held, tree);
    ghost var h, held := a.cells, a.held;
    HasBufferIs(h, tree, extra);
    BackPathPrivate(h, tree);
    var leg, isPrivate := DiveBack(a, tree);
    r, extracted, sound := Some(tree), None, true;
    if isPrivate {
      var edge := OuterEdge(a, leg);
      if a.cells[edge].rep.Flat? && a.cells[edge].rc == 1 && extra <= Room(a.cells[edge].rep) {
        extracted := Some(edge);
        r, sound := TakeFlat(a, leg, edge);
        if sound {
          InvShape(a.cells, a.held);
        }
      }
    }
  }

  method TakeFlat(a: Arena, leg: seq<Id>, edge: Id) returns (r: Option<Id>, sound: bool)
    requires a.Ok() && AllSettled(a.cells, {}) && PrivatePath(a.cells, a.held, leg, edge) && a.cells[edge].rep.Flat?
    requires Shape(a.cells)
    modifies a
    ensures a.next == old(a.next) && (sound <==> old(SafeToTake(a.cells, leg[0])))
    ensures !sound ==> !(Shape(a.cells) && forall x :: x in old(a.held) - multiset{leg[0]} ==> x in a.cells)
    ensures sound ==> a.Ok() && AllSettled(a.cells, {})
    ensures sound ==> a.held == old(a.held) - multiset{leg[0]} + Remaining(r, edge)
    ensures sound ==> Others(old(a.cells), a.cells, old(a.held) - multiset{leg[0]})
    ensures sound ==> edge in a.cells && a.cells[edge] == old(a.cells)[edge]
    ensures sound ==>
      (r.Some? ==> r.value in a.cells && a.cells[r.value].rep.Level() <= old(a.cells)[leg[0]].rep.Level())
    ensures sound ==> old(Bytes(a.cells, leg[0])) == RemainingBytes(a.cells, r) + a.cells[edge].rep.data
    ensures sound ==> old(Leaves(a.cells, leg[0])) == RemainingLeaves(a.cells, r) + [edge]
  {
    hide Inv, RepOk, Outer, Bytes, AllSettled, SafeToTake, Others, SingleFrom, Remaining, RemainingBytes, PrivatePath,
      Leaves;
    PathTop(a.cells, a.held, leg, edge);
    ghost var h, held, rest := a.cells, a.held, a.held - multiset{leg[0]};
    var d := |leg|;
    SingleNone(h, leg, edge);
    while d > 0 && |a.cells[leg[d - 1]].rep.Out()| == 1
      invariant 0 <= d <= |leg| && SingleFrom(h, leg, edge, d)
      invariant a.cells == h && a.held == held && a.next == old(a.next)
    {
      SingleMore(h, held, leg, edge, d);
      d := d - 1;
    }
    if d == 0 {
      AllTakenReady(h, held, leg, edge);
      DeleteChain(a, leg, 0, edge);
      r, sound := None, true;
      AllTaken(h, held, leg, edge, a.cells, a.held);
      PathIsLeg(h, held, leg, edge);
      SingleBelow(h, leg, edge, 0, 0);
    } else {
      SettledSrc(h, leg[d - 1]);
      CutPath(a, leg, d, edge);
      ghost var h3, held3 := a.cells, a.held;
      CutState(h, held, leg, d, edge, h3, held3);
      var s;
      s, sound := Fold(a, leg[0]);
      r := Some(s);
      if sound {
        FoldedState(h, held, leg, d, edge, h3, held3, s, a.cells, a.held);
        CutLeavesAt(h, held, leg, d, edge, h3, 0);
      } else {
        assert held3 - multiset{leg[0]} == rest + multiset{edge};
      }
    }
  }

  lemma PathTop(h: Heap, held: multiset<Id>, leg: seq<Id>, edge: Id)
    requires PrivatePath(h, held, leg, edge)
    ensures leg != [] && leg[0] in held && edge in h && !h[edge].rep.Btree?
    ensures forall i :: 0 <= i < |leg| ==> leg[i] in h && h[leg[i]].rep.Btree?
  {
  }

  lemma SingleNone(h: Heap, leg: seq<Id>, edge: Id)
    ensures SingleFrom(h, leg, edge, |leg|)
  {
  }

  lemma SingleMore(h: Heap, held: multiset<Id>, leg: seq<Id>, edge: Id, d: nat)
    requires PrivatePath(h, held, leg, edge) && 0 < d <= |leg| && SingleFrom(h, leg, edge, d)
    requires |h[leg[d - 1]].rep.Out()| == 1
    ensures SingleFrom(h, leg, edge, d - 1)
  {
    hide Below;
    var es := h[leg[d - 1]].rep.Out();
    assert Outer(true, es) == Below(leg, edge, d) by {
      PathBelow(h, held, leg, edge, d);
    }
    assert es == [Below(leg, edge, d)];
  }

  lemma PathBelow(h: Heap, held: multiset<Id>, leg: seq<Id>, edge: Id, d: nat)
    requires PrivatePath(h, held, leg, edge) && 0 < d <= |leg|
    ensures h[leg[d - 1]].rep.Out() != [] && Outer(true, h[leg[d - 1]].rep.Out()) == Below(leg, edge, d)
  {
    hide Outer;
    assert d < |leg| ==> leg[d - 1 + 1] == leg[d];
  }

  lemma AllTakenReady(h: Heap, held: multiset<Id>, leg: seq<Id>, edge: Id)
    requires PrivatePath(h, held, leg, edge)
    ensures forall i :: 0 <= i < |leg| ==> leg[i] in h && h[leg[i]].rc == 1
    ensures forall i, j :: 0 <= i < j < |leg| ==> leg[i] != leg[j]
    ensures leg != [] && Below(leg, edge, 0) == leg[0]
  {
    hide Outer;
    forall i, j | 0 <= i < j < |leg| ensures leg[i] != leg[j] {
      LegDistinct(h, true, leg, i, j);
    }
  }

  lemma AllTaken(h: Heap, held: multiset<Id>, leg: seq<Id>, edge: Id, h': Heap, held': multiset<Id>)
    requires Inv(h, held) && Shape(h) && AllSettled(h, {}) && PrivatePath(h, held, leg, edge)
    requires SingleFrom(h, leg, edge, 0)
    requires h[edge].rep.Flat? && Inv(h', held') && h' == h - Depths(leg, 0, |leg|)
    requires held' == held - multiset{leg[0]} + multiset{edge}
    ensures SafeToTake(h, leg[0]) && AllSettled(h', {}) && Shape(h')
    ensures held' == held - multiset{leg[0]} + Remaining(None, edge)
    ensures Others(h, h', held - multiset{leg[0]}) && edge in h' && h'[edge] == h[edge]
    ensures Bytes(h, leg[0]) == RemainingBytes(h', None) + h'[edge].rep.data
  {
    hide Inv, RepOk, Outer, Bytes, Settled, SingleFrom, PrivatePath, Leaves, SinglePath;
    InvShape(h', held');
    PathTop(h, held, leg, edge);
    EdgeOffLeg(h, held, leg, edge);
    PathClosed(h, held, leg, edge);
    assert Depths(leg, 0, |leg|) == Ids(leg);
    SingleBelow(h, leg, edge, 0, 0) by { PathIsLeg(h, held, leg, edge); }
    FlatBytes(h, edge);
    AllSafe(h, held, leg, edge);
    forall x | x in h' ensures Settled(h', x) {
      if x == edge {
        DataSettled(h', x);
      } else {
        SettledKept(h, h', x);
      }
    }
    forall x | x in held - multiset{leg[0]}
      ensures x in h && x in h' && Same(h[x], h'[x]) && Bytes(h, x) == Bytes(h', x)
    {
      HeldIn(h, held, x);
      BytesFrame(h, h', PathIds(leg, edge), x);
    }
  }

  lemma PathIsLeg(h: Heap, held: multiset<Id>, leg: seq<Id>, edge: Id)
    requires PrivatePath(h, held, leg, edge)
    ensures Leg(h, true, leg)
  {
  }

  lemma AllSafe(h: Heap, held: multiset<Id>, leg: seq<Id>, edge: Id)
    requires Shape(h) && AllSettled(h, {}) && PrivatePath(h, held, leg, edge) && SingleFrom(h, leg, edge, 0)
    ensures SafeToTake(h, leg[0])
  {
    hide RepOk, Outer, SinglePath, Leaves, SingleFrom, PrivatePath, SafeToTake;
    PathTop(h, held, leg, edge);
    PathIsLeg(h, held, leg, edge);
    SingleAt(h, leg, edge, 0, 0);
    SingleBelow(h, leg, edge, 0, 1);
    PathBelow(h, held, leg, edge, 1);
    SafeEnd(h, leg[0]);
  }

  lemma CutState(h: Heap, held: multiset<Id>, leg: seq<Id>, d: nat, edge: Id, h3: Heap, held3: multiset<Id>)
    requires Inv(h, held) && Shape(h) && AllSettled(h, {}) && PrivatePath(h, held, leg, edge)
    requires SingleFrom(h, leg, edge, d)
    requires PathCut(h, leg, d, edge, h3) && |h[leg[d - 1]].rep.Out()| > 1 && Inv(h3, held3)
    requires held3 == held + multiset{edge}
    ensures Shape(h3) && AllSettled(h3, {}) && leg[0] in held3 && leg[0] in h3
    ensures h3[leg[0]].rep.Level() == h[leg[0]].rep.Level()
    ensures SafeToTake(h, leg[0]) <==> ChainPrivate(h3, leg[0])
    ensures edge in h3 && h3[edge] == h[edge]
  {
    hide Inv, RepOk, Outer, AllSettled, SingleFrom, PrivatePath, SafeToTake, ChainPrivate, PathCut;
    InvShape(h3, held3);
    PathTop(h, held, leg, edge);
    CutIs(h, leg, d, edge, h3);
    CutFrame(h, held, leg, d, edge, h3);
    CutSettled(h, held, leg, d, edge, h3);
    SafeIsChain(h, held, leg, d, edge, h3, 0);
  }

  lemma FoldedState(h: Heap, held: multiset<Id>, leg: seq<Id>, d: nat, edge: Id, h3: Heap, held3: multiset<Id>, r: Id,
                    h4: Heap, held4: multiset<Id>)
    requires Inv(h, held) && Shape(h) && AllSettled(h, {}) && PrivatePath(h, held, leg, edge)
    requires SingleFrom(h, leg, edge, d)
    requires PathCut(h, leg, d, edge, h3) && Inv(h3, held3) && held3 == held + multiset{edge} && Shape(h3)
    requires leg[0] in h3
    requires edge in h3 && h3[edge] == h[edge] && h[edge].rep.Flat?
    requires Inv(h4, held4) && held4 == held3 - multiset{leg[0]} + multiset{r} && Shape(h4) && r in h4
    requires (forall x :: x in h4 ==> x in h3 && h4[x] == h3[x]) && Bytes(h4, r) == Bytes(h3, leg[0])
    ensures held4 == held - multiset{leg[0]} + Remaining(Some(r), edge)
    ensures Others(h, h4, held - multiset{leg[0]}) && edge in h4 && h4[edge] == h[edge]
    ensures Bytes(h, leg[0]) == RemainingBytes(h4, Some(r)) + h4[edge].rep.data
  {
    hide Inv, RepOk, Outer, Bytes, AllSettled, SingleFrom, PrivatePath, PathCut;
    PathTop(h, held, leg, edge);
    CutIs(h, leg, d, edge, h3);
    CutOthers(h, held, leg, d, edge, h3);
    CutBytesAt(h, held, leg, d, edge, h3, 0);
    FlatBytes(h, edge);
    var rest := held - multiset{leg[0]};
    assert held4 == rest + multiset{edge} + multiset{r};
    assert edge in held4;
    HeldIn(h4, held4, edge);
    forall x | x in rest ensures x in h3 && x in h4 && Same(h3[x], h4[x]) && Bytes(h3, x) == Bytes(h4, x) {
      assert x in held4;
      HeldIn(h4, held4, x);
      BytesFrame(h3, h4, {}, x);
    }
    OthersTrans(h, h3, h4, rest);
  }
}
