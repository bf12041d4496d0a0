/**
Moving over the data edges of a tree (rep/navigator.rs).

A navigator is a place in the list of the tree's data edges: what lies behind it, the edge it is
at, and what lies ahead (`Paths.WholeTree`). The methods that move forward and backward differ in
direction only.
*/
module Navigators {
  import opened Heap
  import opened Counts
  import opened Arenas
  import opened Substrings
  import opened Legs
  import opened Nodes
  import opened Indexing
  import opened Copies
  import opened SubTrees
  import opened Paths
  import opened Reads

  /** The slot of the outermost edge. */
  function EndSlot(rep: Rep, back: bool): (i: nat)
    requires IsNode(rep) && rep.begin < rep.end
    ensures rep.begin <= i < rep.end
  {
    if back then rep.end - 1 else rep.begin
  }

  class Navigator {
    var height: Option<nat>
    const index: array<nat>
    const node: array<Id>

    constructor ()
      ensures Sized() && height == None && fresh(index) && fresh(node)
    {
      index := new nat[MAX_DEPTH](_ => 0);
      node := new nat[MAX_DEPTH](_ => 0);
      height := None;
    }

    ghost predicate Sized()
      reads this
    {
      index != node && index.Length == node.Length == MAX_DEPTH && (height.Some? ==> height.value < MAX_DEPTH)
    }

    ghost function Stack(): (p: Route)
      requires Sized() && height.Some?
      reads this, index, node
      ensures p.Sized()
    {
      Route(height.value, node[..], index[..])
    }

    /** The path from height `k` up. */
    ghost predicate From(h: Heap, k: nat)
      reads this, index, node
    {
      Shape(h) && AllSettled(h, {}) && Sized() && height.Some? && On(h, Stack(), k)
    }

    ghost predicate Valid(h: Heap)
      reads this, index, node
    {
      From(h, 0)
    }

    ghost function Root(): Id
      requires Sized() && height.Some?
      reads this, index, node
    {
      node[height.value]
    }

    /** The data edges ahead of the current one, or behind it. */
    ghost function Beside(h: Heap, ahead: bool): seq<Id>
      requires Valid(h)
      reads this, index, node
    {
      Side(h, Stack(), ahead, 0)
    }

    /** How many bytes lie behind the current edge. */
    ghost function Offset(h: Heap): nat
      requires Valid(h)
      reads this, index, node
    {
      Position(h, Stack(), 0)
    }

    function Current(h: Heap): (e: Id)
      requires Valid(h)
      reads this, index, node
      ensures e == Edge(h, Stack(), 0)
    {
      h[node[0]].rep.slots[index[0]]
    }

    /** The navigator stands for a place in the list of data edges. */
    lemma IsPlace(h: Heap)
      requires Valid(h)
      ensures Root() in h && Current(h) in h && !h[Current(h)].rep.Btree?
      ensures Leaves(h, Root()) == Beside(h, false) + [Current(h)] + Beside(h, true)
    {
      WholeTree(h, Stack(), 0);
    }

    lemma RootIsNode(h: Heap)
      requires Valid(h)
      ensures Root() in h && h[Root()].rep.Btree? && h[Root()].rep.height == height.value
    {
    }

    method Put(k: nat, x: Id, i: nat)
      requires Sized() && height.Some? && k <= height.value
      modifies index, node
      ensures Sized() && Stack() == old(Stack()).At(k, x, i)
    {
      node[k] := x;
      index[k] := i;
      assert node[..] == old(node[..])[k := x] && index[..] == old(index[..])[k := i];
    }

    /** Descends from the edge at height `from` to its first (`ahead`) or last data edge. */
    method Enter(h: Heap, from: nat, ahead: bool) returns (edge: Id)
      requires From(h, from)
      modifies index, node
      ensures Valid(h) && Root() == old(Root()) && edge == Current(h)
      ensures Beside(h, !ahead) == old(Side(h, Stack(), !ahead, from))
      ensures Edge(h, old(Stack()), from) in h
      ensures Join(!ahead, Beside(h, ahead), [edge])
          == old(Join(!ahead, Side(h, Stack(), ahead, from), Leaves(h, Edge(h, Stack(), from))))
    {
      hide Side, Join, RepOk, AllSettled;
      var k := from;
      WholeTree(h, Stack(), k);
      while k > 0
        invariant 0 <= k <= from && From(h, k) && height == old(height) && Root() == old(Root())
        invariant Edge(h, Stack(), k) in h && Side(h, Stack(), !ahead, k) == old(Side(h, Stack(), !ahead, from))
        invariant Join(!ahead, Side(h, Stack(), ahead, k), Leaves(h, Edge(h, Stack(), k))) ==
                  old(Join(!ahead, Side(h, Stack(), ahead, from), Leaves(h, Edge(h, Stack(), from))))
      {
        ghost var p := Stack();
        WholeTree(h, p, k);
        var x := h[node[k]].rep.slots[index[k]];
        SettledAt(h, x);
        var i := EndSlot(h[x].rep, !ahead);
        EnterSides(h, p, k, ahead, i);
        k := k - 1;
        Put(k, x, i);
      }
      edge := h[node[0]].rep.slots[index[0]];
      WholeTree(h, Stack(), 0);
      DataLeaf(h, edge);
    }

    /** Starts at the first or last data edge of `tree`. */
    method Init(h: Heap, tree: Id, back: bool) returns (edge: Id)
      requires Sized() && Shape(h) && AllSettled(h, {}) && tree in h && h[tree].rep.Btree?
      requires h[tree].rep.height <= MAX_HEIGHT
      modifies this, index, node
      ensures Valid(h) && Root() == tree && edge == Current(h)
      ensures Beside(h, back) == []
    {
      hide Side, RepOk, AllSettled;
      height := Some(h[tree].rep.height);
      SettledAt(h, tree);
      var i := EndSlot(h[tree].rep, back);
      Put(height.value, tree, i);
      TopSides(h, Stack(), back);
      edge := Enter(h, height.value, !back);
    }

    /** Moves to the next or the previous data edge; stays where it is if there is none. */
    method Step(h: Heap, ahead: bool) returns (edge: Option<Id>)
      requires Valid(h)
      modifies index, node
      ensures Valid(h) && Root() == old(Root())
      ensures edge.None? <==> old(Beside(h, ahead)) == []
      ensures edge.None? ==> Stack() == old(Stack())
      ensures edge.Some? ==>
        edge.value == Current(h) && old(Beside(h, ahead)) == Join(!ahead, Beside(h, ahead), [edge.value])
      ensures edge.Some? ==> Beside(h, !ahead) == Join(ahead, old(Beside(h, !ahead)), [old(Current(h))])
    {
      hide Side, RepOk, AllSettled;
      var rep := h[node[0]].rep;
      if index[0] == EndSlot(rep, ahead) {
        edge := StepUp(h, ahead);
      } else {
        var i: nat := if ahead then index[0] + 1 else index[0] - 1;
        AcrossSides(h, Stack(), 0, ahead, i);
        WholeTree(h, Stack(), 0);
        DataLeaf(h, Edge(h, Stack(), 0));
        Put(0, node[0], i);
        WholeTree(h, Stack(), 0);
        DataLeaf(h, Edge(h, Stack(), 0));
        edge := Some(rep.slots[i]);
      }
    }

    method StepUp(h: Heap, ahead: bool) returns (edge: Option<Id>)
      requires Valid(h) && index[0] == EndSlot(h[node[0]].rep, ahead)
      modifies index, node
      ensures Valid(h) && Root() == old(Root())
      ensures edge.None? <==> old(Beside(h, ahead)) == []
      ensures edge.None? ==> Stack() == old(Stack())
      ensures edge.Some? ==>
        edge.value == Current(h) && old(Beside(h, ahead)) == Join(!ahead, Beside(h, ahead), [edge.value])
      ensures edge.Some? ==> Beside(h, !ahead) == Join(ahead, old(Beside(h, !ahead)), [old(Current(h))])
    {
      hide Side, RepOk, AllSettled, Join, Above, Leaves, Settled, IsEdge;
      ghost var p := Stack();
      ghost var cur := Current(h);
      WholeTree(h, p, 0);
      DataLeaf(h, cur);
      UpSides(h, p, 0, ahead);
      var k := 1;
      while k <= height.value && index[k] == EndSlot(h[node[k]].rep, ahead)
        invariant 1 <= k <= height.value + 1 && Stack() == p && On(h, p, k - 1)
        invariant Side(h, p, ahead, 0) == Above(h, p, k - 1, ahead)
        invariant Join(ahead, Side(h, p, !ahead, 0), [cur])
            == Join(ahead, Above(h, p, k - 1, !ahead), Leaves(h, p.node[k - 1]))
      {
        AboveIs(h, p, k, ahead);
        UpSides(h, p, k, ahead);
        k := k + 1;
      }
      if k > height.value {
        AboveTop(h, p, ahead);
        edge := None;
      } else {
        AboveIs(h, p, k, ahead);
        var i: nat := if ahead then index[k] + 1 else index[k] - 1;
        AcrossSides(h, p, k, ahead, i);
        Put(k, node[k], i);
        var e := Enter(h, k, ahead);
        JoinNotEmpty(!ahead, Beside(h, ahead), e);
        edge := Some(e);
      }
    }

    /** Descends `n` bytes into the edge at height `from`. */
    method Descend(h: Heap, from: nat, n: nat) returns (edge: Id, offset: nat)
      requires From(h, from) && Edge(h, Stack(), from) in h && n < h[Edge(h, Stack(), from)].rep.Len()
      modifies index, node
      ensures Valid(h) && Root() == old(Root()) && edge == Current(h) && edge in h && offset < h[edge].rep.Len()
      ensures Offset(h) + offset == old(Position(h, Stack(), from)) + n
    {
      hide Side, RepOk, AllSettled, Position, Span, IsSettledNode;
      var k := from;
      offset := n;
      while k > 0
        invariant 0 <= k <= from && From(h, k) && height == old(height) && Root() == old(Root())
        invariant Edge(h, Stack(), k) in h && offset < h[Edge(h, Stack(), k)].rep.Len()
        invariant Position(h, Stack(), k) + offset == old(Position(h, Stack(), from)) + n
      {
        ghost var p := Stack();
        WholeTree(h, p, k);
        var x := h[node[k]].rep.slots[index[k]];
        SettledAt(h, x);
        var i: nat;
        i, offset := IndexOf(h, h[x].rep, offset);
        PositionDown(h, p, k, i);
        k := k - 1;
        Put(k, x, i);
      }
      edge := h[node[0]].rep.slots[index[0]];
    }

    /** Moves to the data edge that holds byte `target` of the tree, if it has that many. */
    method Seek(h: Heap, target: nat) returns (edge: Option<Id>, offset: nat)
      requires Shape(h) && AllSettled(h, {}) && Sized() && height.Some? && Root() in h
      requires h[Root()].rep.Btree? && h[Root()].rep.height == height.value
      modifies index, node
      ensures edge.None? <==> target >= |Bytes(h, old(Root()))|
      ensures edge.None? ==> Stack() == old(Stack()) && offset == 0
      ensures edge.Some? ==> Valid(h) && Root() == old(Root()) && edge.value == Current(h) && edge.value in h
      ensures edge.Some? ==> Offset(h) + offset == target && offset < h[edge.value].rep.Len()
    {
      hide Side, RepOk, AllSettled, Position, Span, IsSettledNode, Bytes;
      var root := node[height.value];
      LenIsBytes(h, root);
      if target >= h[root].rep.Len() {
        edge, offset := None, 0;
      } else {
        SettledAt(h, root);
        var i, n := IndexOf(h, h[root].rep, target);
        Put(height.value, root, i);
        assert On(h, Stack(), height.value);
        PositionTop(h, Stack());
        var e;
        e, offset := Descend(h, height.value, n);
        edge := Some(e);
      }
    }

    /** The slot that follows slot `i` of the path's node at height `k`, if there is one in the tree. */
    method NextSlot(h: Heap, k0: nat, i0: nat, ghost past: nat) returns (k: nat, i: nat)
      requires Sized() && height.Some? && EndsAt(h, Stack(), k0, i0, past)
      ensures k0 <= k <= height.value + 1
      ensures if k > height.value then Root() in h && past == h[Root()].rep.Len() else StartsAt(h, Stack(), k, i, past)
    {
      hide EndsAt, StartsAt;
      k, i := k0, i0;
      ghost var p := Stack();
      SlotNode(h, p, k, i, past);
      while i + 1 == h[node[k]].rep.end
        invariant k0 <= k <= height.value && Stack() == p && EndsAt(h, p, k, i, past) && node[k] in h
        invariant IsNode(h[node[k]].rep)
        decreases height.value - k
      {
        SlotUp(h, p, k, i, past);
        if k == height.value {
          k := k + 1;
          return;
        }
        k := k + 1;
        i := index[k];
      }
      SlotAcross(h, p, k, i, past);
      i := i + 1;
    }

    /** Moves `n` bytes forward from the start of the current edge, if the tree goes that far. */
    method Skip(h: Heap, n: nat) returns (edge: Option<Id>, offset: nat)
      requires Valid(h)
      modifies index, node
      ensures Root() == old(Root()) && Root() in h && Valid(h)
      ensures edge.None? <==> old(Offset(h)) + n >= |Bytes(h, Root())|
      ensures edge.None? ==> Stack() == old(Stack()) && offset == old(Offset(h)) + n - |Bytes(h, Root())|
      ensures edge.Some? ==> edge.value == Current(h) && edge.value in h
      ensures edge.Some? ==> Offset(h) + offset == old(Offset(h)) + n && offset < h[edge.value].rep.Len()
    {
      hide Side, RepOk, AllSettled, Position, On, Edge, Bytes;
      ghost var p := Stack();
      var k, i := 0, index[0];
      EdgeLen(h, p, 0);
      LenIsBytes(h, Root());
      ghost var v := p.At(0, p.node[0], i);
      assert v == p;
      NodeAt'(h, v, 0);
      var e := h[node[0]].rep.slots[i];
      offset := n;
      while offset >= h[e].rep.Len()
        invariant 0 <= k <= height.value && Stack() == p && v == p.At(k, p.node[k], i) && On(h, v, k)
        invariant e == Edge(h, v, k) && e in h && h[e].rep.Len() > 0
        invariant Position(h, v, k) + offset == Position(h, p, 0) + n
        decreases offset
      {
        offset := offset - h[e].rep.Len();
        StartSlot(h, p, k, i, Position(h, v, k) + h[e].rep.Len());
        k, i := NextSlot(h, k, i, Position(h, v, k) + h[e].rep.Len());
        if k > height.value {
          edge := None;
          return;
        }
        v := p.At(k, p.node[k], i);
        EdgeLen(h, v, k);
        NodeAt'(h, v, k);
        e := h[node[k]].rep.slots[i];
      }
      Put(k, node[k], i);
      var d;
      d, offset := Descend(h, k, offset);
      edge := Some(d);
      EdgeLen(h, Stack(), 0);
    }

    /** From height `k` up, the navigator still has the entries of `p`. */
    ghost predicate Agrees(p: Route, k: nat)
      reads this, index, node
    {
      && Sized() && height.Some? && p.Sized() && height.value == p.top && node[..] == p.node
      && forall j :: k <= j <= p.top ==> index[j] == p.index[j]
    }

    /**
    From slot `i0` of the node at height `k0`, the last one read, climbs to where the next edge is.
    While there is more to read, each level makes what was read an edge of a new node.
    */
    method Rise(a: Arena, ghost b: Begun, ghost p: Route, k0: nat, i0: nat, sub0: Id, length: nat)
      returns (k: nat, i: nat, sub: Id)
      requires a.Ok() && Agrees(p, k0 + 1) && k0 <= p.top && b.n0 <= sub0 < a.next
      requires Reading(b, p.At(k0, p.node[k0], i0), k0, a.cells, a.held, sub0, length)
      modifies a, index
      ensures a.Ok() && k0 <= k <= p.top && Agrees(p, k + 1) && b.n0 <= sub < a.next
      ensures Reading(b, p.At(k, p.node[k], i), k, a.cells, a.held, sub, length) && node[k] in a.cells
      ensures i + 1 <= a.cells[node[k]].rep.end == b.h0[node[k]].rep.end
      ensures i + 1 == a.cells[node[k]].rep.end ==> k == p.top
    {
      hide Inv, RepOk, Reading, Past, On, Edge, Ready, Bytes, Shape, AllSettled, Growing;
      k, i, sub := k0, i0, sub0;
      ghost var v := p.At(k, p.node[k], i);
      ReadingFacts(b, v, k, a.cells, a.held, sub, length);
      while i + 1 == a.cells[node[k]].rep.end
        invariant a.Ok() && k0 <= k <= p.top && Agrees(p, k + 1) && b.n0 <= sub < a.next
        invariant v == p.At(k, p.node[k], i) && Reading(b, v, k, a.cells, a.held, sub, length)
        invariant node[k] in a.cells && node[k] in b.h0 && a.cells[node[k]].rep == b.h0[node[k]].rep
        invariant a.cells[node[k]].rep.Btree?
        invariant i + 1 <= a.cells[node[k]].rep.end
        decreases p.top - k
      {
        ReadingFacts(b, v, k, a.cells, a.held, sub, length);
        index[k] := i + 1;
        if k == height.value {
          return;
        }
        ReadyUp(b, v, k);
        if length != 0 {
          sub := Wrap(a, b, v, k, sub, length);
        } else {
          ReadingUp(b, v, k, a.cells, a.held, sub);
        }
        k := k + 1;
        i := index[k];
        ReadingSame(b, v, p, k, a.cells, a.held, sub, length);
        v := p.At(k, p.node[k], i);
        assert v == p;
        ReadingFacts(b, v, k, a.cells, a.held, sub, length);
      }
    }

    /**
    Takes over every edge that is read in full. The last one is in slot `i` of the node at height
    `k`; either the tree ends there, or `length` bytes are wanted of the edge in the next slot.
    */
    method Gather(a: Arena, ghost b: Begun, ghost p: Route, sub0: Id, length0: nat)
      returns (k: nat, i: nat, sub: Id, length: nat, ended: bool)
      requires a.Ok() && Agrees(p, 0) && b.n0 <= sub0 < a.next && Reading(b, p, 0, a.cells, a.held, sub0, length0)
      modifies a, index
      ensures a.Ok() && k <= p.top && Agrees(p, k + 1) && b.n0 <= sub < a.next && node[k] in b.h0
      ensures b.h0[node[k]].rep.Btree?
      ensures Reading(b, p.At(k, p.node[k], i), k, a.cells, a.held, sub, length)
      ensures ended ==> k == p.top && i + 1 == b.h0[node[k]].rep.end
      ensures !ended ==> i + 1 < b.h0[node[k]].rep.end <= |b.h0[node[k]].rep.slots|
      ensures !ended ==>
        b.h0[node[k]].rep.slots[i + 1] in b.h0 && length < b.h0[b.h0[node[k]].rep.slots[i + 1]].rep.Len()
    {
      hide Inv, RepOk, Reading, Past, On, Edge, Ready, Bytes, Shape, AllSettled, Growing;
      k, i, sub, length, ended := 0, index[0], sub0, length0, false;
      assert p.At(k, p.node[k], i) == p;
      var more := true;
      while more
        invariant a.Ok() && 0 <= k <= p.top && Agrees(p, k + 1) && b.n0 <= sub < a.next && !ended
        invariant Reading(b, p.At(k, p.node[k], i), k, a.cells, a.held, sub, length)
        invariant !more ==>
          node[k] in b.h0 && b.h0[node[k]].rep.Btree? && i + 1 < b.h0[node[k]].rep.end <= |b.h0[node[k]].rep.slots|
        invariant !more ==>
          b.h0[node[k]].rep.slots[i + 1] in b.h0 && length < b.h0[b.h0[node[k]].rep.slots[i + 1]].rep.Len()
        decreases more, length
      {
        k, i, sub := Rise(a, b, p, k, i, sub, length);
        ghost var v := p.At(k, p.node[k], i);
        ReadingFacts(b, v, k, a.cells, a.held, sub, length);
        if i + 1 == a.cells[node[k]].rep.end {
          ended := true;
          return;
        }
        EdgeAfter(b, v, k, i + 1);
        var edge := a.cells[node[k]].rep.slots[i + 1];
        var n := a.cells[edge].rep.Len();
        if length >= n {
          TakeEdge(a, b, v, k, i + 1, sub, edge, length);
          length := length - n;
          i := i + 1;
          assert v.At(k, p.node[k], i) == p.At(k, p.node[k], i);
        } else {
          more := false;
        }
      }
    }

    /**
    Reads `n` bytes from `offset` within the current edge on into a new tree, and moves to where they
    end, `used` bytes into the edge that is then current. If fewer bytes remain, nothing is made. At
    the end of the tree the navigator is left past its last edge.
    */
    method Read(a: Arena, offset: nat, n: nat) returns (tree: Option<Id>, used: nat)
      requires a.Ok() && Valid(a.cells) && Current(a.cells) in a.cells && offset < a.cells[Current(a.cells)].rep.Len()
      modifies a, index, node
      ensures a.Ok() && Sized() && height == old(height) && Root() == old(Root()) && Root() in old(a.cells)
      ensures
        var all, at := old(Bytes(a.cells, Root())), old(Offset(a.cells)) + offset;
        && (tree.Some? <==> 0 < n && at + n <= |all|)
        && (tree.Some? ==> Fresh(old(a.cells), old(a.next), old(a.held), {}, a.cells, a.held, tree.value))
        && (tree.Some? ==> tree.value in a.cells && a.cells[tree.value].rep.Level() <= old(a.cells)[Root()].rep.Level())
        && (tree.Some? ==> Shape(a.cells) && Bytes(a.cells, tree.value) == all[at..at + n])
        && (at + n < |all|
            ==> Valid(a.cells) && Current(a.cells) in a.cells && used < a.cells[Current(a.cells)].rep.Len())
        && (at + n < |all| ==> Offset(a.cells) + used == at + n)
        && (at + n >= |all| ==> used == at + n - |all|)
      ensures tree.None? ==> a.cells == old(a.cells) && a.held == old(a.held)
      ensures forall x :: x in a.cells && (a.cells[x].rep.Flat? || a.cells[x].rep.External?) ==> x in old(a.cells)
    {
      hide Inv, RepOk, Reading, Past, On, Edge, Ready, Bytes, Position, Fresh, AllSettled;
      ghost var h, p, at := a.cells, Stack(), Offset(a.cells) + offset;
      ghost var b := Begun(h, a.next, a.held, Root(), at, at + n);
      ReadyAt(b, p);
      EdgeLen(h, p, 0);
      var edge := a.cells[node[0]].rep.slots[index[0]];
      var length := offset + n;
      if length < a.cells[edge].rep.Len() {
        used := length;
        tree := None;
        if n != 0 {
          var r := ReadWithin(a, b, p, edge, offset, n);
          FreshParts(h, b.n0, b.held0, a.cells, a.held, r);
          PositionExtends(h, a.cells, p, 0);
          tree := Some(r);
        }
      } else {
        tree, used := ReadBeyond(a, b, p, edge, offset, length - a.cells[edge].rep.Len());
      }
      if tree.Some? {
        FreshData(h, b.n0, b.held0, a.cells, a.held, tree.value);
      }
    }

    /** A read that goes on beyond the edge in which it begins, by `more` bytes. */
    method ReadBeyond(a: Arena, ghost b: Begun, ghost p: Route, edge: Id, offset: nat, more: nat)
      returns (tree: Option<Id>, used: nat)
      requires a.Ok() && b.h0 == a.cells && b.held0 == a.held && b.n0 == a.next && Ready(b, p, 0) && Agrees(p, 0)
      requires edge == Edge(a.cells, p, 0) && edge in a.cells && offset < a.cells[edge].rep.Len()
      requires b.start == Position(a.cells, p, 0) + offset
      requires Past(b.h0, p, 0) + more == b.goal && Shape(b.h0) && b.root in b.h0
      modifies a, index, node
      ensures a.Ok() && Sized() && height == old(height) && Root() == old(Root())
      ensures tree.Some? <==> b.goal <= |Bytes(b.h0, b.root)|
      ensures tree.None? ==> a.cells == b.h0 && a.held == b.held0
      ensures tree.Some? ==> Fresh(b.h0, b.n0, b.held0, {}, a.cells, a.held, tree.value) && Shape(a.cells)
      ensures tree.Some? ==> tree.value in a.cells && a.cells[tree.value].rep.Level() <= p.top + 1 && b.start <= b.goal
      ensures tree.Some? ==> Bytes(a.cells, tree.value) == Bytes(b.h0, b.root)[b.start..b.goal]
      ensures b.goal < |Bytes(b.h0, b.root)| ==>
        Valid(a.cells) && Current(a.cells) in a.cells && used < a.cells[Current(a.cells)].rep.Len()
      ensures b.goal < |Bytes(b.h0, b.root)| ==> Offset(a.cells) + used == b.goal
      ensures b.goal >= |Bytes(b.h0, b.root)| ==> used == b.goal - |Bytes(b.h0, b.root)|
    {
      hide Inv, RepOk, Reading, Past, On, Edge, Ready, Bytes, Position, Fresh, AllSettled;
      var sub := BeginRead(a, b, p, edge, offset, more);
      var k, i, length, ended;
      k, i, sub, length, ended := Gather(a, b, p, sub, more);
      if ended {
        tree := ReadToEnd(a, b, p.At(k, p.node[k], i), sub, length);
        used := length;
      } else {
        used := ReadPart(a, b, p, k, i, sub, length);
        tree := Some(sub);
      }
    }

    /** The last edge of a read: the tree gets the `length` bytes wanted of it, the navigator moves there. */
    method ReadPart(a: Arena, ghost b: Begun, ghost p: Route, k: nat, i: nat, sub: Id, length: nat) returns (used: nat)
      requires a.Ok() && k <= p.top && Agrees(p, k + 1) && b.n0 <= sub < a.next && node[k] in b.h0
      requires b.h0[node[k]].rep.Btree?
      requires Reading(b, p.At(k, p.node[k], i), k, a.cells, a.held, sub, length)
      requires i + 1 < b.h0[node[k]].rep.end <= |b.h0[node[k]].rep.slots| && b.h0[node[k]].rep.slots[i + 1] in b.h0
      requires length < b.h0[b.h0[node[k]].rep.slots[i + 1]].rep.Len()
      modifies a, index, node
      ensures a.Ok() && height == old(height) && Valid(a.cells) && Root() == old(Root())
      ensures Fresh(b.h0, b.n0, b.held0, {}, a.cells, a.held, sub) && Shape(a.cells)
      ensures sub in a.cells && a.cells[sub].rep.Level() <= p.top + 1
      ensures Shape(b.h0) && b.root in b.h0 && b.start <= b.goal < |Bytes(b.h0, b.root)|
      ensures Bytes(a.cells, sub) == Bytes(b.h0, b.root)[b.start..b.goal]
      ensures Current(a.cells) in a.cells && used < a.cells[Current(a.cells)].rep.Len()
      ensures Offset(a.cells) + used == b.goal
    {
      hide Inv, RepOk, Reading, Past, On, Edge, Bytes, Position, Fresh, AllSettled, Growing;
      ghost var v := p.At(k, p.node[k], i);
      ReadingFacts(b, v, k, a.cells, a.held, sub, length);
      var edge := a.cells[node[k]].rep.slots[i + 1];
      PartAhead(b, v, k, a.cells, a.held, sub, length);
      if length != 0 {
        TakePart(a, b, v, k, i + 1, sub, edge, length);
      }
      FreshParts(b.h0, b.n0, b.held0, a.cells, a.held, sub);
      Put(k, node[k], i + 1);
      MovedTo(b, v, p, Stack(), k, i + 1, a.cells);
      var e;
      e, used := Descend(a.cells, k, length);
    }
  }

  lemma NodeAt'(h: Heap, p: Route, k: nat)
    requires On(h, p, k)
    ensures p.Sized() && k <= p.top && p.node[k] in h && IsNode(h[p.node[k]].rep) && h[p.node[k]].rep.height == k
    ensures h[p.node[k]].rep.begin <= p.index[k] < h[p.node[k]].rep.end
    ensures Edge(h, p, k) == h[p.node[k]].rep.slots[p.index[k]]
  {
  }

  /** The edge in slot `i` of the path's node at height `k` ends at byte `past` of the tree. */
  ghost predicate EndsAt(h: Heap, p: Route, k: nat, i: nat, past: nat) {
    && Shape(h) && AllSettled(h, {}) && p.Sized() && k <= p.top && On(h, p.At(k, p.node[k], i), k)
    && Edge(h, p.At(k, p.node[k], i), k) in h
    && Position(h, p.At(k, p.node[k], i), k) + h[Edge(h, p.At(k, p.node[k], i), k)].rep.Len() == past
  }

  lemma StartSlot(h: Heap, p: Route, k: nat, i: nat, past: nat)
    requires Shape(h) && AllSettled(h, {}) && p.Sized() && k <= p.top && On(h, p.At(k, p.node[k], i), k)
    requires Edge(h, p.At(k, p.node[k], i), k) in h
    requires Position(h, p.At(k, p.node[k], i), k) + h[Edge(h, p.At(k, p.node[k], i), k)].rep.Len() == past
    ensures EndsAt(h, p, k, i, past)
  {
  }

  lemma SlotNode(h: Heap, p: Route, k: nat, i: nat, past: nat)
    requires EndsAt(h, p, k, i, past)
    ensures p.Sized() && k <= p.top && p.node[k] in h && IsNode(h[p.node[k]].rep)
  {
  }

  /** The edge in slot `i` of the path's node at height `k` starts at byte `past` of the tree. */
  ghost predicate StartsAt(h: Heap, p: Route, k: nat, i: nat, past: nat) {
    && Shape(h) && p.Sized() && k <= p.top && On(h, p.At(k, p.node[k], i), k)
    && Position(h, p.At(k, p.node[k], i), k) == past
  }

  /** Past the last slot of a node, the path goes on where that node is an edge. */
  lemma SlotUp(h: Heap, p: Route, k: nat, i: nat, past: nat)
    requires EndsAt(h, p, k, i, past) && p.node[k] in h && IsNode(h[p.node[k]].rep) && i + 1 == h[p.node[k]].rep.end
    ensures k == p.top ==> past == h[p.node[k]].rep.Len()
    ensures k < p.top ==>
      EndsAt(h, p, k + 1, p.index[k + 1], past) && p.node[k + 1] in h && IsNode(h[p.node[k + 1]].rep)
  {
    hide Side, RepOk, AllSettled, Position, On, Edge;
    var v := p.At(k, p.node[k], i);
    PositionUp(h, v, k);
    if k < p.top {
      SamePositions(h, v, p, k + 1);
      EdgeLen(h, v, k + 1);
      NodeAt'(h, p, k + 1);
    }
  }

  lemma SlotAcross(h: Heap, p: Route, k: nat, i: nat, past: nat)
    requires EndsAt(h, p, k, i, past) && p.node[k] in h && IsNode(h[p.node[k]].rep) && i + 1 != h[p.node[k]].rep.end
    ensures StartsAt(h, p, k, i + 1, past)
  {
    hide Side, RepOk, AllSettled, Position, On, Edge;
    var v := p.At(k, p.node[k], i);
    NodeAt'(h, v, k);
    PositionAcross(h, v, k, i + 1);
    assert v.At(k, p.node[k], i + 1) == p.At(k, p.node[k], i + 1);
  }

  /** Paths that differ below height `k` only. */
  lemma SamePositions(h: Heap, v: Route, p: Route, k: nat)
    requires Shape(h) && On(h, v, k) && p.Sized() && p.top == v.top && k <= p.top
    requires forall i :: k <= i <= p.top ==> p.node[i] == v.node[i] && p.index[i] == v.index[i]
    ensures On(h, p, k) && p.At(k, p.node[k], p.index[k]) == p
    ensures Edge(h, p, k) == Edge(h, v, k) && Position(h, p, k) == Position(h, v, k)
  {
    SideAbove(h, v, p, false, k);
  }

  /** The part of a read that lies within a single edge. */
  method ReadWithin(a: Arena, ghost b: Begun, ghost p: Route, edge: Id, offset: nat, n: nat) returns (r: Id)
    requires a.Ok() && a.cells == b.h0 && a.held == b.held0 && a.next == b.n0 && Ready(b, p, 0)
    requires edge == Edge(b.h0, p, 0) && edge in b.h0 && 0 < n && offset + n < b.h0[edge].rep.Len()
    requires b.start == Position(b.h0, p, 0) + offset && b.goal == b.start + n
    modifies a
    ensures a.Ok() && Fresh(b.h0, b.n0, b.held0, {}, a.cells, a.held, r) && Shape(a.cells)
    ensures r in a.cells && a.cells[r].rep.Level() == 0
    ensures b.goal <= |Bytes(b.h0, b.root)| && Bytes(a.cells, r) == Bytes(b.h0, b.root)[b.start..b.goal]
  {
    hide Inv, RepOk, On, Edge, Bytes, Position, Fresh, AllSettled, Slice;
    assert Past(b.h0, p, 0) == Position(b.h0, p, 0) + b.h0[edge].rep.Len();
    hide Past;
    EdgeLen(b.h0, p, 0);
    EdgeSlice(b.h0, p, 0);
    SliceWithin(Bytes(b.h0, b.root), Position(b.h0, p, 0), Past(b.h0, p, 0), offset, n);
    r := Part(a, {}, edge, offset, n);
    FreshParts(b.h0, b.n0, b.held0, a.cells, a.held, r);
  }

  lemma SliceWithin(s: seq<byte>, i: nat, j: nat, offset: nat, n: nat)
    requires i + offset + n <= j <= |s|
    ensures Slice(s[i..j], offset, n) == s[i + offset..i + offset + n]
  {
    var t, u, w := s[i..j], s[i..j][offset..offset + n], s[i + offset..i + offset + n];
    forall k | 0 <= k < |u| ensures u[k] == w[k] {
      assert u[k] == t[offset + k] == s[i + (offset + k)];
    }
  }

  /** A read that has come to the end of the tree: what was built is complete, or is given up. */
  method ReadToEnd(a: Arena, ghost b: Begun, ghost v: Route, sub: Id, length: nat) returns (tree: Option<Id>)
    requires a.Ok() && v.Sized() && Reading(b, v, v.top, a.cells, a.held, sub, length) && Inv(b.h0, b.held0)
    requires v.index[v.top] + 1 == b.h0[v.node[v.top]].rep.end
    modifies a
    ensures a.Ok() && b.goal == |Bytes(b.h0, b.root)| + length && b.start <= |Bytes(b.h0, b.root)|
    ensures length > 0 ==> tree.None? && a.cells == b.h0 && a.held == b.held0
    ensures length == 0 ==> tree == Some(sub) && Fresh(b.h0, b.n0, b.held0, {}, a.cells, a.held, sub) && Shape(a.cells)
    ensures length == 0 ==> sub in a.cells && a.cells[sub].rep.Level() <= v.top + 1
    ensures length == 0 ==> Bytes(a.cells, sub) == Bytes(b.h0, b.root)[b.start..b.goal]
  {
    hide Inv, RepOk, Bytes, Position, AllSettled, Growing, Past, On, Fresh, OnlyUnreachableGone;
    ghost var h1 := a.cells;
    ReadAll(b, v, h1, a.held, sub, length);
    FreshParts(b.h0, b.n0, b.held0, h1, a.held, sub);
    if length == 0 {
      tree := Some(sub);
    } else {
      Unref(a, sub);
      assert a.held == b.held0;
      Restored(b.h0, b.n0, b.held0, h1, a.cells);
      tree := None;
    }
  }

  lemma ReadyAt(b: Begun, p: Route)
    requires Shape(b.h0) && AllSettled(b.h0, {}) && On(b.h0, p, 0) && b.root == p.node[p.top]
    requires forall x :: x in b.h0 ==> x < b.n0
    ensures Ready(b, p, 0) && p.node[0] in b.h0 && IsNode(b.h0[p.node[0]].rep) && p.index[0] < b.h0[p.node[0]].rep.end
    ensures Edge(b.h0, p, 0) == b.h0[p.node[0]].rep.slots[p.index[0]] && b.root in b.h0
    ensures b.h0[b.root].rep.Level() == p.top + 1
    ensures Edge(b.h0, p, 0) in b.h0 ==> Past(b.h0, p, 0) == Position(b.h0, p, 0) + b.h0[Edge(b.h0, p, 0)].rep.Len()
  {
  }

  /** The edge in the next slot. */
  lemma EdgeAfter(b: Begun, v: Route, k: nat, i: nat)
    requires Ready(b, v, k) && i == v.index[k] + 1 < b.h0[v.node[k]].rep.end
    ensures v.node[k] in b.h0 && IsNode(b.h0[v.node[k]].rep)
    ensures b.h0[v.node[k]].rep.slots[i] in b.h0 && b.h0[b.h0[v.node[k]].rep.slots[i]].rep.Len() > 0
  {
    ReadyAcross(b, v, k, i);
  }

  /** Before a part of the next edge is taken. */
  lemma PartAhead(b: Begun, v: Route, k: nat, h: Heap, held: multiset<Id>, sub: Id, length: nat)
    requires Reading(b, v, k, h, held, sub, length) && v.index[k] + 1 < b.h0[v.node[k]].rep.end
    requires var e := b.h0[v.node[k]].rep.slots[v.index[k] + 1]; e in b.h0 && length < b.h0[e].rep.Len()
    ensures b.start <= b.goal < |Bytes(b.h0, b.root)| && Fresh(b.h0, b.n0, b.held0, {}, h, held, sub)
    ensures h[sub].rep.Level() <= k + 1
    ensures Past(b.h0, v, k) + length == b.goal
    ensures length == 0 ==> Bytes(h, sub) == Bytes(b.h0, b.root)[b.start..b.goal]
  {
    hide Inv, RepOk, Bytes, Position, Fresh, AllSettled;
    ReadyAcross(b, v, k, v.index[k] + 1);
  }

  /** The route with slot `i` at height `k` leads to where the read goes on. */
  lemma MovedTo(b: Begun, v: Route, p: Route, q: Route, k: nat, i: nat, h: Heap)
    requires Ready(b, v, k) && i == v.index[k] + 1 < b.h0[v.node[k]].rep.end && Shape(h) && Extends(b.h0, h)
    requires p.Sized() && q.Sized() && q.top == v.top == p.top && k <= p.top && v.node == p.node && q.node == p.node
    requires q.index[k] == i
    requires forall j :: k < j <= p.top ==> q.index[j] == p.index[j] == v.index[j]
    ensures On(h, q, k) && Position(h, q, k) == Past(b.h0, v, k)
    ensures Edge(h, q, k) == b.h0[v.node[k]].rep.slots[i] && Edge(h, q, k) in b.h0 && Edge(h, q, k) in h
    ensures h[Edge(h, q, k)].rep == b.h0[Edge(h, q, k)].rep
  {
    hide RepOk, Bytes, Side, AllSettled;
    ReadyAcross(b, v, k, i);
    SideAbove(b.h0, v.At(k, v.node[k], i), q, false, k);
    PositionExtends(b.h0, h, q, k);
  }

  lemma AboveIs(h: Heap, p: Route, k: nat, ahead: bool)
    requires Shape(h) && 0 < k <= p.top && On(h, p, k - 1)
    ensures On(h, p, k) && Edge(h, p, k) == p.node[k - 1]
    ensures Above(h, p, k - 1, ahead) == Side(h, p, ahead, k) && Above(h, p, k - 1, !ahead) == Side(h, p, !ahead, k)
  {
    OnUp(h, p, k - 1);
  }

  lemma AboveTop(h: Heap, p: Route, ahead: bool)
    requires Shape(h) && On(h, p, p.top)
    ensures Above(h, p, p.top, ahead) == []
  {
  }

  lemma JoinNotEmpty(back: bool, a: seq<Id>, e: Id)
    ensures Join(back, a, [e]) != []
  {
  }

  lemma SettledAt(h: Heap, x: Id)
    requires Shape(h) && AllSettled(h, {}) && x in h && h[x].rep.Btree?
    ensures IsSettledNode(h, h[x].rep) && IsNode(h[x].rep) && h[x].rep.begin < h[x].rep.end
  {
    SettledNode(h, {}, h[x].rep.Level(), x);
  }

  lemma TopSides(h: Heap, p: Route, back: bool)
    requires Shape(h) && p.Sized() && p.node[p.top] in h && IsNode(h[p.node[p.top]].rep)
    requires h[p.node[p.top]].rep.height == p.top
    requires h[p.node[p.top]].rep.begin <= p.index[p.top] < h[p.node[p.top]].rep.end
    requires p.index[p.top] == EndSlot(h[p.node[p.top]].rep, back)
    ensures On(h, p, p.top) && Side(h, p, back, p.top) == []
  {
    RowEnd(h, p.node[p.top], back, p.index[p.top]);
  }
}
