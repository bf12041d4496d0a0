/**
The steps of an edit as methods: attaching an edge to a node of the leg, replacing the child of
a node of the leg, and bringing lengths up to date.
*/
module Steps {
  import opened Heap
  import opened Counts
  import opened Arenas
  import opened Legs
  import opened Nodes
  import opened Edits
  import opened Climbs

  /** Adds the handle `e` to the node at depth `d`. */
  method AttachAt(a: Arena, ghost c: Edit, ghost d: nat, node: Id, back: bool, owned: bool, e: Id, delta: nat)
    returns (r: Id, action: Action)
    requires a.Ok() && CanAttach(c, a.cells, a.held, d, [e]) && a.next >= c.n0
    requires c.stack[d] == node && c.back == back && owned == (d < c.s) && c.delta == delta
    modifies a
    ensures a.Ok() && a.next >= old(a.next) && State(c, a.cells, a.held, d, action, r)
    ensures action == (if |old(a.cells)[node].rep.Out()| >= MAX_CAPACITY then Popped
                       else if owned then InPlace else Copied)
    ensures Edited(old(a.cells), node, old(a.cells)[node].rep.Out(), action, r, a.cells)
    ensures action != InPlace ==> r >= old(a.next)
    ensures NodeWith(a.cells[r].rep, old(a.cells)[node].rep.height, a.cells[r].rep.length,
                     if action == Popped then [e] else Join(back, old(a.cells)[node].rep.Out(), [e]))
  {
    hide Inv, RepOk, PrivateLeg, PrivateEdges, State, Join, Leaves, LeavesOf, Clean, AllSettled, Outer;
    ghost var h := a.cells;
    ghost var held := a.held;
    InvShape(h, held);
    InvShape(c.h0, c.held0);
    assert e in held && node in h && Same(h[node], c.h0[node]) by {
      CleanHeld(c, h, held, e);
      CleanLeg(c, h, held, [e]);
    }
    assert e in [e] && IsEdge(h, c.h0[node].rep.height, e);
    assert SumLen(h, [e]) == h[e].rep.Len() + SumLen(h, []);
    r, action := AddEdge(a, back, node, owned, e, delta);
    match action
    case InPlace =>
      Minus(held, e);
      AttachInPlace(c, h, held, d, [e], a.cells, a.held);
    case Popped =>
      AttachPopped(c, h, held, d, e, r, a.cells, a.held);
    case Copied =>
      if c.priv && c.h0[node].rep.height > 0 {
        PrivateEdgesRc(h, c.back, c.h0[node].rep.height, e);
        HeldIsNoEdge(h, held, e);
      }
      AttachCopied(c, h, held, d, [e], r, a.cells, a.held);
  }

  lemma PrivateEdgesRc(h: Heap, back: bool, k: nat, e: Id)
    requires Shape(h) && PrivateEdges(h, back, k, [e]) && k > 0
    ensures e in h && h[e].rc == 1
  {
  }

  /**
  Gives the node at depth `d` the edges of `rep`, which are its own and `more`: in place if
  owned, on a copy otherwise.
  */
  method AttachAll(a: Arena, ghost c: Edit, ghost d: nat, node: Id, owned: bool, rep: Rep, ghost more: seq<Id>)
    returns (r: Id, action: Action)
    requires a.Ok() && CanAttach(c, a.cells, a.held, d, more) && a.next >= c.n0
    requires c.priv ==> c.h0[c.stack[d]].rep.height == 0
    requires c.stack[d] == node && owned == (d < c.s)
    requires NodeWith(rep, c.h0[node].rep.height, c.h0[node].rep.length + c.delta,
        Join(c.back, c.h0[node].rep.Out(), more))
    modifies a
    ensures a.Ok() && a.next >= old(a.next) && State(c, a.cells, a.held, d, action, r)
    ensures action == if owned then InPlace else Copied
    ensures r in a.cells && a.cells[r].rep == rep
  {
    hide Inv, RepOk, PrivateLeg, PrivateEdges, State, Join, Leaves, LeavesOf, Clean;
    ghost var h := a.cells;
    ghost var held := a.held;
    InvShape(h, held);
    CleanLeg(c, h, held, more);
    MoreHeld(c, h, held, more);
    NodeOk(h, node);
    if owned {
      r, action := node, InPlace;
      InstallEdges(a, c.back, r, rep, more);
      AttachInPlace(c, h, held, d, more, a.cells, a.held);
    } else {
      action := Copied;
      r := CopyWith(a, c.back, node, rep, more);
      AttachCopied(c, h, held, d, more, r, a.cells, a.held);
    }
  }

  lemma MoreHeld(c: Edit, h: Heap, held: multiset<Id>, more: seq<Id>)
    requires Ready(c) && Clean(c, h, held, more)
    ensures multiset(more) <= held
  {
  }

  lemma Minus(held: multiset<Id>, e: Id)
    ensures held - multiset{e} + multiset{} == held - multiset{e}
  {
  }

  /** A popped node is an edge to attach one level up. */
  lemma PoppedCanAttach(c: Edit, h: Heap, held: multiset<Id>, d: nat, e: Id)
    requires State(c, h, held, d, Popped, e) && d > 0
    ensures CanAttach(c, h, held, d - 1, [e])
  {
    hide Inv, RepOk, PrivateLeg, AllSettled, Join;
    InvShape(h, held);
    LeavesOfOne(h, h[e].rep.Level(), e);
    assert SumLen(h, [e]) == h[e].rep.Len() + SumLen(h, []);
    assert c.h0[c.stack[d - 1]].rep.height == c.h0[c.stack[0]].rep.height - (d - 1);
    assert c.h0[c.stack[d]].rep.height == c.h0[c.stack[0]].rep.height - d;
  }

  /** Replaces the child below depth `d` by its grown copy `e`. */
  method ReplaceAt(a: Arena, ghost c: Edit, ghost d: nat, node: Id, back: bool, owned: bool, e: Id, delta: nat)
    returns (r: Id, action: Action)
    requires d + 1 < |c.stack|
    requires a.Ok() && State(c, a.cells, a.held, d + 1, Copied, e) && a.next >= c.n0
    requires c.stack[d] == node && c.back == back && owned == (d < c.s) && c.delta == delta
    modifies a
    ensures a.Ok() && a.next >= old(a.next) && State(c, a.cells, a.held, d, action, r)
    ensures action == (if owned then InPlace else Copied)
    ensures forall x :: x in old(a.cells) && x in a.cells && x != node ==> Same(old(a.cells)[x], a.cells[x])
    ensures r in a.cells
    ensures NodeWith(a.cells[r].rep, old(a.cells)[node].rep.height, a.cells[r].rep.length,
                     Join(back, Inner(back, old(a.cells)[node].rep.Out()), [e]))
  {
    hide Inv, RepOk, PrivateLeg, State, Join, Inner, Leaves, Clean;
    ghost var h := a.cells;
    ghost var held := a.held;
    StateParts(c, h, held, d + 1, e);
    assert e in held && node in h && Same(h[node], c.h0[node]) by {
      CleanHeld(c, h, held, e);
      CleanLeg(c, h, held, [e]);
    }
    ReplaceParts(c, h, held, d, e);
    r, action := SetEdge(a, back, node, owned, e, delta);
    match action
    case InPlace =>
      Minus(held, e);
      ReplaceInPlace(c, h, held, d, e, a.cells, a.held);
    case Copied =>
      ReplaceCopied(c, h, held, d, e, r, a.cells, a.held);
  }

  lemma StateParts(c: Edit, h: Heap, held: multiset<Id>, d: nat, e: Id)
    requires State(c, h, held, d, Copied, e)
    ensures Ready(c) && Inv(h, held) && Clean(c, h, held, [e]) && Shape(h) && Shape(c.h0)
  {
  }

  /** Two heaps that differ only in the stored lengths of btree nodes. */
  ghost predicate LengthOnly(h: Heap, h': Heap) {
    && h'.Keys == h.Keys
    && forall x :: x in h ==>
         h'[x].rc == h[x].rc &&
         if h[x].rep.Btree? then NodeWithOut(h'[x].rep, h[x].rep.height, h[x].rep.Out()) else h'[x] == h[x]
  }

  ghost predicate NodeWithOut(rep: Rep, height: nat, out: seq<Id>) {
    rep.Btree? && rep.height == height && rep.Out() == out
  }

  /** Adds `delta` to the stored length of every node above depth `d`. */
  method AddLengths(a: Arena, ghost c: Edit, stack: seq<Id>, d: nat, delta: nat)
    requires d < |stack| && stack == c.stack && delta == c.delta
    requires a.Ok() && State(c, a.cells, a.held, d, InPlace, stack[d])
    modifies a
    ensures a.Ok() && a.next == old(a.next)
    ensures Finished(c, a.cells, a.held, stack[0])
    ensures LengthOnly(old(a.cells), a.cells)
  {
    hide Inv, RepOk, State, Climbing, Finished, LengthOnly;
    ClimbStart(c, a.cells, a.held, d);
    LengthOnlySelf(a.cells);
    var i := d;
    while i > 0
      invariant 0 <= i <= d
      invariant a.Ok() && a.next == old(a.next)
      invariant Climbing(c, a.cells, a.held, d, i)
      invariant LengthOnly(old(a.cells), a.cells)
    {
      ghost var h := a.cells;
      ClimbOnce(a, c, stack[i - 1], d, i, delta);
      LengthOnlyTrans(old(a.cells), h, a.cells);
      i := i - 1;
    }
    ClimbDone(c, a.cells, a.held, d);
  }

  lemma LengthOnlySelf(h: Heap)
    ensures LengthOnly(h, h)
  {
  }

  lemma LengthOnlyTrans(h: Heap, h': Heap, h'': Heap)
    requires LengthOnly(h, h') && LengthOnly(h', h'')
    ensures LengthOnly(h, h'')
  {
  }

  method ClimbOnce(a: Arena, ghost c: Edit, x: Id, ghost d: nat, ghost i: nat, delta: nat)
    requires 0 < i <= d < |c.stack| && x == c.stack[i - 1] && delta == c.delta
    requires a.Ok() && Climbing(c, a.cells, a.held, d, i)
    modifies a
    ensures a.Ok() && a.next == old(a.next)
    ensures Climbing(c, a.cells, a.held, d, i - 1)
    ensures LengthOnly(old(a.cells), a.cells)
  {
    hide Inv, RepOk, Climbing;
    ghost var h := a.cells;
    LengthBehind(c, h, a.held, d, i);
    AddLength(a, x, delta);
    ClimbStep(c, h, a.held, d, i, a.cells);
  }

  method AddLength(a: Arena, x: Id, delta: nat)
    requires a.Ok() && x in a.cells && a.cells[x].rep.Btree?
    modifies a
    ensures a.Ok() && a.next == old(a.next) && a.held == old(a.held)
    ensures
      var was := old(a.cells)[x];
      a.cells == old(a.cells)[x := Cell(was.rc, was.rep.(length := was.rep.length + delta))]
  {
    hide Inv, RepOk;
    InvShape(a.cells, a.held);
    NodeOk(a.cells, x);
    var was := a.cells[x];
    var rep := was.rep.(length := was.rep.length + delta);
    assert rep.Out() == was.rep.Out();
    assert RepOk(a.cells, rep) by { SameEdgesOk(a.cells, was.rep, rep); }
    WriteNode(a, x, Cell(was.rc, rep));
    assert old(a.held) + multiset(rep.Out()) - multiset(rep.Out()) == old(a.held);
  }

  lemma SameEdgesOk(h: Heap, was: Rep, rep: Rep)
    requires RepOk(h, was) && was.Btree? && rep.Btree? && rep == was.(length := rep.length)
    ensures RepOk(h, rep)
  {
    assert rep.Out() == was.Out();
  }
}
