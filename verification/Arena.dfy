/**
The mutable heap and its reference counting (rep.rs, and the destructors of rep/btree.rs).

A method that adopts a reference removes it from `held`; one that transfers a reference back
adds it. A node that is freed leaves the heap at once and its edges become handles, which the
destructor then gives up one by one.
*/
module Arenas {
  import opened Heap
  import opened Counts

  class Arena {
    var cells: Heap
    /** Ids are handed out in order and never again. */
    var next: Id
    ghost var held: multiset<Id>

    constructor ()
      ensures Ok() && cells == map[] && held == multiset{}
    {
      cells := map[];
      next := 0;
      held := multiset{};
    }

    ghost predicate Ok()
      reads this
    {
      Inv(cells, held) && forall x :: x in cells ==> x < next
    }
  }

  /** Takes a new reference on `x`. */
  method Ref(a: Arena, x: Id)
    requires a.Ok() && x in a.cells
    modifies a
    ensures a.Ok() && a.next == old(a.next)
    ensures a.held == old(a.held) + multiset{x}
    ensures a.cells == old(a.cells)[x := Cell(old(a.cells)[x].rc + 1, old(a.cells)[x].rep)]
  {
    hide Inv, RepOk;
    RefInv(a.cells, a.held, x);
    a.cells := a.cells[x := Cell(a.cells[x].rc + 1, a.cells[x].rep)];
    a.held := a.held + multiset{x};
  }

  /** Every cell of the first heap is still there, with at least its count. */
  ghost predicate Extends(h: Heap, h': Heap) {
    forall x :: x in h ==> x in h' && Same(h[x], h'[x]) && h[x].rc <= h'[x].rc
  }

  /** Takes one new reference per element of `es`. */
  method RefAll(a: Arena, es: seq<Id>)
    requires a.Ok() && forall e :: e in es ==> e in a.cells
    modifies a
    ensures a.Ok() && a.next == old(a.next)
    ensures a.held == old(a.held) + multiset(es)
    ensures a.cells.Keys == old(a.cells).Keys && Extends(old(a.cells), a.cells)
    ensures forall x :: x in a.cells ==> a.cells[x].rc == old(a.cells)[x].rc + multiset(es)[x]
  {
    hide Inv, RepOk;
    var i := 0;
    assert es[..0] == [];
    while i < |es|
      invariant i <= |es|
      invariant a.Ok() && a.next == old(a.next)
      invariant a.held == old(a.held) + multiset(es[..i])
      invariant a.cells.Keys == old(a.cells).Keys && Extends(old(a.cells), a.cells)
      invariant forall x :: x in a.cells ==> a.cells[x].rc == old(a.cells)[x].rc + multiset(es[..i])[x]
    {
      assert es[..i + 1] == es[..i] + [es[i]];
      Ref(a, es[i]);
      i := i + 1;
    }
    assert es[..i] == es;
  }

  /** Allocates `c`, which adopts one handle per edge. */
  method Alloc(a: Arena, c: Cell) returns (x: Id)
    requires a.Ok() && c.rc == 1 && RepOk(a.cells, c.rep) && multiset(c.rep.Out()) <= a.held
    modifies a
    ensures a.Ok() && x == old(a.next) && a.next == x + 1
    ensures x !in old(a.cells) && a.cells == old(a.cells)[x := c]
    ensures a.held == old(a.held) - multiset(c.rep.Out()) + multiset{x}
  {
    hide Inv, RepOk;
    x := a.next;
    AllocInv(a.cells, a.held, x, c);
    a.cells := a.cells[x := c];
    a.held := a.held - multiset(c.rep.Out()) + multiset{x};
    a.next := x + 1;
  }

  /** Rewrites node `x`: the edges it loses become handles, the edges it gains are adopted. */
  method WriteNode(a: Arena, x: Id, c: Cell)
    requires a.Ok() && x in a.cells && a.cells[x].rep.Btree? && c.rep.Btree?
    requires c.rc == a.cells[x].rc && c.rep.height == a.cells[x].rep.height && RepOk(a.cells, c.rep)
    requires multiset(c.rep.Out()) <= a.held + multiset(a.cells[x].rep.Out())
    modifies a
    ensures a.Ok() && a.next == old(a.next)
    ensures a.cells == old(a.cells)[x := c]
    ensures a.held == old(a.held) + multiset(old(a.cells)[x].rep.Out()) - multiset(c.rep.Out())
  {
    hide Inv, RepOk;
    InvShape(a.cells, a.held);
    ShapeWriteNode(a.cells, x, c);
    WriteInv(a.cells, a.held, x, c);
    a.held := a.held + multiset(a.cells[x].rep.Out()) - multiset(c.rep.Out());
    a.cells := a.cells[x := c];
  }

  /** Frees `x` itself through its last reference; its edges become handles. */
  method Delete(a: Arena, x: Id)
    requires a.Ok() && x in a.held && a.cells[x].rc == 1
    modifies a
    ensures a.Ok() && a.next == old(a.next)
    ensures a.cells == old(a.cells) - {x}
    ensures a.held == old(a.held) - multiset{x} + multiset(old(a.cells)[x].rep.Out())
  {
    hide Inv, RepOk;
    HeldIn(a.cells, a.held, x);
    DeleteInv(a.cells, a.held, x);
    a.held := a.held - multiset{x} + multiset(a.cells[x].rep.Out());
    a.cells := a.cells - {x};
  }

  /** Gives up a reference unless it is the last one, in which case nothing changes. */
  method RefDec(a: Arena, x: Id) returns (alive: bool)
    requires a.Ok() && x in a.held
    modifies a
    ensures a.Ok() && a.next == old(a.next)
    ensures x in old(a.cells) && old(a.cells)[x].rc > 0 && (alive <==> old(a.cells)[x].rc != 1)
    ensures alive ==> a.held == old(a.held) - multiset{x} && Shrunk(old(a.cells), a.cells)
    ensures !alive ==> a.held == old(a.held) && a.cells == old(a.cells)
    ensures alive ==> a.cells == old(a.cells)[x := Cell(old(a.cells)[x].rc - 1, old(a.cells)[x].rep)]
    ensures SameAbove(old(a.cells), old(a.cells)[x].rep.Rank(), a.cells)
  {
    hide Inv, RepOk;
    HeldIn(a.cells, a.held, x);
    alive := a.cells[x].rc != 1;
    if alive {
      DecInv(a.cells, a.held, x);
      a.cells := a.cells[x := Cell(a.cells[x].rc - 1, a.cells[x].rep)];
      a.held := a.held - multiset{x};
    }
  }

  /**
  Gives up a reference on `x`. Whatever is freed was reachable from no remaining handle, and
  everything unreachable is freed (`FreedExactlyTheUnreachable`).
  */
  method Unref(a: Arena, x: Id)
    requires a.Ok() && x in a.held
    modifies a
    ensures a.Ok() && a.next == old(a.next)
    ensures a.held == old(a.held) - multiset{x}
    ensures Shrunk(old(a.cells), a.cells)
    ensures SameAbove(old(a.cells), old(a.cells)[x].rep.Rank(), a.cells)
    ensures old(a.cells)[x].rc > 1 ==> a.cells == old(a.cells)[x := Cell(old(a.cells)[x].rc - 1, old(a.cells)[x].rep)]
    ensures OnlyUnreachableGone(old(a.cells), a.held, a.cells)
    decreases a.cells[x].rep.Rank(), 2
  {
    hide Inv, RepOk, OnlyUnreachableGone;
    HeldIn(a.cells, a.held, x);
    var alive := RefDec(a, x);
    if !alive {
      Destroy(a, x);
    }
    FreedExactlyTheUnreachable(old(a.cells), a.cells, a.held);
  }

  /** Frees `x`, whose last reference is given up, and all it alone kept alive. */
  method Destroy(a: Arena, x: Id)
    requires a.Ok() && x in a.held && a.cells[x].rc == 1
    modifies a
    ensures a.Ok() && a.next == old(a.next)
    ensures a.held == old(a.held) - multiset{x}
    ensures Shrunk(old(a.cells), a.cells)
    ensures SameAbove(old(a.cells), old(a.cells)[x].rep.Rank(), a.cells)
    decreases a.cells[x].rep.Rank(), 1
  {
    hide Inv, RepOk, Shrunk, SameAbove;
    var rep := x;
    HeldIn(a.cells, a.held, x);
    ghost var h := a.cells;
    ghost var r := a.cells[x].rep.Rank();
    ghost var rest := a.held - multiset{x};
    assert a.held == rest + multiset{x};
    ShrunkSelf(h, r);
    while a.cells[rep].rep.Substring?
      invariant a.Ok() && a.next == old(a.next)
      invariant rep in a.held && a.held - multiset{rep} == rest && rep in a.cells && a.cells[rep].rc == 1
      invariant Shrunk(h, a.cells) && SameAbove(h, r, a.cells)
      invariant a.cells[rep].rep.Rank() <= r
      decreases a.cells[rep].rep.Rank()
    {
      var child := a.cells[rep].rep.child;
      ghost var h1, r1 := a.cells, a.cells[rep].rep.Rank();
      var alive := DestroySubstring(a, rep);
      ShrunkTrans(h, h1, a.cells, r, r1);
      if alive {
        return;
      }
      rep := child;
    }
    ghost var h1, r1 := a.cells, a.cells[rep].rep.Rank();
    if a.cells[rep].rep.Btree? {
      DestroyNode(a, rep);
    } else {
      assert a.cells[rep].rep.Out() == [];
      ShrunkDelete(h1, rep);
      Delete(a, rep);
    }
    ShrunkTrans(h, h1, a.cells, r, r1);
  }

  /** Frees a substring node and gives up its reference on the child, unless that is the last. */
  method DestroySubstring(a: Arena, x: Id) returns (alive: bool)
    requires a.Ok() && x in a.held && a.cells[x].rc == 1 && a.cells[x].rep.Substring?
    modifies a
    ensures a.Ok() && a.next == old(a.next)
    ensures Shrunk(old(a.cells), a.cells)
    ensures var child := old(a.cells)[x].rep.child;
      if alive then a.held == old(a.held) - multiset{x}
      else a.held == old(a.held) - multiset{x} + multiset{child} && child in a.cells &&
           a.cells[child].rc == 1 && a.cells[child].rep.Rank() == 0
    ensures SameAbove(old(a.cells), old(a.cells)[x].rep.Rank(), a.cells)
  {
    hide Inv, RepOk, Shrunk, SameAbove;
    HeldIn(a.cells, a.held, x);
    EdgesBelow(a.cells, x);
    ghost var h, rank := a.cells, a.cells[x].rep.Rank();
    var child := a.cells[x].rep.child;
    assert a.cells[x].rep.Out() == [child];
    Delete(a, x);
    Deleted(h, x);
    HeldIn(a.cells, a.held, child);
    ghost var h1 := a.cells;
    alive := RefDec(a, child);
    if alive {
      ShrunkTrans(h, h1, a.cells, rank, h1[child].rep.Rank());
    }
  }

  lemma Deleted(h: Heap, x: Id)
    requires x in h
    ensures Shrunk(h, h - {x}) && SameAbove(h, h[x].rep.Rank(), h - {x})
  {
  }

  /** `Destroy` for a btree node: leaves directly, taller nodes two levels at a time. */
  method DestroyNode(a: Arena, x: Id)
    requires a.Ok() && x in a.held && a.cells[x].rc == 1 && a.cells[x].rep.Btree?
    modifies a
    ensures a.Ok() && a.next == old(a.next)
    ensures a.held == old(a.held) - multiset{x}
    ensures Shrunk(old(a.cells), a.cells)
    ensures SameAbove(old(a.cells), old(a.cells)[x].rep.Rank(), a.cells)
    decreases a.cells[x].rep.Rank(), 0, 1
  {
    hide Inv, RepOk;
    HeldIn(a.cells, a.held, x);
    var c := a.cells[x];
    EdgesBelow(a.cells, x);
    if c.rep.height == 0 {
      Delete(a, x);
      UnrefEdges(a, c.rep.Out(), c.rep.Rank());
    } else {
      DestroyTree(a, x);
    }
  }

  lemma BagHead(es: seq<Id>, i: nat)
    requires i < |es|
    ensures multiset(es[i..]) == multiset{es[i]} + multiset(es[i + 1..])
  {
    assert es[i..] == [es[i]] + es[i + 1..];
  }

  /** Gives up one reference per element of `es`, destroying what reaches zero. */
  method UnrefEdges(a: Arena, es: seq<Id>, ghost r: nat)
    requires a.Ok() && multiset(es) <= a.held
    requires forall e :: e in es ==> e in a.cells && a.cells[e].rep.Rank() < r
    modifies a
    ensures a.Ok() && a.next == old(a.next)
    ensures a.held == old(a.held) - multiset(es)
    ensures Shrunk(old(a.cells), a.cells)
    ensures SameAbove(old(a.cells), r, a.cells)
    decreases r, 0, 0
  {
    hide Inv, RepOk, Shrunk, SameAbove, OnlyUnreachableGone;
    var i := 0;
    ghost var h, rest := a.cells, a.held - multiset(es);
    assert es[0..] == es;
    ShrunkSelf(h, r);
    while i < |es|
      invariant i <= |es|
      invariant a.Ok() && a.next == old(a.next)
      invariant a.held == rest + multiset(es[i..])
      invariant Shrunk(h, a.cells) && SameAbove(h, r, a.cells)
    {
      BagHead(es, i);
      HeldIn(a.cells, a.held, es[i]);
      assert es[i] in es;
      ghost var h1 := a.cells;
      ShrunkAt(h, h1, es[i]);
      Unref(a, es[i]);
      ShrunkTrans(h, h1, a.cells, r, h1[es[i]].rep.Rank());
      i := i + 1;
    }
    assert es[i..] == [];
  }

  /** Frees `node` without a recursive call of its own if this was its last reference. */
  method UnrefChild(a: Arena, node: Id, ghost r: nat)
    requires a.Ok() && node in a.held && a.cells[node].rep.Rank() <= r
    modifies a
    ensures a.Ok() && a.next == old(a.next)
    ensures a.held == old(a.held) - multiset{node}
    ensures Shrunk(old(a.cells), a.cells)
    ensures SameAbove(old(a.cells), r, a.cells)
    decreases r, 0, 1
  {
    hide Inv, RepOk;
    HeldIn(a.cells, a.held, node);
    var alive := RefDec(a, node);
    if !alive {
      var inner := a.cells[node].rep.Out();
      EdgesBelow(a.cells, node);
      Delete(a, node);
      UnrefEdges(a, inner, r);
    }
  }

  /** `DestroyNode` for height 1 and more: frees children in line and recurses on grandchildren. */
  method DestroyTree(a: Arena, x: Id)
    requires a.Ok() && x in a.held && a.cells[x].rc == 1 && a.cells[x].rep.Btree? && a.cells[x].rep.height >= 1
    modifies a
    ensures a.Ok() && a.next == old(a.next)
    ensures a.held == old(a.held) - multiset{x}
    ensures Shrunk(old(a.cells), a.cells)
    ensures SameAbove(old(a.cells), old(a.cells)[x].rep.Rank(), a.cells)
    decreases a.cells[x].rep.Rank(), 0, 0
  {
    hide Inv, RepOk, Shrunk, SameAbove;
    HeldIn(a.cells, a.held, x);
    ghost var h, r := a.cells, a.cells[x].rep.Rank();
    var es := a.cells[x].rep.Out();
    EdgesBelow(a.cells, x);
    ShrunkDelete(h, x);
    Delete(a, x);
    ghost var h1 := a.cells;
    UnrefChildren(a, es, r - 1);
    ShrunkTrans(h, h1, a.cells, r, r - 1);
  }

  /** Gives up the nodes `es`. */
  method UnrefChildren(a: Arena, es: seq<Id>, ghost r: nat)
    requires a.Ok() && multiset(es) <= a.held
    requires forall e :: e in es ==> e in a.cells && a.cells[e].rep.Rank() <= r
    modifies a
    ensures a.Ok() && a.next == old(a.next)
    ensures a.held == old(a.held) - multiset(es)
    ensures Shrunk(old(a.cells), a.cells)
    ensures SameAbove(old(a.cells), r, a.cells)
    decreases r, 0, 2
  {
    hide Inv, RepOk, Shrunk, SameAbove;
    var i := 0;
    ghost var h, rest := a.cells, a.held - multiset(es);
    assert es[0..] == es;
    ShrunkSelf(h, r);
    while i < |es|
      invariant i <= |es|
      invariant a.Ok() && a.next == old(a.next)
      invariant a.held == rest + multiset(es[i..])
      invariant Shrunk(h, a.cells) && SameAbove(h, r, a.cells)
    {
      BagHead(es, i);
      HeldIn(a.cells, a.held, es[i]);
      assert es[i] in es;
      ghost var h1 := a.cells;
      ShrunkAt(h, h1, es[i]);
      UnrefChild(a, es[i], r);
      ShrunkTrans(h, h1, a.cells, r, r);
      i := i + 1;
    }
    assert es[i..] == [];
  }

  lemma EdgesBelow(h: Heap, x: Id)
    requires Shape(h) && x in h
    ensures forall e :: e in h[x].rep.Out() ==> e in h && e != x && h[e].rep.Rank() < h[x].rep.Rank()
  {
    forall e | e in h[x].rep.Out() ensures e in h && e != x && h[e].rep.Rank() < h[x].rep.Rank() {
      EdgeIn(h, x, e);
    }
  }
}
