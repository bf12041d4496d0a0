/**
Reference counts.

`EdgeBag(h)` is the bag of all edges of the heap. The references that the program holds outside
the heap (cords, local variables that have adopted a reference) form a bag of handles. The
invariant says that the stored count of every cell is its number of edges plus its handles,
and that no cell with count zero is kept.
*/
module Counts {
  import opened Heap

  ghost function EdgeBag(h: Heap): multiset<Id> {
    if |h| == 0 then multiset{} else
      var x :| x in h;
      multiset(h[x].rep.Out()) + EdgeBag(h - {x})
  }

  /** The bag does not depend on the order in which the cells are visited. */
  lemma {:induction false} EdgeBagSplit(h: Heap, x: Id)
    requires x in h
    ensures EdgeBag(h) == multiset(h[x].rep.Out()) + EdgeBag(h - {x})
    decreases |h|
  {
    var y :| y in h && EdgeBag(h) == multiset(h[y].rep.Out()) + EdgeBag(h - {y});
    hide EdgeBag;
    if y != x {
      EdgeBagSplit(h - {y}, x);
      EdgeBagSplit(h - {x}, y);
      DropBoth(h, x, y);
      Commute(multiset(h[y].rep.Out()), multiset(h[x].rep.Out()), EdgeBag(h - {x} - {y}));
    }
  }

  lemma DropBoth(h: Heap, x: Id, y: Id)
    ensures h - {y} - {x} == h - {x} - {y}
  {
  }

  lemma Commute(a: multiset<Id>, b: multiset<Id>, c: multiset<Id>)
    ensures a + (b + c) == b + (a + c)
  {
  }

  lemma EdgeBagInsert(h: Heap, x: Id, c: Cell)
    requires x !in h
    ensures EdgeBag(h[x := c]) == EdgeBag(h) + multiset(c.rep.Out())
  {
    hide EdgeBag;
    EdgeBagSplit(h[x := c], x);
    assert h[x := c] - {x} == h;
  }

  lemma EdgeBagWrite(h: Heap, x: Id, c: Cell)
    requires x in h
    ensures EdgeBag(h[x := c]) + multiset(h[x].rep.Out()) == EdgeBag(h) + multiset(c.rep.Out())
  {
    hide EdgeBag;
    EdgeBagSplit(h, x);
    EdgeBagSplit(h[x := c], x);
    assert h[x := c] - {x} == h - {x};
  }

  lemma EdgeBagRecount(h: Heap, x: Id, c: Cell)
    requires x in h && c.rep.Out() == h[x].rep.Out()
    ensures EdgeBag(h[x := c]) == EdgeBag(h)
  {
    hide EdgeBag;
    EdgeBagWrite(h, x, c);
    Cancel(EdgeBag(h[x := c]), EdgeBag(h), multiset(c.rep.Out()));
  }

  lemma Cancel(a: multiset<Id>, b: multiset<Id>, c: multiset<Id>)
    requires a + c == b + c
    ensures a == b
  {
    assert a == a + c - c && b == b + c - c;
  }

  /** An edge is counted at least as often as its parent holds it. */
  lemma EdgeBagAtLeast(h: Heap, x: Id)
    requires x in h
    ensures multiset(h[x].rep.Out()) <= EdgeBag(h)
  {
    hide EdgeBag;
    EdgeBagSplit(h, x);
  }

  lemma EdgeBagTwo(h: Heap, x: Id, y: Id, e: Id)
    requires x in h && y in h && x != y && e in h[x].rep.Out() && e in h[y].rep.Out()
    ensures EdgeBag(h)[e] >= 2
  {
    hide EdgeBag;
    EdgeBagSplit(h, x);
    EdgeBagAtLeast(h - {x}, y);
    assert multiset(h[x].rep.Out())[e] >= 1 && multiset(h[y].rep.Out())[e] >= 1;
  }

  lemma {:induction false} EdgeBagParent(h: Heap, e: Id) returns (x: Id)
    requires e in EdgeBag(h)
    ensures x in h && e in h[x].rep.Out()
    decreases |h|
  {
    var y :| y in h && EdgeBag(h) == multiset(h[y].rep.Out()) + EdgeBag(h - {y});
    if e in h[y].rep.Out() {
      x := y;
    } else {
      x := EdgeBagParent(h - {y}, e);
    }
  }

  // --- The invariant ------------------------------------------------------------

  ghost predicate CountedBy(h: Heap, bag: multiset<Id>, held: multiset<Id>) {
    && (forall x :: x in held ==> x in h)
    && (forall x :: x in h ==> h[x].rc == bag[x] + held[x] && h[x].rc > 0)
  }

  ghost predicate Counted(h: Heap, held: multiset<Id>) {
    CountedBy(h, EdgeBag(h), held)
  }

  ghost predicate Inv(h: Heap, held: multiset<Id>) {
    Shape(h) && (forall x :: x in held ==> x in h) && Counted(h, held)
  }

  lemma InvShape(h: Heap, held: multiset<Id>)
    requires Inv(h, held)
    ensures Shape(h) && forall x :: x in held ==> x in h
  {
  }

  lemma HeldIn(h: Heap, held: multiset<Id>, x: Id)
    requires Inv(h, held) && x in held
    ensures Shape(h) && x in h && h[x].rc > 0
  {
  }

  /** Bytes, heights and lengths do not depend on counts. */
  lemma ShapeWithRc(h: Heap, x: Id, n: nat)
    requires Shape(h) && x in h
    ensures Shape(h[x := Cell(n, h[x].rep)])
  {
    var h' := h[x := Cell(n, h[x].rep)];
    forall y | y in h' ensures RepOk(h', h'[y].rep) {
      assert RepOk(h, h[y].rep);
    }
  }

  lemma ShapeInsert(h: Heap, x: Id, c: Cell)
    requires Shape(h) && x !in h && RepOk(h, c.rep)
    ensures Shape(h[x := c])
  {
    var h' := h[x := c];
    forall y | y in h' ensures RepOk(h', h'[y].rep) {
      assert y != x ==> RepOk(h, h[y].rep);
    }
  }

  lemma ShapeWriteNode(h: Heap, x: Id, c: Cell)
    requires Shape(h) && x in h && RepOk(h, c.rep) && h[x].rep.Btree? && c.rep.Btree? && c.rep.height == h[x].rep.height
    ensures Shape(h[x := c])
  {
    var h' := h[x := c];
    forall y | y in h' ensures RepOk(h', h'[y].rep) {
      assert y != x ==> RepOk(h, h[y].rep);
    }
  }

  /** Taking a reference. */
  lemma RefInv(h: Heap, held: multiset<Id>, x: Id)
    requires Inv(h, held) && x in h
    ensures Inv(h[x := Cell(h[x].rc + 1, h[x].rep)], held + multiset{x})
  {
    RecountInv(h, held, x, h[x].rc + 1, held + multiset{x});
  }

  /** Giving up a reference that is not the last one. */
  lemma DecInv(h: Heap, held: multiset<Id>, x: Id)
    requires Inv(h, held) && x in held && h[x].rc > 1
    ensures Inv(h[x := Cell(h[x].rc - 1, h[x].rep)], held - multiset{x})
  {
    RecountInv(h, held, x, h[x].rc - 1, held - multiset{x});
  }

  lemma RecountInv(h: Heap, held: multiset<Id>, x: Id, n: nat, held': multiset<Id>)
    requires Inv(h, held) && x in h && n > 0
    requires forall y :: y in h ==> held'[y] == if y == x then held[y] + n - h[x].rc else held[y]
    requires forall y :: y in held' ==> y in h
    ensures Inv(h[x := Cell(n, h[x].rep)], held')
  {
    hide EdgeBag, CountedBy, RepOk;
    var h' := h[x := Cell(n, h[x].rep)];
    ShapeWithRc(h, x, n);
    EdgeBagRecount(h, x, Cell(n, h[x].rep));
    Recount(h, EdgeBag(h), held, x, Cell(n, h[x].rep), held');
  }

  lemma Recount(h: Heap, bag: multiset<Id>, held: multiset<Id>, x: Id, c: Cell, held': multiset<Id>)
    requires CountedBy(h, bag, held) && x in h && c.rc > 0
    requires forall y :: y in h ==> held'[y] == if y == x then held[y] + c.rc - h[x].rc else held[y]
    requires forall y :: y in held' ==> y in h
    ensures CountedBy(h[x := c], bag, held')
  {
  }

  lemma EdgeIn(h: Heap, x: Id, e: Id)
    requires Shape(h) && x in h && e in h[x].rep.Out()
    ensures e in h && h[e].rep.Rank() < h[x].rep.Rank()
  {
    assert RepOk(h, h[x].rep);
    if h[x].rep.Btree? {
      assert IsEdge(h, h[x].rep.height, e);
    }
  }

  /** Every counted edge leads to a live cell. */
  lemma EdgeBagIn(h: Heap, e: Id)
    requires Shape(h) && e in EdgeBag(h)
    ensures e in h
  {
    hide EdgeBag;
    var y := EdgeBagParent(h, e);
    EdgeIn(h, y, e);
  }

  /** A fresh cell takes over one handle per edge and is returned as a handle. */
  lemma AllocInv(h: Heap, held: multiset<Id>, x: Id, c: Cell)
    requires Inv(h, held) && x !in h && c.rc == 1 && RepOk(h, c.rep) && multiset(c.rep.Out()) <= held
    ensures Inv(h[x := c], held - multiset(c.rep.Out()) + multiset{x})
  {
    hide EdgeBag, CountedBy, RepOk;
    ShapeInsert(h, x, c);
    EdgeBagInsert(h, x, c);
    if x in EdgeBag(h) {
      EdgeBagIn(h, x);
    }
    AllocCount(h, EdgeBag(h), held, x, c);
  }

  lemma AllocCount(h: Heap, bag: multiset<Id>, held: multiset<Id>, x: Id, c: Cell)
    requires CountedBy(h, bag, held) && x !in h && x !in bag && c.rc == 1 && multiset(c.rep.Out()) <= held
    ensures CountedBy(h[x := c], bag + multiset(c.rep.Out()), held - multiset(c.rep.Out()) + multiset{x})
  {
    var out := multiset(c.rep.Out());
    assert x !in out;
    forall y | y in h ensures h[y].rc == (bag + out)[y] + (held - out + multiset{x})[y] {
    }
  }

  /** Rewriting a cell returns its old edges as handles and takes over those of the new ones. */
  lemma WriteInv(h: Heap, held: multiset<Id>, x: Id, c: Cell)
    requires Inv(h, held) && x in h && c.rc == h[x].rc && Shape(h[x := c])
    requires multiset(c.rep.Out()) <= held + multiset(h[x].rep.Out())
    ensures Inv(h[x := c], held + multiset(h[x].rep.Out()) - multiset(c.rep.Out()))
  {
    hide EdgeBag, CountedBy, RepOk;
    EdgeBagWrite(h, x, c);
    forall y | y in multiset(h[x].rep.Out()) ensures y in h {
      EdgeIn(h, x, y);
    }
    WriteCount(h, EdgeBag(h), held, x, c, EdgeBag(h[x := c]), multiset(h[x].rep.Out()), multiset(c.rep.Out()));
  }

  lemma WriteCount(h: Heap, bag: multiset<Id>, held: multiset<Id>, x: Id, c: Cell, bag': multiset<Id>,
                   out: multiset<Id>, out': multiset<Id>)
    requires CountedBy(h, bag, held) && x in h && c.rc == h[x].rc
    requires bag' + out == bag + out' && out' <= held + out
    requires forall y :: y in out ==> y in h
    ensures CountedBy(h[x := c], bag', held + out - out')
  {
    forall y | y in h ensures bag'[y] + (held + out - out')[y] == bag[y] + held[y] {
      assert (bag' + out)[y] == (bag + out')[y];
    }
  }

  /** Deleting a cell through its last reference returns its edges as handles. */
  lemma DeleteInv(h: Heap, held: multiset<Id>, x: Id)
    requires Inv(h, held) && x in held && h[x].rc == 1
    ensures Inv(h - {x}, held - multiset{x} + multiset(h[x].rep.Out()))
  {
    hide EdgeBag, CountedBy, RepOk;
    LastIsHandle(h, EdgeBag(h), held, x);
    ShapeDelete(h, x);
    EdgeBagSplit(h, x);
    forall y | y in multiset(h[x].rep.Out()) ensures y in h {
      EdgeIn(h, x, y);
    }
    DeleteCount(h, EdgeBag(h), held, x, EdgeBag(h - {x}), multiset(h[x].rep.Out()));
  }

  lemma LastIsHandle(h: Heap, bag: multiset<Id>, held: multiset<Id>, x: Id)
    requires CountedBy(h, bag, held) && x in held && h[x].rc == 1
    ensures bag[x] == 0 && held[x] == 1
  {
  }

  lemma ShapeDelete(h: Heap, x: Id)
    requires Shape(h) && x in h && EdgeBag(h)[x] == 0
    ensures Shape(h - {x})
  {
    hide EdgeBag;
    var h' := h - {x};
    forall y, e | y in h && e in h[y].rep.Out() ensures e in h' {
      EdgeIn(h, y, e);
      EdgeBagAtLeast(h, y);
      assert multiset(h[y].rep.Out())[e] > 0;
    }
    forall y | y in h' ensures RepOk(h', h'[y].rep) {
      assert RepOk(h, h[y].rep);
      if h[y].rep.Substring? {
        assert h[y].rep.child in h[y].rep.Out();
      }
    }
  }

  lemma DeleteCount(h: Heap, bag: multiset<Id>, held: multiset<Id>, x: Id, bag': multiset<Id>, out: multiset<Id>)
    requires CountedBy(h, bag, held) && x in held && h[x].rc == 1 && bag == out + bag'
    requires forall y :: y in out ==> y in h
    ensures CountedBy(h - {x}, bag', held - multiset{x} + out)
  {
    assert bag[x] == 0 && held[x] == 1;
    forall y | y in h && y != x ensures bag'[y] + (held - multiset{x} + out)[y] == bag[y] + held[y] {
    }
  }

  // --- Exactly the reachable cells are kept -----------------------------------------

  /** Every cell of `h'` is a cell of `h`, with at most its count. */
  ghost predicate Shrunk(h: Heap, h': Heap) {
    forall x :: x in h' ==> x in h && Same(h[x], h'[x]) && h'[x].rc <= h[x].rc
  }

  /** Cells ranked above `r` are left alone. */
  ghost predicate SameAbove(h: Heap, r: nat, h': Heap) {
    forall x :: x in h && h[x].rep.Rank() > r ==> x in h' && h'[x] == h[x]
  }

  lemma ShrunkTrans(h: Heap, h1: Heap, h2: Heap, r: nat, r1: nat)
    requires Shrunk(h, h1) && SameAbove(h, r, h1) && Shrunk(h1, h2) && SameAbove(h1, r1, h2) && r1 <= r
    ensures Shrunk(h, h2) && SameAbove(h, r, h2)
  {
  }

  lemma ShrunkSelf(h: Heap, r: nat)
    ensures Shrunk(h, h) && SameAbove(h, r, h)
  {
  }

  lemma ShrunkAt(h: Heap, h': Heap, x: Id)
    requires Shrunk(h, h') && x in h'
    ensures x in h && h'[x].rep == h[x].rep
  {
  }

  lemma ShrunkDelete(h: Heap, x: Id)
    requires x in h
    ensures Shrunk(h, h - {x}) && SameAbove(h, h[x].rep.Rank(), h - {x})
  {
  }

  ghost predicate Path(h: Heap, p: seq<Id>) {
    && p != []
    && (forall i :: 0 <= i < |p| ==> p[i] in h)
    && (forall i :: 0 < i < |p| ==> p[i] in h[p[i - 1]].rep.Out())
  }

  ghost predicate Reachable(h: Heap, held: multiset<Id>, x: Id) {
    exists p :: Path(h, p) && p[0] in held && p[|p| - 1] == x
  }

  lemma {:induction false} RankBound(h: Heap) returns (n: nat)
    ensures forall x :: x in h ==> h[x].rep.Rank() <= n
    decreases |h|
  {
    if |h| == 0 {
      n := 0;
    } else {
      var x :| x in h;
      var m := RankBound(h - {x});
      n := m + h[x].rep.Rank();
      forall y | y in h ensures h[y].rep.Rank() <= n {
        assert y != x ==> y in h - {x} && (h - {x})[y] == h[y];
      }
    }
  }

  /** Every cell is kept alive by a handle: nothing leaks. */
  lemma {:induction false} LiveIsReachable(h: Heap, held: multiset<Id>, x: Id, n: nat)
    requires Inv(h, held) && x in h
    requires forall y :: y in h ==> h[y].rep.Rank() <= n
    ensures Reachable(h, held, x)
    decreases n - h[x].rep.Rank()
  {
    hide EdgeBag;
    if x in held {
      assert Path(h, [x]);
    } else {
      var y := EdgeBagParent(h, x);
      EdgeIn(h, y, x);
      LiveIsReachable(h, held, y, n);
      ReachableStep(h, held, y, x);
    }
  }

  lemma ReachableStep(h: Heap, held: multiset<Id>, y: Id, x: Id)
    requires Reachable(h, held, y) && y in h && x in h && x in h[y].rep.Out()
    ensures Reachable(h, held, x)
  {
    var p :| Path(h, p) && p[0] in held && p[|p| - 1] == y;
    var q := p + [x];
    assert Path(h, q) && q[0] in held && q[|q| - 1] == x;
  }

  lemma {:induction false} PathSurvives(h: Heap, h': Heap, held: multiset<Id>, p: seq<Id>)
    requires Inv(h', held) && Shrunk(h, h') && Path(h, p) && p[0] in held
    ensures forall x :: x in p ==> x in h'
  {
    hide Counted, RepOk;
    HeldIn(h', held, p[0]);
    if |p| > 1 {
      var q := p[..|p| - 1];
      PathSurvives(h, h', held, q);
      LastSurvives(h, h', q[|q| - 1], p[|p| - 1]) by {
        assert q[|q| - 1] in q;
      }
      assert p == q + [p[|p| - 1]];
    }
  }

  lemma LastSurvives(h: Heap, h': Heap, x: Id, e: Id)
    requires Shape(h') && Shrunk(h, h') && x in h' && x in h && e in h[x].rep.Out()
    ensures e in h'
  {
    EdgeIn(h', x, e);
  }

  /** The cells of `h` that are gone in `h'` are exactly those that no handle reaches. */
  ghost predicate OnlyUnreachableGone(h: Heap, held: multiset<Id>, h': Heap) {
    forall x :: x in h ==> (x in h' <==> Reachable(h, held, x))
  }

  /**
  When references are given up, the cells that go are exactly those no remaining handle
  could reach.
  */
  lemma FreedExactlyTheUnreachable(h: Heap, h': Heap, held: multiset<Id>)
    requires Shape(h) && Inv(h', held) && Shrunk(h, h')
    ensures OnlyUnreachableGone(h, held, h')
  {
    forall x | x in h ensures x in h' <==> Reachable(h, held, x) {
      FreedIffUnreachable(h, h', held, x);
    }
  }

  lemma FreedIffUnreachable(h: Heap, h': Heap, held: multiset<Id>, x: Id)
    requires Shape(h) && Inv(h', held) && Shrunk(h, h') && x in h
    ensures x in h' <==> Reachable(h, held, x)
  {
    hide EdgeBag;
    if x in h' {
      var n := RankBound(h');
      LiveIsReachable(h', held, x, n);
      var p :| Path(h', p) && p[0] in held && p[|p| - 1] == x;
      PathInShrunk(h, h', p);
    }
    if Reachable(h, held, x) {
      var p :| Path(h, p) && p[0] in held && p[|p| - 1] == x;
      PathSurvives(h, h', held, p);
      assert x in p;
    }
  }

  lemma PathInShrunk(h: Heap, h': Heap, p: seq<Id>)
    requires Shrunk(h, h') && Path(h', p)
    ensures Path(h, p)
  {
    forall i | 0 < i < |p| ensures p[i] in h[p[i - 1]].rep.Out() {
      assert p[i] in h'[p[i - 1]].rep.Out();
    }
  }
}
