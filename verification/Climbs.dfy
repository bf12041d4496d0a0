/**
The end of an edit that was made in place: only lengths are left to be brought up to date.
*/
module Climbs {
  import opened Heap
  import opened Counts
  import opened Substrings
  import opened Legs
  import opened Nodes
  import opened Edits

  /** The edit is complete and `r` is its result. */
  ghost predicate Finished(c: Edit, h: Heap, held: multiset<Id>, r: Id) {
    && Ready(c) && Inv(h, held) && held == c.rest + multiset{r}
    && r in h && h[r].rep.Btree? && AllSettled(h, {})
    && Kept(c.h0, c.n0, Ids(c.stack[..c.s]), h)
    && Leaves(h, r) == Grown(c, 0)
    && (c.priv ==> PrivateLeg(h, c.back, r))
  }

  /** The lengths of the nodes from depth `i` to depth `d` are up to date. */
  ghost predicate Climbing(c: Edit, h: Heap, held: multiset<Id>, d: nat, i: nat) {
    && Ready(c) && i <= d < |c.stack| && d < c.s
    && Inv(h, held) && held == c.rest + multiset{c.stack[0]}
    && Kept(c.h0, c.n0, Ids(c.stack[..d + 1]), h)
    && (forall j :: 0 <= j < i ==> c.stack[j] in h && h[c.stack[j]] == c.h0[c.stack[j]])
    && (forall j :: i <= j < d ==> c.stack[j] in h && Lengthened(c, j, h[c.stack[j]]))
    && GrownNode(c, h, d)
    && AllSettled(h, if i > 0 then {c.stack[i - 1]} else {})
  }

  ghost predicate Lengthened(c: Edit, j: nat, x: Cell)
    requires Ready(c) && j < |c.stack|
  {
    var was := c.h0[c.stack[j]];
    x == Cell(was.rc, was.rep.(length := was.rep.length + c.delta))
  }

  lemma ClimbStart(c: Edit, h: Heap, held: multiset<Id>, d: nat)
    requires d < |c.stack| && State(c, h, held, d, InPlace, c.stack[d])
    ensures Climbing(c, h, held, d, d)
  {
  }

  /** The upper part of the leg is still an owned leg. */
  lemma ClimbLeg(c: Edit, h: Heap, held: multiset<Id>, d: nat, i: nat)
    requires Climbing(c, h, held, d, i) && i > 0
    ensures OwnedLeg(h, held, c.back, c.stack[..i], i)
    ensures c.stack[i] in h && h[c.stack[i]].rep.length == c.h0[c.stack[i]].rep.length + c.delta
    ensures h[c.stack[i]].rep.Btree?
  {
    hide Inv, PrivateLeg, AllSettled;
  }

  /** The length that the node above depth `i` should have. */
  lemma LengthBehind(c: Edit, h: Heap, held: multiset<Id>, d: nat, i: nat)
    requires Climbing(c, h, held, d, i) && i > 0
    ensures
      var x := c.stack[i - 1];
      x in h && h[x].rep.Btree? && h[x].rep.Out() != [] &&
      h[x].rep.length + c.delta == SumLen(h, h[x].rep.Out())
  {
    hide Inv, PrivateLeg, RepOk, Join, Inner, Outer;
    InvShape(h, held);
    InvShape(c.h0, c.held0);
    ClimbLeg(c, h, held, d, i);
    var x := c.stack[i - 1];
    var es := h[x].rep.Out();
    assert Settled(c.h0, x);
    OuterLen(c.h0, c.back, x);
    OwnedIsEdgeOnce(c.h0, c.held0, c.back, c.stack, c.s, i);
    InnerAvoidsOwned(c, d, i - 1);
    SplitOuter(c.back, es);
    SumLenJoin(h, c.back, Inner(c.back, es), [Outer(c.back, es)]);
    assert SumLen(h, [c.stack[i]]) == h[c.stack[i]].rep.Len() + SumLen(h, []);
    NodeOk(h, x);
    NodeOk(c.h0, x);
    InnerIn(c.back, es);
    forall e | e in Inner(c.back, es) ensures e in c.h0 && e in h && c.h0[e].rep.Len() == h[e].rep.Len() {
      assert IsEdge(h, h[x].rep.height, e) && IsEdge(c.h0, h[x].rep.height, e);
    }
    SumLenFrame(c.h0, h, Inner(c.back, es));
  }

  lemma InnerAvoidsOwned(c: Edit, d: nat, i: nat)
    requires Ready(c) && i < d < |c.stack| && c.stack[i + 1] !in Inner(c.back, c.h0[c.stack[i]].rep.Out())
    ensures forall e :: e in Inner(c.back, c.h0[c.stack[i]].rep.Out()) ==> e !in Ids(c.stack[..d + 1])
  {
    hide Inv, RepOk, Inner;
    InvShape(c.h0, c.held0);
    InnerAvoidsLeg(c.h0, c.back, c.stack, d, i);
  }

  lemma ClimbStep(c: Edit, h: Heap, held: multiset<Id>, d: nat, i: nat, h': Heap)
    requires Climbing(c, h, held, d, i) && i > 0
    requires
      var x := c.stack[i - 1];
      x in h && h' == h[x := Cell(h[x].rc, h[x].rep.(length := h[x].rep.length + c.delta))]
    requires Inv(h', held)
    ensures Climbing(c, h', held, d, i - 1)
  {
    hide Inv, PrivateLeg, RepOk, AllSettled, GrownNode, Leg, Kept;
    InvShape(h, held);
    InvShape(h', held);
    var x := c.stack[i - 1];
    ClimbSettled(c, h, held, d, i, h');
    ClimbLeaves(c, h, held, d, i, h');
    ClimbKept(c.h0, c.n0, c.stack, h, d, i - 1, h');
    forall j | 0 <= j <= d && j != i - 1 ensures c.stack[j] != x {
      LegDistinct(c.h0, c.back, c.stack, j, i - 1);
    }
  }

  lemma ClimbKept(h0: Heap, n0: Id, stack: seq<Id>, h: Heap, d: nat, i: nat, h': Heap)
    requires i <= d < |stack| && Kept(h0, n0, Ids(stack[..d + 1]), h) && stack[i] in h'
    requires h' == h[stack[i] := h'[stack[i]]]
    ensures Kept(h0, n0, Ids(stack[..d + 1]), h')
  {
    IdsPrefix(stack, d + 1, d + 1);
    assert stack[i] in Ids(stack[..d + 1]);
  }

  lemma ClimbLeaves(c: Edit, h: Heap, held: multiset<Id>, d: nat, i: nat, h': Heap)
    requires Climbing(c, h, held, d, i) && i > 0
    requires
      var x := c.stack[i - 1];
      x in h && h' == h[x := Cell(h[x].rc, h[x].rep.(length := h[x].rep.length + c.delta))]
    requires Shape(h')
    ensures GrownNode(c, h', d)
  {
    hide Inv, PrivateLeg, RepOk, AllSettled;
    InvShape(h, held);
    ClimbLeg(c, h, held, d, i);
    var o := Ids(c.stack[..i]);
    assert c.stack[..i][..i] == c.stack[..i];
    OwnedIsClosed(h, held, c.back, c.stack[..i], i);
    IdsPrefix(c.stack, i, i);
    forall j | 0 <= j < i ensures c.stack[j] != c.stack[d] {
      LegDistinct(c.h0, c.back, c.stack, j, d);
    }
    LeavesFrame(h, h', o, c.stack[d]);
    if c.priv {
      assert h[c.stack[i - 1]].rep.height > h[c.stack[d]].rep.height;
      PrivateLegKept(h, h', c.back, c.stack[d]);
    }
  }

  lemma ClimbSettled(c: Edit, h: Heap, held: multiset<Id>, d: nat, i: nat, h': Heap)
    requires Climbing(c, h, held, d, i) && i > 0
    requires
      var x := c.stack[i - 1];
      x in h && h' == h[x := Cell(h[x].rc, h[x].rep.(length := h[x].rep.length + c.delta))]
    requires Shape(h')
    ensures AllSettled(h', if i > 1 then {c.stack[i - 2]} else {})
  {
    hide Inv, PrivateLeg, RepOk, Settled, GrownNode;
    var x := c.stack[i - 1];
    forall y | y in h' && (i > 1 ==> y != c.stack[i - 2]) ensures Settled(h', y) {
      if y == x {
        ClimbSelf(c, h, held, d, i, h');
      } else {
        ClimbOther(c, h, held, d, i, h', y);
      }
    }
  }

  lemma ClimbSelf(c: Edit, h: Heap, held: multiset<Id>, d: nat, i: nat, h': Heap)
    requires Climbing(c, h, held, d, i) && i > 0
    requires
      var x := c.stack[i - 1];
      x in h && h' == h[x := Cell(h[x].rc, h[x].rep.(length := h[x].rep.length + c.delta))]
    ensures c.stack[i - 1] in h' && Settled(h', c.stack[i - 1])
  {
    hide Inv, PrivateLeg, RepOk, AllSettled, Settled, GrownNode, OwnedLeg, Kept;
    InvShape(h, held);
    LengthBehind(c, h, held, d, i);
    SelfSettled(h, h', c.stack[i - 1], c.delta);
  }

  lemma ClimbOther(c: Edit, h: Heap, held: multiset<Id>, d: nat, i: nat, h': Heap, y: Id)
    requires Climbing(c, h, held, d, i) && i > 0
    requires
      var x := c.stack[i - 1];
      x in h && h' == h[x := Cell(h[x].rc, h[x].rep.(length := h[x].rep.length + c.delta))] && y != x
    requires Shape(h') && y in h && (i > 1 ==> y != c.stack[i - 2])
    ensures Settled(h', y)
  {
    hide Inv, PrivateLeg, RepOk, Settled, GrownNode;
    InvShape(h, held);
    ClimbLeg(c, h, held, d, i);
    if c.stack[i - 1] in h[y].rep.Out() {
      OwnedHasOneParent(h, held, c.back, c.stack[..i], i, i - 1, y);
    }
    SettledKept(h, h', y);
  }

  lemma SelfSettled(h: Heap, h': Heap, x: Id, delta: nat)
    requires Shape(h) && x in h && h[x].rep.Btree? && h[x].rep.Out() != []
    requires h' == h[x := Cell(h[x].rc, h[x].rep.(length := h[x].rep.length + delta))]
    requires h[x].rep.length + delta == SumLen(h, h[x].rep.Out())
    ensures Settled(h', x)
  {
    forall e | e in h[x].rep.Out() ensures e in h && e != x {
      EdgeIn(h, x, e);
    }
    SumLenFrame(h, h', h[x].rep.Out());
  }

  // --- The root -----------------------------------------------------------------------

  lemma ClimbDone(c: Edit, h: Heap, held: multiset<Id>, d: nat)
    requires Climbing(c, h, held, d, 0)
    ensures Finished(c, h, held, c.stack[0])
  {
    hide Inv, PrivateLeg, RepOk, AllSettled, Inner, Join, GrownNode, Leg, Kept;
    InvShape(h, held);
    ClimbLeavesUp(c, h, held, d);
    ClimbRoot(c, h, held, d);
    if c.priv {
      PrivateUp(c, h, held, d, 0);
    }
  }

  lemma ClimbRoot(c: Edit, h: Heap, held: multiset<Id>, d: nat)
    requires Climbing(c, h, held, d, 0)
    ensures c.stack[0] in h && h[c.stack[0]].rep.Btree?
    ensures Kept(c.h0, c.n0, Ids(c.stack[..c.s]), h)
  {
    hide Inv, PrivateLeg, AllSettled;
    IdsPrefix(c.stack, d + 1, c.s);
  }

  lemma ClimbLeavesUp(c: Edit, h: Heap, held: multiset<Id>, d: nat)
    requires Climbing(c, h, held, d, 0) && Shape(h)
    ensures c.stack[0] in h && Leaves(h, c.stack[0]) == Grown(c, 0)
  {
    hide Inv, PrivateLeg, RepOk, AllSettled, Inner, Outer, Join, Leaves;
    InvShape(c.h0, c.held0);
    ClimbAgree(c, h, held, d);
    OwnedGrows(c.h0, c.held0, h, c.back, c.stack, d, c.added);
  }

  /** Below depth `d` the edit has written nothing. */
  lemma ClimbAgree(c: Edit, h: Heap, held: multiset<Id>, d: nat)
    requires Climbing(c, h, held, d, 0)
    ensures Agree(c.h0, h, Ids(c.stack[..d + 1]))
  {
    hide Inv, PrivateLeg, AllSettled;
  }

  lemma {:induction false} PrivateUp(c: Edit, h: Heap, held: multiset<Id>, d: nat, i: nat)
    requires Climbing(c, h, held, d, 0) && i <= d && c.priv
    ensures PrivateLeg(h, c.back, c.stack[i])
    decreases d - i
  {
    hide Inv, RepOk, AllSettled, Outer;
    if i < d {
      PrivateUp(c, h, held, d, i + 1);
    }
  }
}
