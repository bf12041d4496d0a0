/**
What one edit at the lower end of a leg means while it is being propagated to the root: the
states between the steps of `StackOperations::unwind` in rep/btree.rs, and how `AddEdge` and
`SetEdge` lead from one to the next.
*/
module Edits {
  import opened Heap
  import opened Counts
  import opened Arenas
  import opened Substrings
  import opened Legs
  import opened Nodes

  /**
  An edit of the leg `stack` of a tree held by the writer.

  `h0`, `n0`, `held0`: the heap, its id bound and the handles when the edit began.
  `rest`: the handles that the edit must leave alone.
  `s`: the number of owned nodes at the upper end of the leg.
  `added`, `delta`: the data edges added at the lower end and their total length.
  `priv`: the outer leg of the result is to be private.
  */
  datatype Edit = Edit(h0: Heap, n0: Id, held0: multiset<Id>, rest: multiset<Id>, back: bool, stack: seq<Id>,
                       s: nat, added: seq<Id>, delta: nat, priv: bool)

  ghost predicate Ready(c: Edit) {
    && Inv(c.h0, c.held0) && AllSettled(c.h0, {}) && (forall x :: x in c.h0 ==> x < c.n0)
    && OwnedLeg(c.h0, c.held0, c.back, c.stack, c.s)
    && c.rest + multiset{c.stack[0]} <= c.held0
  }

  /** Nothing has been written in place yet; `more` are the handles still to be attached. */
  ghost predicate Clean(c: Edit, h: Heap, held: multiset<Id>, more: seq<Id>)
    requires Ready(c)
  {
    && held == c.rest + multiset{c.stack[0]} + multiset(more)
    && Extends(c.h0, h) && Kept(c.h0, c.n0, {}, h) && AllSettled(h, {})
    && (forall i :: 0 <= i < c.s ==> c.stack[i] in h && h[c.stack[i]].rc == 1)
  }

  /** What the grown node at depth `d` holds. */
  ghost function Grown(c: Edit, d: nat): seq<Id>
    requires Ready(c) && d < |c.stack|
  {
    Join(c.back, Leaves(c.h0, c.stack[d]), c.added)
  }

  /** `e` replaces the node at depth `d` (`Copied`) or is to be put beside it (`Popped`). */
  ghost predicate Loose(c: Edit, h: Heap, d: nat, action: Action, e: Id)
    requires Ready(c) && d < |c.stack| && Shape(h)
  {
    && e in h && h[e].rep.Btree? && h[e].rep.height == c.h0[c.stack[d]].rep.height
    && h[e].rep.length == (if action == Popped then 0 else c.h0[c.stack[d]].rep.length) + c.delta
    && Leaves(h, e) == (if action == Popped then c.added else Grown(c, d))
    && (c.priv ==> PrivateLeg(h, c.back, e))
  }

  /** The owned node at depth `d` has been written; only the lengths of its ancestors are behind. */
  ghost predicate Written(c: Edit, h: Heap, held: multiset<Id>, d: nat)
    requires Ready(c) && d < |c.stack| && Shape(h)
  {
    && held == c.rest + multiset{c.stack[0]}
    && d < c.s && Kept(c.h0, c.n0, Ids(c.stack[..d + 1]), h)
    && (forall i :: 0 <= i < d ==> c.stack[i] in h && h[c.stack[i]] == c.h0[c.stack[i]])
    && GrownNode(c, h, d)
    && AllSettled(h, if d > 0 then {c.stack[d - 1]} else {})
  }

  ghost predicate GrownNode(c: Edit, h: Heap, d: nat)
    requires Ready(c) && d < |c.stack| && Shape(h)
  {
    var x := c.stack[d];
    && x in h && h[x].rep.Btree? && h[x].rep.height == c.h0[x].rep.height && h[x].rc == 1
    && h[x].rep.length == c.h0[x].rep.length + c.delta
    && Leaves(h, x) == Grown(c, d)
    && (c.priv ==> PrivateLeg(h, c.back, x))
  }

  ghost predicate State(c: Edit, h: Heap, held: multiset<Id>, d: nat, action: Action, e: Id) {
    && Ready(c) && d < |c.stack| && Inv(h, held)
    && if action == InPlace then e == c.stack[d] && Written(c, h, held, d)
       else Clean(c, h, held, [e]) && Loose(c, h, d, action, e)
  }

  // --- Lemmas -------------------------------------------------------------------------

  /** A cell stays settled if neither it nor the lengths of its edges change. */
  lemma SettledKept(h: Heap, h': Heap, x: Id)
    requires Shape(h) && Shape(h') && x in h && x in h' && Same(h[x], h'[x]) && Settled(h, x)
    requires forall e :: e in h[x].rep.Out() && e in h && e in h' ==> h[e].rep.Len() == h'[e].rep.Len()
    ensures Settled(h', x)
  {
    if h[x].rep.Btree? {
      NodeOk(h, x);
      NodeOk(h', x);
      forall e | e in h[x].rep.Out() ensures e in h && e in h' {
        assert IsEdge(h, h[x].rep.height, e) && IsEdge(h', h[x].rep.height, e);
      }
      SumLenFrame(h, h', h[x].rep.Out());
    }
  }

  /** A heap of which only counts have changed, and from which cells may have gone, stays settled. */
  lemma StillSettled(h: Heap, h': Heap)
    requires Shape(h) && Shape(h') && AllSettled(h, {}) && forall x :: x in h' ==> x in h && Same(h[x], h'[x])
    ensures AllSettled(h', {})
  {
    hide RepOk, Settled;
    forall x | x in h' ensures Settled(h', x) {
      SettledKept(h, h', x);
    }
  }

  /** The leg of the edit is still a leg in a clean state, and still owned down to `s`. */
  lemma CleanLeg(c: Edit, h: Heap, held: multiset<Id>, more: seq<Id>)
    requires Ready(c) && Clean(c, h, held, more)
    ensures OwnedLeg(h, held, c.back, c.stack, c.s)
    ensures forall i :: 0 <= i < |c.stack| ==> c.stack[i] in h && Same(h[c.stack[i]], c.h0[c.stack[i]])
    ensures forall i :: 0 <= i < c.s ==> h[c.stack[i]] == c.h0[c.stack[i]]
  {
    hide Inv;
  }

  lemma CleanLeaves(c: Edit, h: Heap, held: multiset<Id>, more: seq<Id>, d: nat)
    requires Ready(c) && Clean(c, h, held, more) && Shape(h) && d < |c.stack|
    ensures Leaves(h, c.stack[d]) == Leaves(c.h0, c.stack[d])
  {
    hide RepOk;
    InvShape(c.h0, c.held0);
    assert Closed(c.h0, {}) && Agree(c.h0, h, {});
    LeavesFrame(c.h0, h, {}, c.stack[d]);
  }

  /** The outer leg of a node with the outermost edges `more` will be private. */
  ghost predicate PrivateEdges(h: Heap, back: bool, k: nat, more: seq<Id>)
    requires Shape(h)
  {
    k == 0 || (|more| == 1 && PrivateLeg(h, back, more[0]))
  }

  /** Ready for attaching the edges `more` to the node at depth `d`. */
  ghost predicate CanAttach(c: Edit, h: Heap, held: multiset<Id>, d: nat, more: seq<Id>) {
    && Ready(c) && d < |c.stack| && Inv(h, held) && Clean(c, h, held, more) && more != []
    && AllEdges(h, c.h0[c.stack[d]].rep.height, more) && SumLen(h, more) == c.delta
    && LeavesOf(h, c.h0[c.stack[d]].rep.height, more) == c.added
    && (c.priv ==> PrivateEdges(h, c.back, c.h0[c.stack[d]].rep.height, more))
  }

  /** `h'` is `h` with a new cell `r` that has taken the place of the handles `more`. */
  ghost predicate Replaced(c: Edit, h: Heap, held: multiset<Id>, more: seq<Id>, r: Id, h': Heap, held': multiset<Id>) {
    && Inv(h', held') && held' == held - multiset(more) + multiset{r}
    && r !in h && r in h' && r >= c.n0 && h'[r].rc == 1 && Extends(h, h') && h'.Keys == h.Keys + {r}
  }

  lemma ReplacedClean(c: Edit, h: Heap, held: multiset<Id>, more: seq<Id>, r: Id, h': Heap, held': multiset<Id>)
    requires Ready(c) && Clean(c, h, held, more) && Replaced(c, h, held, more, r, h', held')
    requires forall i :: 0 <= i < c.s ==> c.stack[i] in h' && h'[c.stack[i]].rc == 1
    requires AllSettled(h', {})
    ensures Clean(c, h', held', [r])
  {
    hide Inv, Settled, PrivateLeg;
    ReplacedHeld(c.rest, c.stack[0], multiset(more), r, held, held');
  }

  lemma ReplacedHeld(rest: multiset<Id>, root: Id, more: multiset<Id>, r: Id, held: multiset<Id>, held': multiset<Id>)
    requires held == rest + multiset{root} + more && held' == held - more + multiset{r}
    ensures held' == rest + multiset{root} + multiset([r])
  {
  }

  lemma AttachPopped(c: Edit, h: Heap, held: multiset<Id>, d: nat, e: Id, r: Id, h': Heap, held': multiset<Id>)
    requires CanAttach(c, h, held, d, [e]) && Replaced(c, h, held, [e], r, h', held')
    requires h' == h[r := h'[r]]
    requires NodeWith(h'[r].rep, c.h0[c.stack[d]].rep.height, c.delta, [e])
    ensures State(c, h', held', d, Popped, r)
  {
    hide Inv, RepOk, PrivateLeg, Clean, AllSettled, Leaves, Outer, PrivateEdges;
    InvShape(h, held);
    InvShape(h', held');
    PoppedClean(c, h, held, d, e, r, h', held');
    PoppedLeaves(h, h', c.back, c.h0[c.stack[d]].rep.height, e, r, c.priv);
  }

  lemma PoppedLeaves(h: Heap, h': Heap, back: bool, k: nat, e: Id, r: Id, priv: bool)
    requires Shape(h) && Shape(h') && AllEdges(h, k, [e]) && r !in h && r in h' && h' == h[r := h'[r]] && h'[r].rc == 1
    requires h'[r].rep.Btree? && h'[r].rep.height == k && h'[r].rep.Out() == [e]
    requires priv ==> PrivateEdges(h, back, k, [e])
    ensures Leaves(h', r) == LeavesOf(h, k, [e])
    ensures priv ==> PrivateLeg(h', back, r)
  {
    hide RepOk, PrivateLeg;
    assert e in [e] && IsEdge(h, k, e);
    LeavesOfOne(h, k, e);
    LeavesFrame(h, h', {}, e);
    LeavesOfOne(h', k, e);
    if priv {
      PrivateAbove(h, h', back, e, r);
    }
  }

  lemma PoppedClean(c: Edit, h: Heap, held: multiset<Id>, d: nat, e: Id, r: Id, h': Heap, held': multiset<Id>)
    requires CanAttach(c, h, held, d, [e]) && Replaced(c, h, held, [e], r, h', held') && Shape(h')
    requires h' == h[r := h'[r]]
    requires NodeWith(h'[r].rep, c.h0[c.stack[d]].rep.height, c.delta, [e])
    ensures Clean(c, h', held', [r])
  {
    hide Inv, RepOk, PrivateLeg, Clean, Settled, Outer;
    forall x | x in h' ensures Settled(h', x) {
      PoppedSettled(c, h, held, d, e, r, h', x);
    }
    CleanLeg(c, h, held, [e]);
    ReplacedClean(c, h, held, [e], r, h', held');
  }

  lemma PoppedSettled(c: Edit, h: Heap, held: multiset<Id>, d: nat, e: Id, r: Id, h': Heap, x: Id)
    requires CanAttach(c, h, held, d, [e]) && Shape(h') && x in h'
    requires r !in h && r in h' && h' == h[r := h'[r]]
    requires NodeWith(h'[r].rep, c.h0[c.stack[d]].rep.height, c.delta, [e])
    ensures Settled(h', x)
  {
    hide Inv, RepOk, PrivateLeg;
    InvShape(h, held);
    assert e in [e] && IsEdge(h, c.h0[c.stack[d]].rep.height, e);
    if x == r {
      SumLenFrame(h, h', [e]);
      assert Settled(c.h0, c.stack[d]);
    } else {
      SettledKept(h, h', x);
    }
  }

  /** A private node above a private leg makes a private leg. */
  lemma PrivateAbove(h: Heap, h': Heap, back: bool, e: Id, r: Id)
    requires Shape(h) && Shape(h') && e in h && (h[e].rep.Btree? ==> PrivateLeg(h, back, e))
    requires r in h' && h'[r].rep.Btree? && h'[r].rc == 1 && h'[r].rep.Out() != []
    requires h'[r].rep.height == h[e].rep.Level() && Outer(back, h'[r].rep.Out()) == e
    requires e in h' && Same(h[e], h'[e]) && h'[e].rc == h[e].rc
    requires forall y :: y in h && y in h' && h[y].rep.Level() < h[e].rep.Level() ==>
      Same(h[y], h'[y]) && (h[y].rc == 1 ==> h'[y].rc == 1)
    ensures PrivateLeg(h', back, r)
  {
    hide RepOk, Outer;
    if h'[r].rep.height > 0 {
      PrivateLegKept(h, h', back, e);
    }
  }

  lemma JoinOuter(back: bool, es: seq<Id>, e: Id)
    ensures Join(back, es, [e]) != [] && Outer(back, Join(back, es, [e])) == e
    ensures Inner(back, Join(back, es, [e])) == es
    ensures forall x :: x in Join(back, es, [e]) <==> x in es || x == e
  {
  }

  lemma JoinIn(back: bool, es: seq<Id>, more: seq<Id>)
    ensures forall x :: x in Join(back, es, more) <==> x in es || x in more
    ensures more != [] ==> Join(back, es, more) != []
    ensures |more| == 1 ==> Outer(back, Join(back, es, more)) == more[0]
  {
  }

  /**
  The leaves of a node of `h'` with the edges `es` and `more` of `h`, where only nodes of `o`
  differ between the heaps.
  */
  lemma JoinedLeaves(h: Heap, h': Heap, o: set<Id>, back: bool, es: seq<Id>, more: seq<Id>, r: Id)
    requires Shape(h) && Shape(h') && Closed(h, o) && Agree(h, h', o)
    requires r in h' && h'[r].rep.Btree? && h'[r].rep.Out() == Join(back, es, more)
    requires AllEdges(h, h'[r].rep.height, es) && AllEdges(h, h'[r].rep.height, more)
    requires (forall x :: x in es ==> x !in o) && (forall x :: x in more ==> x !in o)
    ensures Leaves(h', r) == Join(back, LeavesOf(h, h'[r].rep.height, es), LeavesOf(h, h'[r].rep.height, more))
    ensures SumLen(h', h'[r].rep.Out()) == SumLen(h, es) + SumLen(h, more)
    ensures forall x :: x in more ==> x in h'
  {
    hide RepOk, Join, Inner, Outer;
    var k := h'[r].rep.height;
    NodeOk(h', r);
    JoinIn(back, es, more);
    forall x | x in es || x in more ensures IsEdge(h, k, x) && IsEdge(h', k, x) && x !in o {
      assert x in h'[r].rep.Out();
    }
    LeavesOfFrame(h, h', o, k, es);
    LeavesOfFrame(h, h', o, k, more);
    LeavesOfJoin(h', k, back, es, more);
    SumLenJoin(h', back, es, more);
    SumLenFrame(h, h', es);
    SumLenFrame(h, h', more);
  }

  /** The node copied by an edit, and the copy. */
  ghost predicate Copy(c: Edit, h: Heap, d: nat, es: seq<Id>, more: seq<Id>, r: Id, h': Heap)
    requires Ready(c) && d < |c.stack|
  {
    && d >= c.s && CopyOf(h, es, r, h') && r in h' && more != []
    && (forall x :: x in es ==> x in c.h0[c.stack[d]].rep.Out())
    && NodeWith(h'[r].rep, c.h0[c.stack[d]].rep.height, c.h0[c.stack[d]].rep.length + c.delta, Join(c.back, es, more))
  }

  lemma CopiedClean(c: Edit, h: Heap, held: multiset<Id>, d: nat, es: seq<Id>, more: seq<Id>, r: Id, h': Heap,
                    held': multiset<Id>)
    requires Ready(c) && d < |c.stack| && Inv(h, held) && Clean(c, h, held, more)
    requires Replaced(c, h, held, more, r, h', held') && Copy(c, h, d, es, more, r, h')
    requires SumLen(h', h'[r].rep.Out()) == h'[r].rep.length
    ensures Clean(c, h', held', [r])
  {
    hide Inv, RepOk, Join;
    InvShape(h, held);
    InvShape(h', held');
    CopySettled(h, h', r, es);
    JoinIn(c.back, es, more);
    assert AllSettled(h', {});
    CopiedOwned(c, h, held, d, es, more, r, h');
    ReplacedClean(c, h, held, more, r, h', held');
  }

  lemma CopiedOwned(c: Edit, h: Heap, held: multiset<Id>, d: nat, es: seq<Id>, more: seq<Id>, r: Id, h': Heap)
    requires Ready(c) && d < |c.stack| && Inv(h, held) && Clean(c, h, held, more)
    requires Copy(c, h, d, es, more, r, h')
    ensures forall i :: 0 <= i < c.s ==> c.stack[i] in h' && h'[c.stack[i]].rc == 1
  {
    hide Inv, RepOk, Join;
    CleanLeg(c, h, held, more);
    OwnedIsClosed(h, held, c.back, c.stack, c.s);
    StackOutside(c, d);
    forall i | 0 <= i < c.s ensures c.stack[i] in h' && h'[c.stack[i]].rc == 1 {
      IdsPrefix(c.stack, c.s, c.s);
      assert c.stack[i] !in h[c.stack[d]].rep.Out();
      InBag(es, c.stack[i]);
    }
  }

  lemma CopiedPrivate(c: Edit, h: Heap, d: nat, es: seq<Id>, more: seq<Id>, r: Id, h': Heap)
    requires Ready(c) && d < |c.stack| && Shape(h) && Shape(h') && AllEdges(h, c.h0[c.stack[d]].rep.height, more)
    requires Copy(c, h, d, es, more, r, h') && h'[r].rc == 1 && AllEdges(h, c.h0[c.stack[d]].rep.height, es)
    requires PrivateEdges(h, c.back, c.h0[c.stack[d]].rep.height, more)
    requires c.h0[c.stack[d]].rep.height > 0 ==> more[0] !in es
    ensures PrivateLeg(h', c.back, r)
  {
    hide Inv, RepOk, Join, Outer;
    JoinIn(c.back, es, more);
    if c.h0[c.stack[d]].rep.height > 0 {
      assert more[0] in more && IsEdge(h, c.h0[c.stack[d]].rep.height, more[0]);
      LowerUntouched(h, h', r, c.h0[c.stack[d]].rep.height, es);
      PrivateAboveCopy(h, h', c.back, more[0], r, es);
    }
  }

  lemma AttachCopied(c: Edit, h: Heap, held: multiset<Id>, d: nat, more: seq<Id>, r: Id, h': Heap, held': multiset<Id>)
    requires CanAttach(c, h, held, d, more) && Replaced(c, h, held, more, r, h', held')
    requires Copy(c, h, d, c.h0[c.stack[d]].rep.Out(), more, r, h')
    requires c.priv && c.h0[c.stack[d]].rep.height > 0 ==> more[0] !in c.h0[c.stack[d]].rep.Out()
    ensures State(c, h', held', d, Copied, r)
  {
    hide Inv, RepOk, PrivateLeg, Join, Clean, PrivateEdges, AllSettled, Outer, Leaves, Grown;
    InvShape(h, held);
    InvShape(h', held');
    var was := c.h0[c.stack[d]].rep;
    CleanLeg(c, h, held, more);
    CopiedLeaves(c, h, held, d, more, r, h', held');
    CopiedClean(c, h, held, d, was.Out(), more, r, h', held');
    if c.priv {
      CopiedPrivate(c, h, d, was.Out(), more, r, h');
    }
  }

  lemma CopiedLeaves(c: Edit, h: Heap, held: multiset<Id>, d: nat, more: seq<Id>, r: Id, h': Heap, held': multiset<Id>)
    requires Ready(c) && d < |c.stack| && c.stack[d] in c.h0 && c.h0[c.stack[d]].rep.Btree? && Shape(h')
    requires r in h' && h'[r].rep.Btree?
    requires CanAttach(c, h, held, d, more) && Replaced(c, h, held, more, r, h', held')
    requires Copy(c, h, d, c.h0[c.stack[d]].rep.Out(), more, r, h')
    ensures Leaves(h', r) == Grown(c, d) && SumLen(h', h'[r].rep.Out()) == h'[r].rep.length
    ensures Shape(h) && AllEdges(h, c.h0[c.stack[d]].rep.height, c.h0[c.stack[d]].rep.Out())
  {
    hide Inv, RepOk, PrivateLeg, Join, Clean, PrivateEdges, AllSettled, Outer, Leaves;
    InvShape(h, held);
    CleanLeg(c, h, held, more);
    NodeOk(h, c.stack[d]);
    CleanLeaves(c, h, held, more, d);
    JoinedLeaves(h, h', {}, c.back, c.h0[c.stack[d]].rep.Out(), more, r);
    LeavesOfNode(h, c.stack[d]);
    CleanLen(c, h, held, more, d);
  }

  lemma LeavesOfNode(h: Heap, x: Id)
    requires Shape(h) && x in h && h[x].rep.Btree?
    ensures AllEdges(h, h[x].rep.height, h[x].rep.Out())
    ensures Leaves(h, x) == LeavesOf(h, h[x].rep.height, h[x].rep.Out())
  {
    NodeOk(h, x);
  }

  lemma CleanLen(c: Edit, h: Heap, held: multiset<Id>, more: seq<Id>, d: nat)
    requires Ready(c) && Clean(c, h, held, more) && d < |c.stack|
    ensures c.stack[d] in h && h[c.stack[d]].rep.Btree?
    ensures h[c.stack[d]].rep.length == SumLen(h, h[c.stack[d]].rep.Out())
  {
    hide Inv, Outer;
    CleanLeg(c, h, held, more);
    assert Settled(h, c.stack[d]);
  }

  lemma CleanSettled(c: Edit, h: Heap, held: multiset<Id>, more: seq<Id>)
    requires Ready(c) && Clean(c, h, held, more)
    ensures AllSettled(h, {})
  {
  }

  lemma PrivateRc(h: Heap, back: bool, e: Id)
    requires Shape(h) && PrivateLeg(h, back, e)
    ensures e in h && h[e].rc == 1
  {
  }

  lemma PrivateAboveCopy(h: Heap, h': Heap, back: bool, e: Id, r: Id, es: seq<Id>)
    requires Shape(h) && Shape(h') && e in h && (h[e].rep.Btree? ==> PrivateLeg(h, back, e))
    requires r in h' && h'[r].rep.Btree? && h'[r].rc == 1 && h'[r].rep.Out() != []
    requires h'[r].rep.height == h[e].rep.Level() && Outer(back, h'[r].rep.Out()) == e
    requires CopyOf(h, es, r, h') && (h[e].rep.Btree? ==> e !in es)
    requires forall y :: y in h && h[y].rep.Level() < h[e].rep.Level() ==> h'[y].rc == h[y].rc
    ensures PrivateLeg(h', back, r)
  {
    hide RepOk, Outer;
    if h'[r].rep.height > 0 {
      InBag(es, e);
      PrivateRc(h, back, e);
      PrivateLegKept(h, h', back, e);
    }
  }

  /** Copying takes references at one level only. */
  lemma LowerUntouched(h: Heap, h': Heap, r: Id, k: nat, es: seq<Id>)
    requires CopyOf(h, es, r, h') && AllEdges(h, k, es)
    ensures forall y :: y in h && h[y].rep.Level() < k ==> h'[y].rc == h[y].rc
  {
    forall y | y in h && h[y].rep.Level() < k ensures h'[y].rc == h[y].rc {
      InBag(es, y);
      assert y in es ==> IsEdge(h, k, y);
    }
  }

  lemma CopySettled(h: Heap, h': Heap, r: Id, es: seq<Id>)
    requires Shape(h) && Shape(h') && AllSettled(h, {}) && CopyOf(h, es, r, h')
    ensures AllSettled(h', {r})
  {
    hide RepOk;
    forall x | x in h' && x != r ensures Settled(h', x) {
      SettledKept(h, h', x);
    }
  }

  /** A shared node of the leg is not among the owned ones. */
  lemma StackOutside(c: Edit, d: nat)
    requires Ready(c) && c.s <= d < |c.stack|
    ensures c.stack[d] !in Ids(c.stack[..c.s])
  {
    hide Inv;
    forall i | 0 <= i < c.s ensures c.stack[i] != c.stack[d] {
      LegDistinct(c.h0, c.back, c.stack, i, d);
    }
  }

  /** A cell with one reference that is held is nobody's edge. */
  lemma HeldIsNoEdge(h: Heap, held: multiset<Id>, e: Id)
    requires Inv(h, held) && e in held && h[e].rc == 1
    ensures forall x :: x in h ==> e !in h[x].rep.Out()
  {
    hide RepOk, EdgeBag;
    LastIsHandle(h, EdgeBag(h), held, e);
    forall x | x in h ensures e !in h[x].rep.Out() {
      EdgeBagAtLeast(h, x);
      InBag(h[x].rep.Out(), e);
    }
  }

  /** Edges of the node at depth `d` lie below the leg down to it. */
  lemma BelowLeg(h: Heap, back: bool, stack: seq<Id>, d: nat, e: Id)
    requires Leg(h, back, stack) && d < |stack| && IsEdge(h, h[stack[d]].rep.height, e)
    ensures e !in Ids(stack[..d + 1])
  {
    forall i | 0 <= i <= d ensures stack[i] != e {
      assert h[stack[i]].rep.height == h[stack[0]].rep.height - i;
      assert h[stack[d]].rep.height == h[stack[0]].rep.height - d;
    }
  }

  /** `h'` is `h` after the owned node at depth `d` was given the edges `es` and `more`. */
  ghost predicate Rewritten(c: Edit, h: Heap, d: nat, es: seq<Id>, more: seq<Id>, h': Heap)
    requires Ready(c) && d < |c.stack|
  {
    var x := c.stack[d];
    && d < c.s && x in h && x in h' && h'[x].rc == h[x].rc && more != []
    && (forall y :: y in h' ==> y in h && (y != x ==> Same(h[y], h'[y])) && (h[y].rc == 1 ==> h'[y].rc == 1))
    && (forall y :: y in h && y != x && h[y].rep.Level() > h[x].rep.Level() ==> y in h' && h'[y] == h[y])
    && NodeWith(h'[x].rep, c.h0[x].rep.height, c.h0[x].rep.length + c.delta, Join(c.back, es, more))
  }

  lemma RewrittenState(c: Edit, h: Heap, held: multiset<Id>, d: nat, es: seq<Id>, more: seq<Id>, h': Heap,
                       held': multiset<Id>)
    requires Ready(c) && d < |c.stack| && Inv(h, held) && Clean(c, h, held, more) && Inv(h', held')
    requires Rewritten(c, h, d, es, more, h') && held' == held - multiset(more)
    requires AllEdges(h, c.h0[c.stack[d]].rep.height, es) && AllEdges(h, c.h0[c.stack[d]].rep.height, more)
    requires Grown(c, d) ==
      Join(c.back, LeavesOf(h, c.h0[c.stack[d]].rep.height, es), LeavesOf(h, c.h0[c.stack[d]].rep.height, more))
    requires c.h0[c.stack[d]].rep.length + c.delta == SumLen(h, es) + SumLen(h, more)
    requires c.priv ==> PrivateEdges(h, c.back, c.h0[c.stack[d]].rep.height, more)
    ensures State(c, h', held', d, InPlace, c.stack[d])
  {
    hide Inv, RepOk, PrivateLeg, PrivateEdges, Join, Settled, Clean;
    InvShape(h, held);
    InvShape(h', held');
    CleanLeg(c, h, held, more);
    RewrittenNode(c, h, held, d, es, more, h');
    RewrittenRest(c, h, held, d, es, more, h', held');
    forall x | x in h' && (d == 0 || x != c.stack[d - 1]) ensures Settled(h', x) {
      if x != c.stack[d] {
        CleanSettled(c, h, held, more);
        RewrittenSettled(c, h, held, d, es, more, h', x);
      }
    }
  }

  lemma RewrittenRest(c: Edit, h: Heap, held: multiset<Id>, d: nat, es: seq<Id>, more: seq<Id>, h': Heap,
                      held': multiset<Id>)
    requires Ready(c) && d < |c.stack| && Clean(c, h, held, more)
    requires Rewritten(c, h, d, es, more, h') && held' == held - multiset(more)
    ensures held' == c.rest + multiset{c.stack[0]}
    ensures Kept(c.h0, c.n0, Ids(c.stack[..d + 1]), h')
    ensures forall i :: 0 <= i < d ==> c.stack[i] in h' && h'[c.stack[i]] == c.h0[c.stack[i]]
  {
    hide Inv, RepOk, PrivateLeg, Join, AllSettled;
    CleanLeg(c, h, held, more);
    IdsPrefix(c.stack, d + 1, d + 1);
    assert c.stack[d] in Ids(c.stack[..d + 1]);
    AddedGone(c.rest + multiset{c.stack[0]}, multiset(more));
  }

  lemma AddedGone(a: multiset<Id>, b: multiset<Id>)
    ensures a + b - b == a
  {
  }

  lemma RewrittenNode(c: Edit, h: Heap, held: multiset<Id>, d: nat, es: seq<Id>, more: seq<Id>, h': Heap)
    requires Ready(c) && d < |c.stack| && Inv(h, held) && Clean(c, h, held, more) && Shape(h')
    requires Rewritten(c, h, d, es, more, h')
    requires AllEdges(h, c.h0[c.stack[d]].rep.height, es) && AllEdges(h, c.h0[c.stack[d]].rep.height, more)
    requires Grown(c, d) ==
      Join(c.back, LeavesOf(h, c.h0[c.stack[d]].rep.height, es), LeavesOf(h, c.h0[c.stack[d]].rep.height, more))
    requires c.h0[c.stack[d]].rep.length + c.delta == SumLen(h, es) + SumLen(h, more)
    requires c.priv ==> PrivateEdges(h, c.back, c.h0[c.stack[d]].rep.height, more)
    ensures GrownNode(c, h', d)
    ensures Settled(h', c.stack[d])
  {
    hide Inv, RepOk, PrivateLeg, PrivateEdges, Join, Inner, Outer;
    InvShape(h, held);
    CleanLeg(c, h, held, more);
    var x := c.stack[d];
    var o := Ids(c.stack[..d + 1]);
    OwnedIsClosed(h, held, c.back, c.stack, d + 1);
    IdsPrefix(c.stack, d + 1, d + 1);
    forall y | y in es || y in more ensures y !in o {
      BelowLeg(h, c.back, c.stack, d, y);
    }
    JoinedLeaves(h, h', o, c.back, es, more, x);
    JoinIn(c.back, es, more);
    if c.priv {
      RewrittenPrivate(c, h, held, d, es, more, h');
    }
  }

  lemma RewrittenPrivate(c: Edit, h: Heap, held: multiset<Id>, d: nat, es: seq<Id>, more: seq<Id>, h': Heap)
    requires Ready(c) && d < |c.stack| && Shape(h) && Clean(c, h, held, more) && Shape(h')
    requires Rewritten(c, h, d, es, more, h') && AllEdges(h, c.h0[c.stack[d]].rep.height, more)
    requires PrivateEdges(h, c.back, c.h0[c.stack[d]].rep.height, more)
    requires forall y :: y in more ==> y in h'
    ensures PrivateLeg(h', c.back, c.stack[d])
  {
    hide Inv, RepOk, Join, Inner, Outer;
    CleanLeg(c, h, held, more);
    JoinIn(c.back, es, more);
    if c.h0[c.stack[d]].rep.height > 0 {
      assert more[0] in more && IsEdge(h, c.h0[c.stack[d]].rep.height, more[0]);
      PrivateAboveOwned(h, h', c.back, more[0], c.stack[d]);
    }
  }

  lemma PrivateAboveOwned(h: Heap, h': Heap, back: bool, e: Id, r: Id)
    requires Shape(h) && Shape(h') && e in h && (h[e].rep.Btree? ==> PrivateLeg(h, back, e))
    requires r in h' && h'[r].rep.Btree? && h'[r].rc == 1 && h'[r].rep.Out() != []
    requires h'[r].rep.height == h[e].rep.Level() && Outer(back, h'[r].rep.Out()) == e
    requires e in h' && e != r
    requires forall y :: y in h && y in h' && y != r ==> Same(h[y], h'[y]) && (h[y].rc == 1 ==> h'[y].rc == 1)
    requires r in h && h[r].rep.Level() > h[e].rep.Level()
    ensures PrivateLeg(h', back, r)
  {
    hide RepOk, Outer;
    if h'[r].rep.height > 0 {
      PrivateRc(h, back, e);
      PrivateLegKept(h, h', back, e);
    }
  }

  lemma RewrittenSettled(c: Edit, h: Heap, held: multiset<Id>, d: nat, es: seq<Id>, more: seq<Id>, h': Heap, x: Id)
    requires Ready(c) && d < |c.stack| && Inv(h, held) && Clean(c, h, held, more) && Shape(h')
    requires Rewritten(c, h, d, es, more, h')
    requires x in h' && x in h && x != c.stack[d] && (d == 0 || x != c.stack[d - 1]) && Settled(h, x)
    ensures Settled(h', x)
  {
    hide Inv, RepOk, PrivateLeg, Join, Settled;
    InvShape(h, held);
    CleanLeg(c, h, held, more);
    if c.stack[d] in h[x].rep.Out() {
      OwnedHasOneParent(h, held, c.back, c.stack, c.s, d, x);
    }
    SettledKept(h, h', x);
  }

  lemma AttachInPlace(c: Edit, h: Heap, held: multiset<Id>, d: nat, more: seq<Id>, h': Heap, held': multiset<Id>)
    requires CanAttach(c, h, held, d, more) && Inv(h', held') && held' == held - multiset(more) && d < c.s
    requires
      var x := c.stack[d];
      x in h && x in h' && h' == h[x := h'[x]] && h'[x].rc == h[x].rc &&
      NodeWith(h'[x].rep, c.h0[x].rep.height, c.h0[x].rep.length + c.delta, Join(c.back, c.h0[x].rep.Out(), more))
    ensures State(c, h', held', d, InPlace, c.stack[d])
  {
    hide Inv, RepOk, PrivateLeg, PrivateEdges, Join, Settled, State, Clean;
    InvShape(h, held);
    CleanLeg(c, h, held, more);
    CleanSettled(c, h, held, more);
    CleanLeaves(c, h, held, more, d);
    var x := c.stack[d];
    NodeOk(h, x);
    assert c.h0[x].rep.length == SumLen(h, c.h0[x].rep.Out()) by {
      assert Settled(h, x);
      SettledLen(h, x);
    }
    RewrittenState(c, h, held, d, c.h0[x].rep.Out(), more, h', held');
  }

  lemma SettledLen(h: Heap, x: Id)
    requires x in h && h[x].rep.Btree? && Settled(h, x)
    ensures h[x].rep.Out() != [] && h[x].rep.length == SumLen(h, h[x].rep.Out())
  {
  }

  // --- Replacing the child below depth `d` --------------------------------------------------

  /** `e` is a grown copy of the node below depth `d`. */
  lemma ReplaceParts(c: Edit, h: Heap, held: multiset<Id>, d: nat, e: Id)
    requires State(c, h, held, d + 1, Copied, e)
    ensures var was := c.h0[c.stack[d]].rep; was.Out() != [] && IsEdge(h, was.height, e)
    ensures var was := c.h0[c.stack[d]].rep; var es := Inner(c.back, was.Out());
      Shape(h) && AllEdges(h, was.height, es) && (forall x :: x in es ==> x in was.Out()) &&
      AllEdges(h, was.height, [e]) &&
      Grown(c, d) == Join(c.back, LeavesOf(h, was.height, es), LeavesOf(h, was.height, [e])) &&
      was.length + c.delta == SumLen(h, es) + SumLen(h, [e])
  {
    hide Inv, RepOk, PrivateLeg, Join, Inner, Outer, AllSettled, Settled;
    InvShape(h, held);
    CleanLeg(c, h, held, [e]);
    CleanLeaves(c, h, held, [e], d);
    CleanLeaves(c, h, held, [e], d + 1);
    CleanSettled(c, h, held, [e]);
    var x := c.stack[d];
    LeavesSplit(h, c.back, x);
    InnerIn(c.back, h[x].rep.Out());
    assert AllSettled(h, {}) ==> Settled(h, x);
    OuterLen(h, c.back, x);
    LeavesOfOne(h, h[x].rep.height, e);
    assert SumLen(h, [e]) == h[e].rep.Len() + SumLen(h, []);
    JoinAssoc(c.back, LeavesOf(h, h[x].rep.height, Inner(c.back, h[x].rep.Out())), Leaves(h, c.stack[d + 1]), c.added);
  }

  lemma OuterLen(h: Heap, back: bool, x: Id)
    requires AllSettled(h, {}) && x in h && h[x].rep.Btree?
    ensures
      var es := h[x].rep.Out();
      es != [] &&
      (Outer(back, es) in h ==> h[x].rep.length == SumLen(h, Inner(back, es)) + h[Outer(back, es)].rep.Len())
  {
    hide Join, Inner, Outer;
    var es := h[x].rep.Out();
    assert Settled(h, x);
    SplitOuter(back, es);
    SumLenJoin(h, back, Inner(back, es), [Outer(back, es)]);
    assert SumLen(h, [Outer(back, es)]) ==
      (if Outer(back, es) in h then h[Outer(back, es)].rep.Len() else 0) + SumLen(h, []);
  }

  lemma ReplaceCopied(c: Edit, h: Heap, held: multiset<Id>, d: nat, e: Id, r: Id, h': Heap, held': multiset<Id>)
    requires State(c, h, held, d + 1, Copied, e) && c.h0[c.stack[d]].rep.Out() != []
    requires Replaced(c, h, held, [e], r, h', held')
    requires Copy(c, h, d, Inner(c.back, c.h0[c.stack[d]].rep.Out()), [e], r, h')
    ensures State(c, h', held', d, Copied, r)
  {
    hide Inv, RepOk, PrivateLeg, Join, Inner, Outer, Clean;
    InvShape(h, held);
    InvShape(h', held');
    ReplaceParts(c, h, held, d, e);
    var was := c.h0[c.stack[d]].rep;
    var es := Inner(c.back, was.Out());
    JoinedLeaves(h, h', {}, c.back, es, [e], r);
    CopiedClean(c, h, held, d, es, [e], r, h', held');
    if c.priv {
      CleanHeld(c, h, held, e);
      PrivateRc(h, c.back, e);
      HeldIsNoEdge(h, held, e);
      CleanLeg(c, h, held, [e]);
      CopiedPrivate(c, h, d, es, [e], r, h');
    }
  }

  lemma CleanHeld(c: Edit, h: Heap, held: multiset<Id>, e: Id)
    requires Ready(c) && Clean(c, h, held, [e])
    ensures e in held
  {
  }

  lemma ReplaceInPlace(c: Edit, h: Heap, held: multiset<Id>, d: nat, e: Id, h': Heap, held': multiset<Id>)
    requires State(c, h, held, d + 1, Copied, e) && c.h0[c.stack[d]].rep.Out() != [] && d < c.s
    requires Inv(h', held') && held' == held - multiset{e}
    requires
      var x := c.stack[d];
      x in h && h[x].rep.Btree? && EdgeReplaced(h, x, h') &&
      OuterSet(c.h0[x].rep, c.back, e, c.delta, h'[x].rep)
    ensures State(c, h', held', d, InPlace, c.stack[d])
  {
    hide Inv, RepOk, PrivateLeg, Join, Settled, Clean;
    ReplaceParts(c, h, held, d, e);
    CleanLeg(c, h, held, [e]);
    CountsPositive(h', held');
    AddedGone(held, multiset{});
    RewrittenState(c, h, held, d, Inner(c.back, c.h0[c.stack[d]].rep.Out()), [e], h', held');
  }

  lemma CountsPositive(h: Heap, held: multiset<Id>)
    requires Inv(h, held)
    ensures forall x :: x in h ==> h[x].rc > 0
  {
  }
}
