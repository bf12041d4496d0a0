/**
Copies of the first or last bytes of a tree that share all they can with it (`copy_prefix` and
`copy_suffix` of rep/btree.rs).

The two differ in direction only. A copy is made from the top: each new node keeps the edges that
are wanted in full and already stores its final length; the edge that is wanted in part is filled
in by the next round. The new nodes form a private leg, of which only the last one is short.
*/
module Copies {
  import opened Heap
  import opened Counts
  import opened Arenas
  import opened Substrings
  import opened Legs
  import opened Nodes
  import opened Edits
  import opened Rebuilds
  import opened Unwinding
  import opened Trees
  import opened Indexing

  /** Nothing has been given up or written; `r` is one more handle. All is settled but `except`. */
  ghost predicate Fresh(h0: Heap, n0: Id, held0: multiset<Id>, except: set<Id>, h: Heap, held: multiset<Id>, r: Id) {
    && Inv(h, held) && AllSettled(h, except) && held == held0 + multiset{r}
    && Extends(h0, h) && Kept(h0, n0, {}, h) && r in h && NoNewData(h0, h)
  }

  /** A data edge, or a tree with more than one edge at its root. */
  predicate Folded(rep: Rep) {
    rep.Btree? ==> |rep.Out()| >= 2
  }

  // --- Cutting a node ---------------------------------------------------------------------

  /** The node with only the edges that lie in full within a prefix (`back`) or suffix. */
  function Window(back: bool, node: Rep, index: nat, length: nat): (r: Rep)
    requires IsNode(node) && node.begin <= index <= node.end
    ensures IsNode(r) && r.height == node.height && r.length == length
    ensures r.Out() == if back then node.slots[node.begin..index] else node.slots[index..node.end]
  {
    if back then node.(end := index, length := length) else node.(begin := index, length := length)
  }

  /** The slot next to the window, where a partial edge goes. */
  function PartSlot(back: bool, index: nat): int {
    if back then index else index - 1
  }

  /** Finds where the first or last `n` bytes of a node end: `m` bytes into the edge at `PartSlot`. */
  method Cut(h: Heap, back: bool, node: Rep, n: nat) returns (index: nat, m: nat)
    requires IsSettledNode(h, node) && 0 < n < node.length
    ensures node.begin <= index <= node.end && m <= n
    ensures SumLen(h, Window(back, node, index, n).Out()) + m == n
    ensures m > 0 ==> node.begin <= PartSlot(back, index) < node.end && node.slots[PartSlot(back, index)] in h
    ensures m > 0 ==> m < h[node.slots[PartSlot(back, index)]].rep.Len()
  {
    hide AllEdges;
    if back {
      index, m := IndexOf(h, node, n);
    } else {
      index, m := IndexBeyond(h, node, node.length - n);
      SpanWhole(h, node, index);
    }
  }

  lemma NearJoin(back: bool, a: seq<byte>, b: seq<byte>, n: nat)
    requires n <= |b|
    ensures |Join(back, a, b)| == |a| + |b|
    ensures Near(back, Join(back, a, b), |a| + n) == Join(back, a, Near(back, b, n))
  {
  }

  lemma NearWithin(back: bool, a: seq<byte>, b: seq<byte>, n: nat)
    requires n <= |a|
    ensures |Join(back, a, b)| == |a| + |b|
    ensures Near(back, Join(back, a, b), n) == Near(back, a, n)
  {
  }

  /** The edges on the other side of the window. */
  function Beyond(back: bool, node: Rep, index: nat): seq<Id>
    requires IsNode(node) && node.begin <= index <= node.end
  {
    if back then node.slots[index..node.end] else node.slots[node.begin..index]
  }

  lemma WindowSplit(back: bool, node: Rep, index: nat)
    requires IsNode(node) && node.begin <= index <= node.end
    ensures node.Out() == Join(back, Window(back, node, index, 0).Out(), Beyond(back, node, index))
    ensures node.begin <= PartSlot(back, index) < node.end ==>
      Beyond(back, node, index) != [] && Outer(!back, Beyond(back, node, index)) == node.slots[PartSlot(back, index)]
  {
    assert node.Out() == node.slots[node.begin..index] + node.slots[index..node.end];
  }

  /** The bytes of a node are those of its edges. */
  lemma JoinedBytes(h: Heap, back: bool, x: Id, a: seq<Id>, b: seq<Id>)
    requires Shape(h) && x in h && h[x].rep.Btree? && h[x].rep.Out() == Join(back, a, b)
    ensures AllEdges(h, h[x].rep.height, a) && AllEdges(h, h[x].rep.height, b)
    ensures Bytes(h, x) == Join(back, BytesOf(h, h[x].rep.height, a), BytesOf(h, h[x].rep.height, b))
  {
    hide RepOk, Join;
    var k := h[x].rep.height;
    NodeOk(h, x);
    JoinIn(back, a, b);
    LeavesOfJoin(h, k, back, a, b);
    CatJoin(h, back, LeavesOf(h, k, a), LeavesOf(h, k, b));
  }

  /** The first or last bytes of a node, edge by edge. */
  lemma CutBytes(h: Heap, except: set<Id>, k0: nat, back: bool, x: Id, index: nat, m: nat)
    requires Shape(h) && SettledTo(h, except, k0) && x in h && h[x].rep.Btree? && h[x].rep.Level() <= k0
    requires h[x].rep.begin <= index <= h[x].rep.end <= |h[x].rep.slots| == MAX_CAPACITY
    requires m > 0 ==> h[x].rep.begin <= PartSlot(back, index) < h[x].rep.end
    requires m > 0 ==>
      h[x].rep.slots[PartSlot(back, index)] in h && m <= h[h[x].rep.slots[PartSlot(back, index)]].rep.Len()
    ensures
      var k, kept := h[x].rep.height, Window(back, h[x].rep, index, 0).Out();
      && AllEdges(h, k, kept) && SumLen(h, kept) == |BytesOf(h, k, kept)| && SumLen(h, kept) + m <= |Bytes(h, x)|
      && (m == 0 ==> Near(back, Bytes(h, x), SumLen(h, kept)) == BytesOf(h, k, kept))
      && (m > 0 ==> m <= |Bytes(h, h[x].rep.slots[PartSlot(back, index)])|)
      && (m > 0 ==> Near(back, Bytes(h, x), SumLen(h, kept) + m) ==
                      Join(back, BytesOf(h, k, kept), Near(back, Bytes(h, h[x].rep.slots[PartSlot(back, index)]), m)))
  {
    hide RepOk, Join, Near, Window, PartSlot, Beyond, SettledTo, Inner, Outer, Bytes, BytesOf;
    var k, kept, rest := h[x].rep.height, Window(back, h[x].rep, index, 0).Out(), Beyond(back, h[x].rep, index);
    WindowSplit(back, h[x].rep, index);
    JoinedBytes(h, back, x, kept, rest);
    LenIsBytesOfTo(h, except, k0, k, kept);
    var front := BytesOf(h, k, kept);
    NearJoin(back, front, BytesOf(h, k, rest), 0);
    NearNone(back, BytesOf(h, k, rest));
    JoinNothing(back, front);
    if m > 0 {
      var e := h[x].rep.slots[PartSlot(back, index)];
      OuterBytes(h, k, !back, rest);
      LenIsBytesTo(h, except, k0, e);
      NearJoin(back, front, BytesOf(h, k, rest), m) by {
        JoinLens(!back, BytesOf(h, k, Inner(!back, rest)), Bytes(h, e));
      }
      JoinFlip(back, Bytes(h, e), BytesOf(h, k, Inner(!back, rest)));
      NearWithin(back, Bytes(h, e), BytesOf(h, k, Inner(!back, rest)), m);
    }
  }

  lemma JoinNothing(back: bool, a: seq<byte>)
    ensures Join(back, a, []) == a
  {
  }

  lemma JoinLens(back: bool, a: seq<byte>, b: seq<byte>)
    ensures |Join(back, a, b)| == |a| + |b|
  {
  }

  lemma JoinFlip(back: bool, a: seq<byte>, b: seq<byte>)
    ensures Join(!back, b, a) == Join(back, a, b)
  {
  }

  lemma OuterBytes(h: Heap, k: nat, back: bool, es: seq<Id>)
    requires Shape(h) && AllEdges(h, k, es) && es != []
    ensures AllEdges(h, k, Inner(back, es)) && IsEdge(h, k, Outer(back, es))
    ensures BytesOf(h, k, es) == Join(back, BytesOf(h, k, Inner(back, es)), Bytes(h, Outer(back, es)))
  {
    hide Join, Inner, Outer;
    SplitOuter(back, es);
    InnerIn(back, es);
    LeavesOfOne(h, k, Outer(back, es));
    LeavesOfJoin(h, k, back, Inner(back, es), [Outer(back, es)]);
    CatJoin(h, back, LeavesOf(h, k, Inner(back, es)), Leaves(h, Outer(back, es)));
  }

  // --- The private leg of a copy ----------------------------------------------------------------

  /**
  Where a copy began. The nodes of `except`, all above level `k0`, are not settled and have no
  part in the copy.
  */
  datatype Start = Start(h0: Heap, n0: Id, held0: multiset<Id>, back: bool, except: set<Id>, k0: nat)

  /** Node `x` stores `n` bytes more than its edges do. */
  ghost predicate ShortBy(h: Heap, x: Id, n: nat)
    requires x in h
  {
    h[x].rep.Btree? && h[x].rep.length == SumLen(h, h[x].rep.Out()) + n && (n == 0 ==> h[x].rep.Out() != [])
  }

  /**
  The new leg `leg`, of which the last node is short by `n`. `more` are handles still to be
  attached to it, `loose` those of them that are themselves short.
  */
  ghost predicate Copying(c: Start, h: Heap, held: multiset<Id>, leg: seq<Id>, n: nat, more: seq<Id>, loose: set<Id>) {
    && Inv(h, held) && leg != [] && held == c.held0 + multiset{leg[0]} + multiset(more)
    && (forall x :: x in c.h0 ==> x < c.n0) && Extends(c.h0, h) && Kept(c.h0, c.n0, {}, h)
    && OwnedLeg(h, held, c.back, leg, |leg|) && (forall i :: 0 <= i < |leg| ==> leg[i] >= c.n0)
    && (forall x :: x in c.except ==> x < c.n0)
    && AllSettled(h, {leg[|leg| - 1]} + loose + c.except) && ShortBy(h, leg[|leg| - 1], n)
  }

  /** Allocations that add no reference to a node of the leg leave it private. */
  lemma CopyingAlloc(c: Start, h: Heap, held: multiset<Id>, leg: seq<Id>, n: nat, n1: Id, r: Id, loose: set<Id>,
                     h': Heap, held': multiset<Id>)
    requires Copying(c, h, held, leg, n, [], {}) && Extends(h, h') && Kept(h, n1, {}, h') && c.n0 <= n1
    requires forall x :: x in h ==> x < n1
    requires forall i :: 0 <= i < |leg| ==> leg[i] in h' && h'[leg[i]].rc == 1
    requires Inv(h', held') && held' == held + multiset{r}
    requires AllSettled(h', {leg[|leg| - 1]} + loose + c.except)
    ensures Copying(c, h', held', leg, n, [r], loose)
  {
    hide Inv, Outer, AllSettled, ShortBy;
    InvShape(h, held);
    LegSame(h, h', c.back, leg);
    ShortByKept(h, h', leg[|leg| - 1], n);
    CopyingHeld(c.held0, leg[0], r, held, held');
  }

  lemma CopyingHeld(held0: multiset<Id>, top: Id, r: Id, held: multiset<Id>, held': multiset<Id>)
    requires held == held0 + multiset{top} + multiset([]) && held' == held + multiset{r}
    ensures held' == held0 + multiset{top} + multiset([r]) && top in held'
  {
  }

  /** A copied node, whose edges all existed before, leaves the leg private. */
  lemma CopyingCopy(c: Start, h: Heap, held: multiset<Id>, leg: seq<Id>, n: nat, es: seq<Id>, r: Id, h': Heap,
                    held': multiset<Id>)
    requires Copying(c, h, held, leg, n, [], {}) && CopyOf(h, es, r, h') && r >= c.n0
    requires forall e :: e in es ==> e in c.h0
    requires (forall x :: x in h ==> x < r) && Inv(h', held') && held' == held + multiset{r}
    ensures Copying(c, h', held', leg, n, [r], {r})
  {
    hide Inv, Outer, Settled;
    InvShape(h, held);
    InvShape(h', held');
    forall i | 0 <= i < |leg| ensures leg[i] in h' && h'[leg[i]].rc == 1 {
      InBag(es, leg[i]);
    }
    CopyingSettled(c, h, held, leg, n, [], {}, h', {r});
    assert {} + {r} == {r};
    CopyingAlloc(c, h, held, leg, n, r, r, {r}, h', held');
  }

  lemma ShortByKept(h: Heap, h': Heap, x: Id, n: nat)
    requires Shape(h) && x in h && x in h' && Extends(h, h') && ShortBy(h, x, n)
    ensures ShortBy(h', x, n)
  {
    EdgesBelow(h, x);
    SumLenFrame(h, h', h[x].rep.Out());
  }

  lemma CopyingSettled(c: Start, h: Heap, held: multiset<Id>, leg: seq<Id>, n: nat, more: seq<Id>, loose: set<Id>,
                       h': Heap, fresh': set<Id>)
    requires Copying(c, h, held, leg, n, more, loose) && Shape(h) && Shape(h') && Extends(h, h')
    requires forall x :: x in h' && x !in h ==> x in fresh' || Settled(h', x)
    ensures AllSettled(h', {leg[|leg| - 1]} + (loose + fresh') + c.except)
  {
    hide Inv, Outer, Settled, OwnedLeg;
    forall x | x in h' && x !in {leg[|leg| - 1]} + (loose + fresh') + c.except ensures Settled(h', x) {
      if x in h {
        SettledKept(h, h', x);
      }
    }
  }

  /** A new data edge leaves the leg private. */
  lemma CopyingPart(c: Start, h: Heap, held: multiset<Id>, leg: seq<Id>, n: nat, n1: Id, r: Id, h': Heap,
                    held': multiset<Id>)
    requires Copying(c, h, held, leg, n, [], {}) && Extends(h, h') && Kept(h, n1, {}, h') && c.n0 <= n1
    requires forall x :: x in h ==> x < n1
    requires r in h' && !h'[r].rep.Btree? && (forall x :: x in h' && x !in h ==> x == r) && SameAbove(h, 1, h')
    requires Inv(h', held') && held' == held + multiset{r}
    ensures Copying(c, h', held', leg, n, [r], {})
  {
    hide Inv, Outer, Settled;
    InvShape(h, held);
    InvShape(h', held');
    DataSettled(h', r);
    CopyingSettled(c, h, held, leg, n, [], {}, h', {});
    var none: set<Id> := {};
    assert none + none == none;
    CopyingAlloc(c, h, held, leg, n, n1, r, {}, h', held');
  }

  // --- Attaching the next edge ----------------------------------------------------------------

  /** `h'` is `h` with `e` added to the last node of the leg. */
  ghost predicate Attached(c: Start, h: Heap, leg: seq<Id>, e: Id, h': Heap) {
    && leg != [] && leg[|leg| - 1] in h && leg[|leg| - 1] in h' && e in h
    && h' == h[leg[|leg| - 1] := h'[leg[|leg| - 1]]]
    && h'[leg[|leg| - 1]].rc == h[leg[|leg| - 1]].rc
    && h[leg[|leg| - 1]].rep.Btree? && h[e].rep.Level() == h[leg[|leg| - 1]].rep.height
    && NodeWith(h'[leg[|leg| - 1]].rep, h[leg[|leg| - 1]].rep.height, h[leg[|leg| - 1]].rep.length,
                Join(c.back, h[leg[|leg| - 1]].rep.Out(), [e]))
  }

  lemma AttachedLeg(c: Start, h: Heap, held: multiset<Id>, leg: seq<Id>, n: nat, e: Id, loose: set<Id>, h': Heap,
                    held': multiset<Id>)
    requires Copying(c, h, held, leg, n, [e], loose) && Attached(c, h, leg, e, h') && held' == held - multiset{e}
    ensures held' == c.held0 + multiset{leg[0]} && OwnedLeg(h', held', c.back, leg, |leg|)
    ensures Extends(c.h0, h') && Kept(c.h0, c.n0, {}, h')
  {
    hide Inv, Outer, AllSettled, ShortBy, Join;
    assert held' == c.held0 + multiset{leg[0]};
    forall i | 0 <= i < |leg| - 1 ensures leg[i] != leg[|leg| - 1] {
      LegDistinct(h, c.back, leg, i, |leg| - 1);
    }
  }

  lemma AttachedSettled(c: Start, h: Heap, held: multiset<Id>, leg: seq<Id>, n: nat, e: Id, loose: set<Id>, h': Heap)
    requires Copying(c, h, held, leg, n, [e], loose) && Attached(c, h, leg, e, h') && Shape(h')
    requires h[e].rep.Len() == n && leg[|leg| - 1] !in loose
    ensures AllSettled(h', loose + c.except)
  {
    hide Inv, Outer, Settled, Join, OwnedLeg;
    InvShape(h, held);
    var last := leg[|leg| - 1];
    forall x | x in h' && x !in loose + c.except ensures Settled(h', x) {
      if x == last {
        var es := h[last].rep.Out();
        EdgesBelow(h, last);
        SumLenJoin(h', c.back, es, [e]);
        SumLenFrame(h, h', es);
        assert SumLen(h', [e]) == h'[e].rep.Len() + SumLen(h', []);
        JoinOuter(c.back, es, e);
        JustSettled(h', last);
      } else {
        assert Settled(h, x);
        SettledKept(h, h', x);
      }
    }
  }

  /** What is attached at the end of the leg is added to all of it. */
  lemma AttachedBytes(c: Start, h: Heap, held: multiset<Id>, leg: seq<Id>, n: nat, e: Id, loose: set<Id>, h': Heap)
    requires Copying(c, h, held, leg, n, [e], loose) && Attached(c, h, leg, e, h') && Shape(h) && Shape(h')
    ensures leg[0] in h && leg[0] in h' && Bytes(h', leg[0]) == Join(c.back, Bytes(h, leg[0]), Bytes(h, e))
  {
    hide Inv, Outer, Inner, AllSettled, ShortBy, Join, RepOk, Bytes;
    var o := Ids(leg);
    assert leg[..|leg|] == leg;
    OwnedIsClosed(h, held, c.back, leg, |leg|);
    assert Agree(h, h', o);
    AttachedOutside(c, h, held, leg, n, e, loose);
    AttachedLeaves(c, h, held, leg, e, h');
    GrownBytes(h, h', o, c.back, leg[0], e);
  }

  lemma GrownBytes(h: Heap, h': Heap, o: set<Id>, back: bool, x: Id, e: Id)
    requires Shape(h) && Shape(h') && Closed(h, o) && Agree(h, h', o) && x in h && x in h' && e in h
    requires forall y :: y in o && y in h ==> h[y].rep.Btree?
    requires h'.Keys == h.Keys && Leaves(h', x) == Join(back, Leaves(h, x), Leaves(h, e))
    ensures Bytes(h', x) == Join(back, Bytes(h, x), Bytes(h, e))
  {
    hide Join, RepOk;
    LeavesAreData(h, x);
    LeavesAreData(h, e);
    JoinIn(back, Leaves(h, x), Leaves(h, e));
    forall y | y in Leaves(h', x) ensures IsEdge(h, 0, y) && y in h' && y !in o {
      assert y in Leaves(h, x) || y in Leaves(h, e);
    }
    CatFrame(h, h', o, Leaves(h', x));
    CatJoin(h, back, Leaves(h, x), Leaves(h, e));
  }

  lemma AttachedOutside(c: Start, h: Heap, held: multiset<Id>, leg: seq<Id>, n: nat, e: Id, loose: set<Id>)
    requires Copying(c, h, held, leg, n, [e], loose) && e in h && h[e].rep.Level() == h[leg[|leg| - 1]].rep.height
    requires Shape(h)
    ensures e !in Ids(leg)
    ensures forall x :: x in h[leg[|leg| - 1]].rep.Out() ==> x !in Ids(leg)
    ensures forall x :: x in Ids(leg) ==> x in h && h[x].rep.Btree?
  {
    hide Inv, Outer, Inner, AllSettled, ShortBy, RepOk;
    forall i | 0 <= i < |leg| ensures leg[i] != e && leg[i] !in h[leg[|leg| - 1]].rep.Out() {
      LegAboveEdges(h, c.back, leg, leg[|leg| - 1], i);
      assert h[leg[i]].rep.height == h[leg[0]].rep.height - i;
      assert h[leg[|leg| - 1]].rep.height == h[leg[0]].rep.height - (|leg| - 1);
    }
  }

  lemma AttachedLeaves(c: Start, h: Heap, held: multiset<Id>, leg: seq<Id>, e: Id, h': Heap)
    requires Inv(h, held) && OwnedLeg(h, held, c.back, leg, |leg|) && Attached(c, h, leg, e, h') && Shape(h)
    requires Shape(h')
    requires Closed(h, Ids(leg)) && Agree(h, h', Ids(leg)) && e !in Ids(leg)
    requires forall x :: x in h[leg[|leg| - 1]].rep.Out() ==> x !in Ids(leg)
    ensures leg[0] in h && leg[0] in h' && Leaves(h', leg[0]) == Join(c.back, Leaves(h, leg[0]), Leaves(h, e))
  {
    hide Inv, Outer, Inner, Join, RepOk, Leaves, LeavesOf;
    var last := leg[|leg| - 1];
    var d := |leg| - 1;
    assert leg[..d + 1] == leg;
    NodeOk(h, last);
    LeavesOfOne(h, h[last].rep.height, e);
    JoinedLeaves(h, h', Ids(leg), c.back, h[last].rep.Out(), [e], last);
    forall i | 0 <= i < d ensures leg[i] != last {
      LegDistinct(h, c.back, leg, i, d);
    }
    assert Leaves(h', last) == Join(c.back, Leaves(h, last), Leaves(h, e)) by {
      LeavesOfNode(h, last);
    }
    OwnedGrows(h, held, h', c.back, leg, d, Leaves(h, e));
  }

  // --- The loop -------------------------------------------------------------------------------

  /** The `n` bytes still missing: they are those of the edge next to the window of `node`. */
  ghost function Missing(c: Start, node: Id, index: nat, n: nat): seq<byte>
    requires Shape(c.h0) && AtSlot(c, node, index, n)
  {
    if n == 0 then [] else Near(c.back, Bytes(c.h0, c.h0[node].rep.slots[PartSlot(c.back, index)]), n)
  }

  ghost predicate AtSlot(c: Start, node: Id, index: nat, n: nat)
    requires Shape(c.h0)
  {
    && node in c.h0 && IsNode(c.h0[node].rep) && c.h0[node].rep.Level() <= c.k0
    && c.h0[node].rep.begin <= index <= c.h0[node].rep.end
    && (n > 0 ==> c.h0[node].rep.begin <= PartSlot(c.back, index) < c.h0[node].rep.end)
    && (n > 0 ==> c.h0[node].rep.slots[PartSlot(c.back, index)] in c.h0)
    && (n > 0 ==> n < c.h0[c.h0[node].rep.slots[PartSlot(c.back, index)]].rep.Len())
    && (n > 0 ==> n <= |Bytes(c.h0, c.h0[node].rep.slots[PartSlot(c.back, index)])|)
  }

  /** The leg and what is missing make up `want`. */
  ghost predicate Filling(c: Start, want: seq<byte>, h: Heap, held: multiset<Id>, leg: seq<Id>, node: Id, index: nat,
                          n: nat)
    requires Shape(c.h0)
  {
    && SettledTo(c.h0, c.except, c.k0) && Copying(c, h, held, leg, n, [], {}) && Shape(h) && AtSlot(c, node, index, n)
    && h[leg[|leg| - 1]].rep == Window(c.back, c.h0[node].rep, index, h[leg[|leg| - 1]].rep.length)
    && want == Join(c.back, Bytes(h, leg[0]), Missing(c, node, index, n)) && NoNewData(c.h0, h)
  }

  lemma PushedOut(rep: Rep, back: bool, e: Id)
    requires IsNode(rep) && if back then rep.end < MAX_CAPACITY else rep.begin > 0
    ensures back ==>
      NodeWith(rep.(end := rep.end + 1, slots := rep.slots[rep.end := e]), rep.height, rep.length,
               Join(back, rep.Out(), [e]))
    ensures !back ==>
      NodeWith(rep.(begin := rep.begin - 1, slots := rep.slots[rep.begin - 1 := e]), rep.height, rep.length,
               Join(back, rep.Out(), [e]))
  {
  }

  lemma OneBag(e: Id)
    ensures multiset([e]) == multiset{e}
  {
  }

  /** Writes `e` into the slot next to the window of `sub`. */
  method WriteEdge(a: Arena, back: bool, sub: Id, e: Id)
    requires a.Ok() && sub in a.cells && a.cells[sub].rep.Btree? && e in a.held
    requires if back then a.cells[sub].rep.end < MAX_CAPACITY else a.cells[sub].rep.begin > 0
    requires IsEdge(a.cells, a.cells[sub].rep.height, e)
    modifies a
    ensures a.Ok() && a.next == old(a.next) && a.held == old(a.held) - multiset{e}
    ensures sub in a.cells && a.cells == old(a.cells)[sub := a.cells[sub]] && a.cells[sub].rc == old(a.cells)[sub].rc
    ensures
      var was := old(a.cells)[sub].rep;
      NodeWith(a.cells[sub].rep, was.height, was.length, Join(back, was.Out(), [e]))
  {
    hide Inv, RepOk, Join;
    InvShape(a.cells, a.held);
    NodeOk(a.cells, sub);
    var rep := a.cells[sub].rep;
    PushedOut(rep, back, e);
    if back {
      rep := rep.(end := rep.end + 1, slots := rep.slots[rep.end := e]);
    } else {
      rep := rep.(begin := rep.begin - 1, slots := rep.slots[rep.begin - 1 := e]);
    }
    OneBag(e);
    InstallEdges(a, back, sub, rep, [e]);
  }

  lemma FillingEdge(c: Start, want: seq<byte>, h: Heap, held: multiset<Id>, leg: seq<Id>, node: Id, index: nat, n: nat)
    requires Shape(c.h0) && Filling(c, want, h, held, leg, node, index, n) && n > 0
    ensures
      var sub, edge := leg[|leg| - 1], c.h0[node].rep.slots[PartSlot(c.back, index)];
      && node in c.h0 && c.h0[node].rep.Btree? && sub in h && h[sub].rep.Btree?
      && h[sub].rep.height == c.h0[node].rep.height
      && edge in h && Same(c.h0[edge], h[edge]) && node in h && Same(c.h0[node], h[node])
      && IsEdge(c.h0, c.h0[node].rep.height, edge)
      && (if c.back then h[sub].rep.end < MAX_CAPACITY else h[sub].rep.begin > 0)
  {
    hide Inv, Outer, AllSettled, ShortBy, Bytes, Join;
    NodeOk(c.h0, node);
    SpanOne(c.h0, c.h0[node].rep, PartSlot(c.back, index));
  }

  ghost predicate LevelsKept(h: Heap, h': Heap) {
    forall x :: x in h ==> x in h' && h'[x].rep.Level() == h[x].rep.Level()
  }

  /** The copy is complete. */
  ghost predicate Done(c: Start, want: seq<byte>, h: Heap, held: multiset<Id>, r: Id) {
    Fresh(c.h0, c.n0, c.held0, c.except, h, held, r) && Shape(h) && h[r].rep.Btree? && Bytes(h, r) == want
  }

  lemma FillingDone(c: Start, want: seq<byte>, h: Heap, held: multiset<Id>, leg: seq<Id>, node: Id, index: nat)
    requires Shape(c.h0) && Filling(c, want, h, held, leg, node, index, 0)
    ensures Done(c, want, h, held, leg[0])
  {
    hide Inv, Outer, Bytes, Join;
    JoinNothing(c.back, Bytes(h, leg[0]));
    assert held == c.held0 + multiset{leg[0]};
    forall x | x in h && x !in c.except ensures Settled(h, x) {
      assert x == leg[|leg| - 1] ==> ShortBy(h, x, 0);
    }
  }

  lemma PartBytes(back: bool, bytes: seq<byte>, n: nat)
    requires n <= |bytes|
    ensures Near(back, bytes, n) == Slice(bytes, if back then 0 else |bytes| - n, n)
  {
  }

  /** The last round: part of a data edge. */
  method CopyLast(a: Arena, ghost c: Start, ghost want: seq<byte>, back: bool, ghost leg: seq<Id>,
                  sub: Id, ghost node: Id, ghost index: nat, edge: Id, n: nat)
    requires a.Ok() && c.back == back && Shape(c.h0) && Filling(c, want, a.cells, a.held, leg, node, index, n) && n > 0
    requires sub == leg[|leg| - 1] && edge == c.h0[node].rep.slots[PartSlot(back, index)]
    requires c.h0[node].rep.height == 0 && c.n0 <= a.next
    modifies a
    ensures a.Ok() && old(a.next) <= a.next <= old(a.next) + 1
    ensures Done(c, want, a.cells, a.held, leg[0]) && LevelsKept(old(a.cells), a.cells)
    ensures SameAbove(old(a.cells), c.h0[node].rep.Rank(), a.cells) && Widened(old(a.cells), a.cells, leg)
  {
    hide Inv, RepOk, Filling, Bytes, Join, Done, PartSlot, Copying, Outer, AtSlot, DataBytes, Slice, Missing,
      LevelsKept, SameAbove, Widened;
    ghost var h, held, n1 := a.cells, a.held, a.next;
    FillingEdge(c, want, h, held, leg, node, index, n);
    LastBytes(c, want, h, held, leg, node, index, n);
    var offset := if back then 0 else a.cells[edge].rep.Len() - n;
    var e := PartOf(a, edge, offset, n);
    ghost var h1, held1 := a.cells, a.held;
    InvShape(h1, held1);
    CopyingPart(c, h, held, leg, n, n1, e, h1, held1);
    WriteEdge(a, back, sub, e);
    AttachedLevels(c, h, leg, e, h1, a.cells);
    AttachedAbove(c, h, leg, e, h1, a.cells, 1, c.h0[node].rep.Rank());
    LastDone(c, want, h, held, leg, node, index, n, e, h1, held1, a.cells, a.held);
    AttachedWidth(c, h, leg, e, h1, a.cells);
  }

  lemma AttachedLevels(c: Start, h: Heap, leg: seq<Id>, e: Id, h1: Heap, h2: Heap)
    requires Extends(h, h1) && Attached(c, h1, leg, e, h2)
    ensures LevelsKept(h, h2)
  {
    hide Join;
  }

  lemma AttachedAbove(c: Start, h: Heap, leg: seq<Id>, e: Id, h1: Heap, h2: Heap, r1: nat, r2: nat)
    requires SameAbove(h, r1, h1) && r1 <= r2 && Attached(c, h1, leg, e, h2) && h1[leg[|leg| - 1]].rep.Rank() <= r2
    ensures SameAbove(h, r2, h2)
  {
    hide Join;
  }

  lemma CopyAbove(h: Heap, es: seq<Id>, r: Id, h': Heap, rank: nat)
    requires CopyOf(h, es, r, h') && forall e :: e in es && e in h ==> h[e].rep.Rank() <= rank
    ensures SameAbove(h, rank, h')
  {
    forall x | x in h && h[x].rep.Rank() > rank ensures x in h' && h'[x] == h[x] {
      InBag(es, x);
    }
  }

  lemma LastBytes(c: Start, want: seq<byte>, h: Heap, held: multiset<Id>, leg: seq<Id>, node: Id, index: nat, n: nat)
    requires Shape(c.h0) && Filling(c, want, h, held, leg, node, index, n) && n > 0 && c.h0[node].rep.height == 0
    ensures
      var edge := c.h0[node].rep.slots[PartSlot(c.back, index)];
      && leg != [] && Copying(c, h, held, leg, n, [], {}) && edge in h && !h[edge].rep.Btree? && Shape(h) && leg[0] in h
      && n < h[edge].rep.Len() && AtSlot(c, node, index, n) && NoNewData(c.h0, h)
      && want == Join(c.back, Bytes(h, leg[0]), Missing(c, node, index, n))
      && Missing(c, node, index, n) == Slice(DataBytes(h, edge), if c.back then 0 else h[edge].rep.Len() - n, n)
  {
    hide Inv, RepOk, Join, AllSettled, Outer, Slice;
    FillingEdge(c, want, h, held, leg, node, index, n);
    var edge := c.h0[node].rep.slots[PartSlot(c.back, index)];
    BytesOfData(c.h0, edge);
    DataKept(c.h0, h, edge);
    PartBytes(c.back, Bytes(c.h0, edge), n);
  }

  lemma LastDone(c: Start, want: seq<byte>, h: Heap, held: multiset<Id>, leg: seq<Id>, node: Id, index: nat, n: nat,
                 e: Id, h1: Heap, held1: multiset<Id>, h2: Heap, held2: multiset<Id>)
    requires Shape(c.h0) && AtSlot(c, node, index, n) && Shape(h) && Copying(c, h, held, leg, n, [], {}) && leg[0] in h
    requires want == Join(c.back, Bytes(h, leg[0]), Missing(c, node, index, n))
    requires Shape(h1) && Copying(c, h1, held1, leg, n, [e], {}) && Extends(h, h1)
    requires NoNewData(c.h0, h) && NoNewData(h, h1)
    requires e in h1 && !h1[e].rep.Btree? && h1[e].rep.Len() == n && DataBytes(h1, e) == Missing(c, node, index, n)
    requires Attached(c, h1, leg, e, h2) && Inv(h2, held2) && held2 == held1 - multiset{e}
    ensures Done(c, want, h2, held2, leg[0])
  {
    hide Inv, RepOk, Bytes, Join, Outer, AtSlot, DataBytes, Missing, AllSettled, ShortBy, Attached;
    InvShape(h2, held2);
    AttachedLeg(c, h1, held1, leg, n, e, {}, h2, held2);
    AttachedSettled(c, h1, held1, leg, n, e, {}, h2);
    assert {} + c.except == c.except;
    AttachedBytes(c, h1, held1, leg, n, e, {}, h2);
    BytesFrame(h, h1, {}, leg[0]);
    BytesOfData(h1, e);
    AttachedData(c, h, leg, e, h1, h2);
  }

  /** The last node of the leg has one more edge, and its first node no fewer. */
  ghost predicate Widened(h: Heap, h': Heap, leg: seq<Id>) {
    && leg != [] && leg[0] in h && leg[0] in h'
    && |h'[leg[0]].rep.Out()| >= |h[leg[0]].rep.Out()| + if |leg| == 1 then 1 else 0
  }

  lemma AttachedWidth(c: Start, h: Heap, leg: seq<Id>, e: Id, h1: Heap, h2: Heap)
    requires Extends(h, h1) && Attached(c, h1, leg, e, h2) && leg[0] in h
    ensures Widened(h, h2, leg)
  {
  }

  /** A copied node is no data, whatever is given up then. */
  lemma CopiedData(h: Heap, es: seq<Id>, r: Id, h1: Heap, h': Heap)
    requires CopyOf(h, es, r, h1) && r in h1 && h1[r].rep.Btree? && Shrunk(h1, h')
    ensures NoNewData(h, h')
  {
  }

  lemma AttachedData(c: Start, h: Heap, leg: seq<Id>, e: Id, h1: Heap, h2: Heap)
    requires NoNewData(c.h0, h) && NoNewData(h, h1) && Extends(h, h1) && Attached(c, h1, leg, e, h2)
    ensures NoNewData(c.h0, h2)
  {
    hide Join;
  }

  /** One round: the wanted part of `edge` is copied as the next node of the leg. */
  method CopyDown(a: Arena, ghost c: Start, ghost want: seq<byte>, back: bool, ghost leg: seq<Id>,
                  sub: Id, ghost node: Id, ghost index0: nat, edge: Id, n: nat) returns (nsub: Id, index: nat, m: nat)
    requires a.Ok() && c.back == back && Shape(c.h0) && Filling(c, want, a.cells, a.held, leg, node, index0, n) && n > 0
    requires sub == leg[|leg| - 1] && edge == c.h0[node].rep.slots[PartSlot(back, index0)]
    requires c.h0[node].rep.height > 0 && c.n0 <= a.next
    modifies a
    ensures a.Ok() && a.next == old(a.next) + 1
    ensures edge in c.h0 && c.h0[edge].rep.Level() == c.h0[node].rep.height && leg != []
    ensures Filling(c, want, a.cells, a.held, leg + [nsub], edge, index, m) && LevelsKept(old(a.cells), a.cells)
    ensures SameAbove(old(a.cells), c.h0[node].rep.Rank(), a.cells) && Widened(old(a.cells), a.cells, leg)
  {
    hide Inv, RepOk, Filling, Bytes, Join, PartSlot, Copying, Outer, AtSlot, Missing, Window, LevelsKept, SameAbove,
      NoNewData, Widened;
    ghost var h, held := a.cells, a.held;
    FillingEdge(c, want, h, held, leg, node, index0, n);
    DownFacts(c, want, h, held, leg, node, index0, n);
    index, m := Cut(a.cells, back, a.cells[edge].rep, n);
    ghost var es := Window(back, h[edge].rep, index, n).Out();
    NodeOk(c.h0, edge);
    SumLenBack(c.h0, h, c.h0[edge].rep, back, index, n);
    if m > 0 {
      SpanOne(c.h0, c.h0[edge].rep, PartSlot(back, index));
    }
    DownCut(c, node, index0, n, edge, index, m);
    WindowBelow(h, edge, back, index, n);
    nsub := CopyNode(a, Window(back, a.cells[edge].rep, index, n));
    ghost var h1, held1 := a.cells, a.held;
    InvShape(h1, held1);
    CopyingCopy(c, h, held, leg, n, es, nsub, h1, held1);
    CopiedData(h, es, nsub, h1, h1);
    WriteEdge(a, back, sub, nsub);
    AttachedLevels(c, h, leg, nsub, h1, a.cells);
    CopyAbove(h, es, nsub, h1, h[edge].rep.Rank());
    AttachedAbove(c, h, leg, nsub, h1, a.cells, h[edge].rep.Rank(), c.h0[node].rep.Rank());
    DownFilling(c, want, h, held, leg, node, index0, n, edge, index, m, es, nsub, h1, held1, a.cells, a.held);
    AttachedWidth(c, h, leg, nsub, h1, a.cells);
  }

  /** `edge` is an unchanged, settled node of the original. */
  lemma DownFacts(c: Start, want: seq<byte>, h: Heap, held: multiset<Id>, leg: seq<Id>, node: Id, index: nat, n: nat)
    requires Shape(c.h0) && Filling(c, want, h, held, leg, node, index, n) && n > 0 && c.h0[node].rep.height > 0
    ensures leg != [] && Copying(c, h, held, leg, n, [], {}) && Shape(h) && AtSlot(c, node, index, n) && leg[0] in h
    ensures NoNewData(c.h0, h)
    ensures Extends(c.h0, h) && SettledTo(c.h0, c.except, c.k0) && leg[|leg| - 1] in h && h[leg[|leg| - 1]].rep.Btree?
    ensures want == Join(c.back, Bytes(h, leg[0]), Missing(c, node, index, n))
    ensures
      var edge := c.h0[node].rep.slots[PartSlot(c.back, index)];
      && edge in h && edge in c.h0 && h[edge].rep.Btree? && h[edge].rep == c.h0[edge].rep && n < h[edge].rep.length
      && h[edge].rep.Level() <= c.k0 && h[edge].rep.height == c.h0[node].rep.height - 1 && IsSettledNode(h, h[edge].rep)
      && h[leg[|leg| - 1]].rep.height == c.h0[node].rep.height
  {
    hide Inv, Join, Outer, Bytes;
    FillingEdge(c, want, h, held, leg, node, index, n);
    var edge := c.h0[node].rep.slots[PartSlot(c.back, index)];
    NodeOk(c.h0, edge);
    NodeOk(h, edge);
    assert Settled(c.h0, edge);
    forall e | e in c.h0[edge].rep.Out() ensures e in c.h0 && e in h && c.h0[e].rep.Len() == h[e].rep.Len() {
      assert IsEdge(c.h0, c.h0[edge].rep.height, e);
    }
    SumLenFrame(c.h0, h, c.h0[edge].rep.Out());
  }

  /** The wanted part of `edge`: the edges `es` and a smaller part. */
  ghost predicate Parts(c: Start, node: Id, index0: nat, n: nat, edge: Id, index: nat, m: nat, es: seq<Id>)
    requires Shape(c.h0)
  {
    && AtSlot(c, node, index0, n) && AtSlot(c, edge, index, m)
    && es == Window(c.back, c.h0[edge].rep, index, n).Out() && AllEdges(c.h0, c.h0[edge].rep.height, es)
    && SumLen(c.h0, es) + m == n
    && Missing(c, node, index0, n) == Join(c.back, BytesOf(c.h0, c.h0[edge].rep.height, es), Missing(c, edge, index, m))
  }

  lemma DownCut(c: Start, node: Id, index0: nat, n: nat, edge: Id, index: nat, m: nat)
    requires Shape(c.h0) && AtSlot(c, node, index0, n) && n > 0 && SettledTo(c.h0, c.except, c.k0)
    requires edge == c.h0[node].rep.slots[PartSlot(c.back, index0)] && edge in c.h0 && IsNode(c.h0[edge].rep)
    requires c.h0[edge].rep.begin <= index <= c.h0[edge].rep.end && c.h0[edge].rep.Level() <= c.k0
    requires SumLen(c.h0, Window(c.back, c.h0[edge].rep, index, n).Out()) + m == n
    requires m > 0 ==> c.h0[edge].rep.begin <= PartSlot(c.back, index) < c.h0[edge].rep.end
    requires m > 0 ==> c.h0[edge].rep.slots[PartSlot(c.back, index)] in c.h0
    requires m > 0 ==> m < c.h0[c.h0[edge].rep.slots[PartSlot(c.back, index)]].rep.Len()
    ensures Parts(c, node, index0, n, edge, index, m, Window(c.back, c.h0[edge].rep, index, n).Out())
  {
    hide RepOk, Join, Near, Bytes, BytesOf, SettledTo;
    CutBytes(c.h0, c.except, c.k0, c.back, edge, index, m);
    assert Window(c.back, c.h0[edge].rep, index, n).Out() == Window(c.back, c.h0[edge].rep, index, 0).Out();
    JoinNothing(c.back, BytesOf(c.h0, c.h0[edge].rep.height, Window(c.back, c.h0[edge].rep, index, n).Out()));
  }

  lemma SumLenBack(h: Heap, h': Heap, node: Rep, back: bool, index: nat, n: nat)
    requires Extends(h, h') && IsNode(node) && node.begin <= index <= node.end && AllEdges(h, node.height, node.Out())
    ensures
      var es := Window(back, node, index, n).Out();
      SumLen(h', es) == SumLen(h, es) && AllEdges(h, node.height, es) && AllEdges(h', node.height, es)
  {
    var es := Window(back, node, index, n).Out();
    forall e | e in es ensures e in node.Out() {
      var i :| 0 <= i < |es| && es[i] == e;
      assert e == node.Out()[if back then i else i + index - node.begin];
    }
    SumLenSame(h, h', node.height, es);
  }

  lemma SumLenSame(h: Heap, h': Heap, k: nat, es: seq<Id>)
    requires Extends(h, h') && AllEdges(h, k, es)
    ensures SumLen(h', es) == SumLen(h, es) && AllEdges(h', k, es)
  {
    forall e | e in es ensures e in h && e in h' && h[e].rep.Len() == h'[e].rep.Len() && IsEdge(h', k, e) {
      assert IsEdge(h, k, e);
    }
    SumLenFrame(h, h', es);
  }

  lemma DownLeg(c: Start, h: Heap, held: multiset<Id>, leg: seq<Id>, n: nat, k: nat, es: seq<Id>, m: nat, r: Id,
                h1: Heap, held1: multiset<Id>, h2: Heap, held2: multiset<Id>)
    requires Copying(c, h1, held1, leg, n, [r], {r}) && Attached(c, h1, leg, r, h2) && r >= c.n0 && n > 0
    requires Inv(h2, held2) && held2 == held1 - multiset{r} && Extends(c.h0, h1)
    requires AllEdges(c.h0, k, es) && SumLen(c.h0, es) + m == n && h1[r].rc == 1 && NodeWith(h1[r].rep, k, n, es)
    ensures Copying(c, h2, held2, leg + [r], m, [], {})
  {
    hide Inv, RepOk, Outer, AllSettled, Join;
    InvShape(h2, held2);
    var last := leg[|leg| - 1];
    assert last != r;
    AttachedLeg(c, h1, held1, leg, n, r, {r}, h2, held2);
    AttachedSettled(c, h1, held1, leg, n, r, {r}, h2);
    JoinOuter(c.back, h1[last].rep.Out(), r);
    LegExtends(h2, c.back, leg, r);
    SumLenSame(c.h0, h2, k, es);
    assert (leg + [r])[|leg + [r]| - 1] == r && (leg + [r])[0] == leg[0];
    assert {r} + c.except == {r} + {} + c.except;
    assert ShortBy(h2, r, m);
  }

  lemma DownBytes(c: Start, want: seq<byte>, h: Heap, leg: seq<Id>, node: Id, index0: nat, n: nat, edge: Id, index: nat,
                  m: nat, es: seq<Id>, r: Id, h1: Heap, held1: multiset<Id>, h2: Heap)
    requires Shape(c.h0) && Shape(h) && Shape(h1) && Shape(h2) && Parts(c, node, index0, n, edge, index, m, es)
    requires leg != [] && leg[0] in h
    requires edge in c.h0 && c.h0[edge].rep.Btree?
    requires want == Join(c.back, Bytes(h, leg[0]), Missing(c, node, index0, n))
    requires Copying(c, h1, held1, leg, n, [r], {r}) && Extends(h, h1) && Attached(c, h1, leg, r, h2)
    requires r in h1 && NodeWith(h1[r].rep, c.h0[edge].rep.height, n, es)
    ensures leg[0] in h2 && want == Join(c.back, Bytes(h2, leg[0]), Missing(c, edge, index, m))
  {
    hide RepOk, Inv, Outer, AllSettled, Join, Missing, ShortBy, Attached, AtSlot, Window, OwnedLeg;
    AttachedBytes(c, h1, held1, leg, n, r, {r}, h2);
    BytesFrame(h, h1, {}, leg[0]);
    var k := c.h0[edge].rep.height;
    SumLenSame(c.h0, h1, k, es);
    BytesOfFrame(c.h0, h1, {}, k, es);
    assert Bytes(h1, r) == BytesOf(h1, k, es);
    JoinAssoc(c.back, Bytes(h, leg[0]), BytesOf(c.h0, k, es), Missing(c, edge, index, m));
  }

  lemma DownFilling(c: Start, want: seq<byte>, h: Heap, held: multiset<Id>, leg: seq<Id>, node: Id, index0: nat, n: nat,
                    edge: Id, index: nat, m: nat, es: seq<Id>, r: Id, h1: Heap, held1: multiset<Id>, h2: Heap,
                    held2: multiset<Id>)
    requires Shape(c.h0) && SettledTo(c.h0, c.except, c.k0) && Shape(h) && Shape(h1)
    requires Parts(c, node, index0, n, edge, index, m, es)
    requires leg != [] && leg[0] in h && n > 0 && r >= c.n0 && edge in c.h0 && IsNode(c.h0[edge].rep)
    requires c.h0[edge].rep.begin <= index <= c.h0[edge].rep.end
    requires want == Join(c.back, Bytes(h, leg[0]), Missing(c, node, index0, n))
    requires Copying(c, h1, held1, leg, n, [r], {r}) && Extends(h, h1) && Attached(c, h1, leg, r, h2)
    requires Inv(h2, held2) && held2 == held1 - multiset{r} && NoNewData(c.h0, h) && NoNewData(h, h1)
    requires r in h1 && h1[r].rc == 1 && h1[r].rep == Window(c.back, c.h0[edge].rep, index, n)
    ensures Filling(c, want, h2, held2, leg + [r], edge, index, m)
  {
    hide RepOk, Inv, Outer, AllSettled, SettledTo, Join, Missing, Attached, AtSlot, Copying;
    InvShape(h2, held2);
    CopyingParts(c, h1, held1, leg, n, [r], {r});
    DownLeg(c, h, held, leg, n, c.h0[edge].rep.height, es, m, r, h1, held1, h2, held2);
    DownBytes(c, want, h, leg, node, index0, n, edge, index, m, es, r, h1, held1, h2);
    assert (leg + [r])[|leg + [r]| - 1] == r && (leg + [r])[0] == leg[0];
    assert r in h2 && h2[r] == h1[r] by {
      AttachedOther(c, h1, held1, leg, n, r, {r}, h2);
    }
    AttachedData(c, h, leg, r, h1, h2);
  }

  lemma CopyingParts(c: Start, h: Heap, held: multiset<Id>, leg: seq<Id>, n: nat, more: seq<Id>, loose: set<Id>)
    requires Copying(c, h, held, leg, n, more, loose)
    ensures Inv(h, held) && Shape(h) && Extends(c.h0, h) && Kept(c.h0, c.n0, {}, h) && leg != [] && leg[0] in h
    ensures leg[|leg| - 1] in h && h[leg[|leg| - 1]].rep.Btree? && h[leg[|leg| - 1]].rep.length >= n
  {
    InvShape(h, held);
  }

  lemma AttachedOther(c: Start, h: Heap, held: multiset<Id>, leg: seq<Id>, n: nat, e: Id, loose: set<Id>, h': Heap)
    requires Copying(c, h, held, leg, n, [e], loose) && Attached(c, h, leg, e, h')
    ensures e in h' && h'[e] == h[e]
  {
    hide Inv, AllSettled, ShortBy, Join, Outer;
  }

  lemma SettledNode(h: Heap, except: set<Id>, k0: nat, x: Id)
    requires Shape(h) && SettledTo(h, except, k0) && x in h && h[x].rep.Btree? && h[x].rep.Level() <= k0
    ensures IsSettledNode(h, h[x].rep) && h[x].rep.Out() != []
  {
    NodeOk(h, x);
    assert Settled(h, x);
  }

  /** The first node of the copy. */
  lemma FirstFilling(c: Start, tree: Id, n: nat, index: nat, m: nat, r: Id, h: Heap, held: multiset<Id>)
    requires Inv(c.h0, c.held0) && Shape(c.h0) && SettledTo(c.h0, c.except, c.k0)
    requires forall x :: x in c.h0 ==> x < c.n0
    requires (forall x :: x in c.except ==> x < c.n0) && tree in c.h0 && c.h0[tree].rep.Level() <= c.k0
    requires IsNode(c.h0[tree].rep) && c.h0[tree].rep.begin <= index <= c.h0[tree].rep.end && 0 < n
    requires SumLen(c.h0, Window(c.back, c.h0[tree].rep, index, n).Out()) + m == n
    requires m > 0 ==> c.h0[tree].rep.begin <= PartSlot(c.back, index) < c.h0[tree].rep.end
    requires m > 0 ==> c.h0[tree].rep.slots[PartSlot(c.back, index)] in c.h0
    requires m > 0 ==> m < c.h0[c.h0[tree].rep.slots[PartSlot(c.back, index)]].rep.Len()
    requires r == c.n0 && CopyOf(c.h0, Window(c.back, c.h0[tree].rep, index, n).Out(), r, h) && Inv(h, held)
    requires held == c.held0 + multiset{r} && h[r].rep == Window(c.back, c.h0[tree].rep, index, n)
    ensures n <= |Bytes(c.h0, tree)| && Filling(c, Near(c.back, Bytes(c.h0, tree), n), h, held, [r], tree, index, m)
  {
    hide RepOk, Inv, Join, Bytes, BytesOf, Near, AllSettled, Window, PartSlot, Copying, AtSlot, Missing;
    InvShape(h, held);
    var k, es := c.h0[tree].rep.height, Window(c.back, c.h0[tree].rep, index, n).Out();
    FirstBytes(c, tree, n, index, m);
    SumLenSame(c.h0, h, k, es);
    BytesOfFrame(c.h0, h, {}, k, es);
    NodeBytes(h, r);
    FirstSettled(c, r, es, h);
    FirstCopying(c, r, es, n, m, h, held);
  }

  lemma FirstBytes(c: Start, tree: Id, n: nat, index: nat, m: nat)
    requires Shape(c.h0) && SettledTo(c.h0, c.except, c.k0) && 0 < n
    requires tree in c.h0 && c.h0[tree].rep.Level() <= c.k0
    requires tree in c.h0 && IsNode(c.h0[tree].rep) && c.h0[tree].rep.begin <= index <= c.h0[tree].rep.end
    requires SumLen(c.h0, Window(c.back, c.h0[tree].rep, index, n).Out()) + m == n
    requires m > 0 ==> c.h0[tree].rep.begin <= PartSlot(c.back, index) < c.h0[tree].rep.end
    requires m > 0 ==> c.h0[tree].rep.slots[PartSlot(c.back, index)] in c.h0
    requires m > 0 ==> m < c.h0[c.h0[tree].rep.slots[PartSlot(c.back, index)]].rep.Len()
    ensures
      var k, es := c.h0[tree].rep.height, Window(c.back, c.h0[tree].rep, index, n).Out();
      && AllEdges(c.h0, k, es) && AtSlot(c, tree, index, m) && n <= |Bytes(c.h0, tree)|
      && Near(c.back, Bytes(c.h0, tree), n) == Join(c.back, BytesOf(c.h0, k, es), Missing(c, tree, index, m))
  {
    hide RepOk, Join, Bytes, BytesOf, Near, SettledTo, PartSlot;
    var k, es := c.h0[tree].rep.height, Window(c.back, c.h0[tree].rep, index, n).Out();
    CutBytes(c.h0, c.except, c.k0, c.back, tree, index, m);
    assert Window(c.back, c.h0[tree].rep, index, 0).Out() == es;
    JoinNothing(c.back, BytesOf(c.h0, k, es));
  }

  lemma FirstSettled(c: Start, r: Id, es: seq<Id>, h: Heap)
    requires Shape(c.h0) && Shape(h) && AllSettled(c.h0, c.except) && CopyOf(c.h0, es, r, h)
    ensures AllSettled(h, {r} + c.except)
  {
    hide RepOk, Settled;
    forall x | x in h && x !in {r} + c.except ensures Settled(h, x) {
      SettledKept(c.h0, h, x);
    }
  }

  lemma FirstCopying(c: Start, r: Id, es: seq<Id>, n: nat, m: nat, h: Heap, held: multiset<Id>)
    requires (forall x :: x in c.h0 ==> x < c.n0) && r == c.n0 && CopyOf(c.h0, es, r, h) && Inv(h, held)
    requires held == c.held0 + multiset{r} && h[r].rep.Btree? && h[r].rep.length == n && h[r].rep.Out() == es
    requires SumLen(h, es) + m == n && 0 < n && AllSettled(h, {r} + c.except)
    requires forall x :: x in c.except ==> x < c.n0
    ensures Copying(c, h, held, [r], m, [], {})
  {
    hide RepOk, Inv, Settled;
    assert {r} + {} + c.except == {r} + c.except;
  }

  lemma NodeBytes(h: Heap, x: Id)
    requires Shape(h) && x in h && h[x].rep.Btree?
    ensures AllEdges(h, h[x].rep.height, h[x].rep.Out())
    ensures Bytes(h, x) == BytesOf(h, h[x].rep.height, h[x].rep.Out())
  {
    NodeOk(h, x);
  }

  /** The first (`back`) or last `n` bytes do not lie in one edge. */
  ghost predicate Wider(h: Heap, back: bool, x: Id, n: nat)
    requires x in h
  {
    h[x].rep.Out() != [] && Outer(!back, h[x].rep.Out()) in h && h[Outer(!back, h[x].rep.Out())].rep.Len() < n
  }

  lemma FirstWidth(h: Heap, back: bool, x: Id, n: nat, index: nat, m: nat)
    requires x in h && IsNode(h[x].rep) && h[x].rep.begin <= index <= h[x].rep.end && Wider(h, back, x, n)
    requires SumLen(h, Window(back, h[x].rep, index, n).Out()) + m == n
    requires m > 0 ==> h[x].rep.begin <= PartSlot(back, index) < h[x].rep.end
    requires m > 0 ==> h[x].rep.slots[PartSlot(back, index)] in h
    requires m > 0 ==> m < h[h[x].rep.slots[PartSlot(back, index)]].rep.Len()
    ensures |Window(back, h[x].rep, index, n).Out()| + (if m > 0 then 1 else 0) >= 2
  {
    var es := Window(back, h[x].rep, index, n).Out();
    if |es| == 1 {
      assert es[0] == Outer(!back, h[x].rep.Out());
      assert SumLen(h, es) == h[es[0]].rep.Len() + SumLen(h, es[1..]);
    }
  }

  /**
  A copy of the first (`back`) or last `n` bytes of node `tree`, of the same height. At most one
  node per level and one substring are allocated.
  */
  method CopySpan(a: Arena, ghost except: set<Id>, back: bool, tree: Id, n: nat) returns (r: Id)
    requires a.Ok() && tree in a.cells && a.cells[tree].rep.Btree? && (forall x :: x in except ==> x < a.next)
    requires SettledTo(a.cells, except, a.cells[tree].rep.Level())
    requires 0 < n < a.cells[tree].rep.length
    modifies a
    ensures a.Ok() && old(a.next) <= a.next <= old(a.next) + old(a.cells)[tree].rep.Level() + 1
    ensures Fresh(old(a.cells), old(a.next), old(a.held), except, a.cells, a.held, r)
    ensures r in a.cells && a.cells[r].rep.Level() == old(a.cells)[tree].rep.Level()
    ensures SameAbove(old(a.cells), old(a.cells)[tree].rep.Rank(), a.cells)
    ensures n <= |old(Bytes(a.cells, tree))| && Bytes(a.cells, r) == Near(back, old(Bytes(a.cells, tree)), n)
    ensures Wider(old(a.cells), back, tree, n) ==> Folded(a.cells[r].rep)
  {
    hide Inv, RepOk, Filling, Bytes, PartSlot, AtSlot, Window, AllEdges, SettledTo, Near, SumLen, Done, SameAbove,
      NoNewData, Wider;
    InvShape(a.cells, a.held);
    ghost var c := Start(a.cells, a.next, a.held, back, except, a.cells[tree].rep.Level());
    SettledNode(a.cells, except, c.k0, tree);
    NodeOk(a.cells, tree);
    var index, m := Cut(a.cells, back, a.cells[tree].rep, n);
    SumLenBack(a.cells, a.cells, a.cells[tree].rep, back, index, n);
    r := CopyNode(a, Window(back, a.cells[tree].rep, index, n));
    FirstFilling(c, tree, n, index, m, r, a.cells, a.held);
    WindowBelow(c.h0, tree, back, index, n);
    CopyAbove(c.h0, Window(back, c.h0[tree].rep, index, n).Out(), r, a.cells, c.h0[tree].rep.Rank());
    if Wider(c.h0, back, tree, n) {
      FirstWidth(c.h0, back, tree, n, index, m);
    }
    ghost var want := Near(back, Bytes(c.h0, tree), n);
    FillSpan(a, c, want, back, tree, r, index, m);
    DoneParts(c, want, a.cells, a.held, r);
  }

  /** Fills what is missing of the copy `r` of the node `tree`, going down one leg. */
  method FillSpan(a: Arena, ghost c: Start, ghost want: seq<byte>, back: bool, tree: Id, r: Id, index0: nat,
                  m0: nat)
    requires a.Ok() && c.back == back && Shape(c.h0) && tree in c.h0 && c.h0[tree].rep.Btree?
    requires Filling(c, want, a.cells, a.held, [r], tree, index0, m0) && LevelsKept(c.h0, a.cells)
    requires r in a.cells && a.cells[r].rep.Level() == c.h0[tree].rep.Level() && a.next == c.n0 + 1
    requires SameAbove(c.h0, c.h0[tree].rep.Rank(), a.cells)
    modifies a
    ensures a.Ok() && c.n0 < a.next <= c.n0 + c.h0[tree].rep.Level() + 1
    ensures Done(c, want, a.cells, a.held, r) && SameAbove(c.h0, c.h0[tree].rep.Rank(), a.cells)
    ensures r in a.cells && a.cells[r].rep.Level() == c.h0[tree].rep.Level()
    ensures |a.cells[r].rep.Out()| >= |old(a.cells)[r].rep.Out()| + if m0 > 0 then 1 else 0
  {
    hide Inv, RepOk, Filling, Bytes, PartSlot, AtSlot, Window, AllEdges, SettledTo, Done, SameAbove, NoNewData;
    ghost var width, leg := |a.cells[r].rep.Out()|, [r];
    var node, sub, index, m := tree, r, index0, m0;
    while m != 0 && a.cells[node].rep.height != 0
      invariant a.Ok() && LevelsKept(c.h0, a.cells) && r in a.cells && a.cells[r].rep.Level() == c.h0[tree].rep.Level()
      invariant Filling(c, want, a.cells, a.held, leg, node, index, m)
      invariant leg != [] && leg[0] == r && leg[|leg| - 1] == sub && node in c.h0 && c.h0[node].rep.Btree?
      invariant SameAbove(c.h0, c.h0[tree].rep.Rank(), a.cells) && c.h0[node].rep.Rank() <= c.h0[tree].rep.Rank()
      invariant c.n0 < a.next <= c.n0 + 1 + c.h0[tree].rep.height - c.h0[node].rep.height
      invariant |a.cells[r].rep.Out()| >= width + (if m0 > 0 && |leg| > 1 then 1 else 0)
      invariant |leg| == 1 ==> m == m0
      decreases c.h0[node].rep.height
    {
      FillingSlot(c, want, a.cells, a.held, leg, node, index, m);
      var edge := a.cells[node].rep.slots[PartSlot(back, index)];
      ghost var h := a.cells;
      sub, index, m := CopyDown(a, c, want, back, leg, sub, node, index, edge, m);
      AboveTrans(c.h0, h, a.cells, c.h0[node].rep.Rank(), c.h0[tree].rep.Rank());
      leg := leg + [sub];
      node := edge;
    }
    if m != 0 {
      FillingSlot(c, want, a.cells, a.held, leg, node, index, m);
      ghost var h := a.cells;
      CopyLast(a, c, want, back, leg, sub, node, index, a.cells[node].rep.slots[PartSlot(back, index)], m);
      AboveTrans(c.h0, h, a.cells, c.h0[node].rep.Rank(), c.h0[tree].rep.Rank());
    } else {
      FillingDone(c, want, a.cells, a.held, leg, node, index);
    }
  }

  lemma FillingSlot(c: Start, want: seq<byte>, h: Heap, held: multiset<Id>, leg: seq<Id>, node: Id, index: nat, n: nat)
    requires Shape(c.h0) && Filling(c, want, h, held, leg, node, index, n) && n > 0
    ensures node in c.h0 && node in h && h[node].rep == c.h0[node].rep && IsNode(h[node].rep)
    ensures 0 <= PartSlot(c.back, index) < |h[node].rep.slots|
  {
    hide Inv, RepOk, AllSettled, Bytes, ShortBy, OwnedLeg;
  }

  lemma DoneParts(c: Start, want: seq<byte>, h: Heap, held: multiset<Id>, r: Id)
    requires Done(c, want, h, held, r)
    ensures Fresh(c.h0, c.n0, c.held0, c.except, h, held, r) && Shape(h) && r in h && Bytes(h, r) == want
  {
  }

  lemma AboveTrans(h: Heap, h1: Heap, h2: Heap, r1: nat, r: nat)
    requires SameAbove(h, r, h1) && SameAbove(h1, r1, h2) && r1 <= r
    ensures SameAbove(h, r, h2)
  {
  }

  lemma WindowBelow(h: Heap, x: Id, back: bool, index: nat, n: nat)
    requires Shape(h) && x in h && IsNode(h[x].rep) && h[x].rep.begin <= index <= h[x].rep.end
    ensures forall e :: e in Window(back, h[x].rep, index, n).Out() ==> e in h && h[e].rep.Rank() <= h[x].rep.Rank()
  {
    EdgesBelow(h, x);
    var es := Window(back, h[x].rep, index, n).Out();
    forall e | e in es ensures e in h[x].rep.Out() {
      var i :| 0 <= i < |es| && es[i] == e;
      assert e == h[x].rep.Out()[if back then i else i + index - h[x].rep.begin];
    }
  }
}
