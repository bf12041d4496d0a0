/**
Rebuilding a tree that has grown too tall (`rebuild`, `rebuild_into` in rep/btree.rs).

The data edges are re-inserted one by one at the back of a tree under construction, of which
`levels` is the back leg: `levels[i]` is the last node of height `i`. Every node that is not
the last of its height is full.
*/
module Rebuilds {
  import opened Heap
  import opened Counts
  import opened Arenas
  import opened Substrings
  import opened Legs
  import opened Nodes
  import opened Edits
  import opened Climbs
  import opened Steps

  function Pow6(n: nat): nat {
    if n == 0 then 1 else 6 * Pow6(n - 1)
  }

  /** No tree of level `k` holds more data edges than a full one. */
  lemma {:induction false} LeavesBound(h: Heap, x: Id)
    requires Shape(h) && x in h
    ensures 1 <= Pow6(h[x].rep.Level())
    ensures |Leaves(h, x)| <= Pow6(h[x].rep.Level())
    decreases h[x].rep.Level(), 0
  {
    Pow6Positive(h[x].rep.Level());
    if h[x].rep.Btree? {
      NodeOk(h, x);
      LeavesOfBound(h, h[x].rep.height, h[x].rep.Out());
    }
  }

  lemma Pow6Positive(n: nat)
    ensures 1 <= Pow6(n)
  {
  }

  lemma {:induction false} LeavesOfBound(h: Heap, k: nat, es: seq<Id>)
    requires Shape(h) && AllEdges(h, k, es)
    ensures |LeavesOf(h, k, es)| <= |es| * Pow6(k)
    decreases k, |es|
  {
    hide Pow6, RepOk, Leaves;
    if es != [] {
      assert es[0] in es && IsEdge(h, k, es[0]);
      LeavesBound(h, es[0]);
      LeavesOfBound(h, k, es[1..]);
      LeavesOfHead(h, k, es);
      Distribute(|es[1..]|, Pow6(k));
    }
  }

  /** Full subtrees make full nodes. */
  lemma {:induction false} LeavesOfFull(h: Heap, k: nat, es: seq<Id>)
    requires Shape(h) && AllEdges(h, k, es)
    requires forall e :: e in es ==> |Leaves(h, e)| == Pow6(k)
    ensures |LeavesOf(h, k, es)| == |es| * Pow6(k)
    decreases k, |es|
  {
    hide Pow6, Leaves, RepOk;
    if es != [] {
      assert es[0] in es;
      LeavesOfFull(h, k, es[1..]);
      LeavesOfHead(h, k, es);
      Distribute(|es[1..]|, Pow6(k));
    }
  }

  lemma LeavesOfHead(h: Heap, k: nat, es: seq<Id>)
    requires Shape(h) && AllEdges(h, k, es) && es != []
    ensures es[0] in h && AllEdges(h, k, es[1..]) && LeavesOf(h, k, es) == Leaves(h, es[0]) + LeavesOf(h, k, es[1..])
  {
    assert es[0] in es;
  }

  lemma Distribute(n: nat, p: nat)
    ensures (n + 1) * p == p + n * p
  {
  }

  function Rev(s: seq<Id>): (r: seq<Id>)
    ensures |r| == |s|
    ensures forall i :: 0 <= i < |s| ==> r[i] == s[|s| - 1 - i]
  {
    if s == [] then [] else Rev(s[1..]) + [s[0]]
  }

  /** The rebuild: heap and id bound when it began. */
  datatype Site = Site(hb: Heap, n0: Id)

  ghost predicate SiteOk(s: Site) {
    Shape(s.hb) && forall x :: x in s.hb ==> x < s.n0
  }

  /** All nodes made by the rebuild are private to the new tree. */
  ghost predicate FreshPrivate(h: Heap, n0: Id, top: nat) {
    forall x :: x in h && x >= n0 && h[x].rep.Btree? ==>
      h[x].rc == 1 && h[x].rep.height < top &&
      (h[x].rep.height > 0 ==> forall e :: e in h[x].rep.Out() ==> e >= n0)
  }

  ghost predicate AllFull(h: Heap, i: nat, es: seq<Id>)
    requires Shape(h)
  {
    forall e :: e in es ==> e in h && |Leaves(h, e)| == Pow6(i)
  }

  /** Off the back leg every node is full. */
  ghost predicate Packed(h: Heap, levels: seq<Id>)
    requires Shape(h)
  {
    forall i :: 0 < i < |levels| && levels[i] in h && h[levels[i]].rep.Out() != [] ==>
      AllFull(h, i, Inner(true, h[levels[i]].rep.Out()))
  }

  ghost predicate Levels(h: Heap, n0: Id, levels: seq<Id>) {
    && 1 <= |levels| <= MAX_DEPTH
    && (forall i :: 0 <= i < |levels| ==>
          levels[i] >= n0 && levels[i] in h && h[levels[i]].rep.Btree? && h[levels[i]].rep.height == i)
    && (forall i :: 0 < i < |levels| ==> h[levels[i]].rep.Out() != [])
    && (forall i, j :: 0 <= j && i == j + 1 && i < |levels| ==> Outer(true, h[levels[i]].rep.Out()) == levels[j])
    && FreshPrivate(h, n0, |levels|)
  }

  /** `levels` is the back leg of a tree holding `done`; `rest` are the other handles. */
  ghost predicate Building(s: Site, h: Heap, held: multiset<Id>, rest: multiset<Id>, levels: seq<Id>, done: seq<Id>) {
    && Inv(h, held) && Levels(h, s.n0, levels)
    && held == rest + multiset{levels[|levels| - 1]}
    && Kept(s.hb, s.n0, {}, h)
    && (if done == [] then |levels| == 1 && h[levels[0]].rep.Out() == [] && h[levels[0]].rep.length == 0 &&
                           AllSettled(h, {levels[0]})
        else AllSettled(h, {}))
    && Leaves(h, levels[|levels| - 1]) == done
    && Packed(h, levels)
    && (|levels| > 1 ==> |h[levels[|levels| - 1]].rep.Out()| >= 2)
  }

  /** Read from the root down, the levels are a leg of which every node is private. */
  lemma LevelsLeg(h: Heap, held: multiset<Id>, n0: Id, levels: seq<Id>)
    requires Levels(h, n0, levels) && levels[|levels| - 1] in held
    ensures OwnedLeg(h, held, true, Rev(levels), |levels|)
  {
    hide Outer, Levels;
    LevelsSome(h, n0, levels);
    var r := Rev(levels);
    var n := |levels|;
    forall i | 0 <= i < n
      ensures r[i] in h && h[r[i]].rep.Btree? && h[r[i]].rep.height == n - 1 - i && h[r[i]].rc == 1
    {
      LevelAt(h, n0, levels, n - 1 - i);
    }
    forall i | 0 <= i < n - 1 ensures h[r[i]].rep.Out() != [] {
      LevelAt(h, n0, levels, n - 1 - i);
    }
    forall i, j | 0 <= i && j == i + 1 && j < n ensures Outer(true, h[r[i]].rep.Out()) == r[j] {
      LevelAt(h, n0, levels, n - 1 - i);
      assert r[j] == levels[n - 1 - i - 1];
    }
  }

  lemma LevelsSome(h: Heap, n0: Id, levels: seq<Id>)
    requires Levels(h, n0, levels)
    ensures levels != []
  {
  }

  lemma LevelAt(h: Heap, n0: Id, levels: seq<Id>, i: nat)
    requires Levels(h, n0, levels) && i < |levels|
    ensures levels[i] in h && h[levels[i]].rep.Btree? && h[levels[i]].rep.height == i && h[levels[i]].rc == 1
    ensures i > 0 ==> h[levels[i]].rep.Out() != [] && Outer(true, h[levels[i]].rep.Out()) == levels[i - 1]
  {
    hide Outer;
  }

  // --- The first edge -----------------------------------------------------------------

  /** The first data edge fills the empty leaf the rebuild starts with. */
  method AddFirst(a: Arena, levels: seq<Id>, edge: Id, ghost s: Site, ghost rest: multiset<Id>)
    requires a.Ok() && Building(s, a.cells, a.held, rest, levels, [])
    requires edge in rest && edge in a.cells && !a.cells[edge].rep.Btree?
    modifies a
    ensures a.Ok() && a.next == old(a.next)
    ensures Building(s, a.cells, a.held, rest - multiset{edge}, levels, [edge])
    ensures a.cells.Keys == old(a.cells).Keys
  {
    hide Inv, RepOk, Packed, FreshPrivate;
    var leaf := levels[0];
    ghost var h := a.cells;
    ghost var held := a.held;
    InvShape(h, a.held);
    var r, action := AddEdge(a, true, leaf, true, edge, a.cells[edge].rep.Len());
    InvShape(a.cells, a.held);
    LeavesOfOne(a.cells, 0, edge);
    assert SumLen(a.cells, [edge]) == a.cells[edge].rep.Len() + SumLen(a.cells, []);
    FirstBuilt(s, h, held, rest, levels, edge, a.cells, a.held);
  }

  lemma FirstBuilt(s: Site, h: Heap, held: multiset<Id>, rest: multiset<Id>, levels: seq<Id>, edge: Id, h': Heap,
                   held': multiset<Id>)
    requires |levels| == 1 && Inv(h, held) && levels[0] in held && Shape(h) && Levels(h, s.n0, levels)
    requires Kept(s.hb, s.n0, {}, h) && AllSettled(h, {levels[0]})
    requires edge in h && !h[edge].rep.Btree? && edge in rest
    requires Inv(h', held') && held' == rest - multiset{edge} + multiset{levels[0]}
    requires levels[0] in h && h' == h[levels[0] := h'[levels[0]]] && h'[levels[0]].rc == h[levels[0]].rc
    requires NodeWith(h'[levels[0]].rep, 0, h[edge].rep.Len(), [edge])
    requires SumLen(h', [edge]) == h[edge].rep.Len() && LeavesOf(h', 0, [edge]) == [edge]
    ensures Building(s, h', held', rest - multiset{edge}, levels, [edge])
  {
    hide Inv, RepOk, Settled;
    InvShape(h', held');
    var x := levels[0];
    HeldIsNoEdge(h, held, x);
    forall y | y in h' ensures Settled(h', y) {
      if y == x {
        JustSettled(h', x);
      } else {
        SettledKept(h, h', y);
      }
    }
  }

  lemma JustSettled(h: Heap, x: Id)
    requires x in h && h[x].rep.Btree? && h[x].rep.Out() != [] && h[x].rep.length == SumLen(h, h[x].rep.Out())
    ensures Settled(h, x)
  {
  }

  // --- Further edges ------------------------------------------------------------------

  /** The edit that adds `edge` behind everything built so far. */
  ghost function Insertion(h: Heap, next: Id, held: multiset<Id>, rest: multiset<Id>, levels: seq<Id>, edge: Id): Edit
    requires edge in h
  {
    Edit(h, next, held, rest - multiset{edge}, true, Rev(levels), |levels|, [edge], h[edge].rep.Len(), true)
  }

  lemma InsertionReady(s: Site, h: Heap, next: Id, held: multiset<Id>, rest: multiset<Id>, levels: seq<Id>,
                       done: seq<Id>, edge: Id)
    requires Building(s, h, held, rest, levels, done) && done != []
    requires edge in rest && edge in h && !h[edge].rep.Btree? && forall x :: x in h ==> x < next
    ensures CanAttach(Insertion(h, next, held, rest, levels, edge), h, held, |levels| - 1, [edge])
  {
    hide Inv, RepOk, Packed, Settled;
    var c := Insertion(h, next, held, rest, levels, edge);
    InvShape(h, held);
    LevelsLeg(h, held, s.n0, levels);
    assert c.stack[0] == levels[|levels| - 1] && c.stack[|levels| - 1] == levels[0];
    InsertionHeld(rest, levels[|levels| - 1], edge);
    LeavesOfOne(h, 0, edge);
    assert SumLen(h, [edge]) == h[edge].rep.Len() + SumLen(h, []);
    assert Clean(c, h, held, [edge]) by {
      forall i | 0 <= i < c.s ensures c.stack[i] in h && h[c.stack[i]].rc == 1 {
      }
    }
  }

  lemma InsertionHeld(rest: multiset<Id>, top: Id, edge: Id)
    requires edge in rest
    ensures rest + multiset{top} == rest - multiset{edge} + multiset{top} + multiset{edge}
    ensures rest - multiset{edge} + multiset{top} <= rest + multiset{top}
  {
  }

  /**
  The popped nodes, lowest first: each holds just the one below it, the lowest holds `edge`, and
  nothing else of the heap has changed.
  */
  ghost predicate Chain(h0: Heap, n: Id, h: Heap, chain: seq<Id>, edge: Id) {
    && h.Keys == h0.Keys + Ids(chain) && (forall x :: x in h0 ==> h[x] == h0[x])
    && (forall j :: 0 <= j < |chain| ==> chain[j] >= n && chain[j] in h && chain[j] !in h0 && h[chain[j]].rc == 1)
    && (forall j :: 0 <= j < |chain| ==> h[chain[j]].rep.Btree? && h[chain[j]].rep.height == j)
    && (chain != [] ==> h[chain[0]].rep.Out() == [edge])
    && (forall i, j :: 0 <= i < j < |chain| && i == j - 1 ==> h[chain[j]].rep.Out() == [chain[i]])
  }

  lemma ChainGrows(h0: Heap, n: Id, h: Heap, chain: seq<Id>, edge: Id, r: Id, h': Heap)
    requires Chain(h0, n, h, chain, edge) && r !in h && r >= n && r in h' && h' == h[r := h'[r]] && h'[r].rc == 1
    requires h'[r].rep.Btree? && h'[r].rep.height == |chain|
    requires h'[r].rep.Out() == [if chain == [] then edge else chain[|chain| - 1]]
    ensures Chain(h0, n, h', chain + [r], edge)
  {
    hide Ids;
    IdsAppend(chain, r);
  }

  lemma IdsAppend(chain: seq<Id>, r: Id)
    ensures Ids(chain + [r]) == Ids(chain) + {r}
  {
    var chain' := chain + [r];
    forall x ensures x in Ids(chain') <==> x in Ids(chain) + {r} {
      if x in Ids(chain) {
        var j :| 0 <= j < |chain| && chain[j] == x;
        assert chain'[j] == x;
      }
      assert chain'[|chain|] == r;
    }
  }

  /** All nodes up to `height` were full. */
  ghost predicate FullUpTo(h: Heap, levels: seq<Id>, height: nat)
    requires Shape(h)
  {
    forall j :: 0 <= j < height && j < |levels| ==> levels[j] in h && |Leaves(h, levels[j])| == Pow6(j + 1)
  }

  /** A node of the back leg with six edges, the last of them full, is full. */
  lemma LevelFull(h: Heap, n0: Id, levels: seq<Id>, i: nat)
    requires Shape(h) && Levels(h, n0, levels) && Packed(h, levels) && FullUpTo(h, levels, i) && i < |levels|
    requires |h[levels[i]].rep.Out()| >= MAX_CAPACITY
    ensures FullUpTo(h, levels, i + 1)
  {
    hide FreshPrivate, RepOk, Inner, Outer;
    var x := levels[i];
    NodeOk(h, x);
    var es := h[x].rep.Out();
    InnerIn(true, es);
    forall e | e in es ensures |Leaves(h, e)| == Pow6(i) {
      assert IsEdge(h, i, e);
      if i > 0 {
        assert AllFull(h, i, Inner(true, es));
        assert |Leaves(h, levels[i - 1])| == Pow6(i - 1 + 1);
      }
    }
    LeavesOfFull(h, i, es);
  }

  ghost function Tip(chain: seq<Id>, edge: Id): Id {
    if chain == [] then edge else chain[|chain| - 1]
  }

  /** The popped chain hangs behind the edges of `levels[height]`; no other edges have changed. */
  ghost predicate Inserted(h0: Heap, n: Id, h: Heap, levels: seq<Id>, height: nat, chain: seq<Id>, edge: Id)
    requires height < |levels|
  {
    && |chain| == height && h.Keys == h0.Keys + Ids(chain)
    && (forall x :: x in h0 ==> h[x].rc == h0[x].rc)
    && (forall x :: x in h0 && !h0[x].rep.Btree? ==> h[x] == h0[x])
    && (forall x :: x in h0 && h0[x].rep.Btree? ==>
          NodeWithOut(h[x].rep, h0[x].rep.height,
                      h0[x].rep.Out() + if x == levels[height] then [Tip(chain, edge)] else []))
    && (forall j :: 0 <= j < |chain| ==> chain[j] >= n && chain[j] in h && chain[j] !in h0 && h[chain[j]].rc == 1)
    && (forall j :: 0 <= j < |chain| ==> h[chain[j]].rep.Btree? && h[chain[j]].rep.height == j)
    && (chain != [] ==> h[chain[0]].rep.Out() == [edge])
    && (forall i, j :: 0 <= i < j < |chain| && i == j - 1 ==> h[chain[j]].rep.Out() == [chain[i]])
  }

  lemma InsertedBy(h0: Heap, n: Id, h: Heap, levels: seq<Id>, height: nat, chain: seq<Id>, edge: Id, h1: Heap, h2: Heap)
    requires height < |levels| && |chain| == height && Chain(h0, n, h, chain, edge)
    requires
      var x := levels[height];
      x in h0 && h0[x].rep.Btree? && x in h1 && h1 == h[x := h1[x]] && h1[x].rc == h[x].rc &&
      NodeWithOut(h1[x].rep, h0[x].rep.height, h0[x].rep.Out() + [Tip(chain, edge)])
    requires LengthOnly(h1, h2)
    ensures Inserted(h0, n, h2, levels, height, chain, edge)
  {
    forall x | x in h0 && h0[x].rep.Btree?
      ensures NodeWithOut(h2[x].rep, h0[x].rep.height,
                      h0[x].rep.Out() + if x == levels[height] then [Tip(chain, edge)] else [])
    {
      assert h0[x].rep.Out() + [] == h0[x].rep.Out();
    }
  }

  lemma InsertedLevels(n0: Id, h0: Heap, n: Id, h: Heap, levels: seq<Id>, height: nat, chain: seq<Id>, edge: Id)
    requires Levels(h0, n0, levels) && height < |levels| && n >= n0
    requires Inserted(h0, n, h, levels, height, chain, edge)
    ensures Levels(h, n0, chain + levels[height..])
  {
    hide Outer, FreshPrivate;
    var levels' := chain + levels[height..];
    assert |levels'| == |levels|;
    forall i | 0 <= i < |levels'|
      ensures levels'[i] >= n0 && levels'[i] in h && h[levels'[i]].rep.Btree? && h[levels'[i]].rep.height == i
    {
      InsertedLevel(n0, h0, n, h, levels, height, chain, edge, i);
    }
    forall i | 0 < i < |levels'|
      ensures h[levels'[i]].rep.Out() != [] && Outer(true, h[levels'[i]].rep.Out()) == levels'[i - 1]
    {
      InsertedLevel(n0, h0, n, h, levels, height, chain, edge, i);
    }
    InsertedFresh(n0, h0, n, h, levels, height, chain, edge);
  }

  lemma InsertedLevel(n0: Id, h0: Heap, n: Id, h: Heap, levels: seq<Id>, height: nat, chain: seq<Id>, edge: Id, i: nat)
    requires Levels(h0, n0, levels) && height < |levels| && n >= n0 && i < |levels|
    requires Inserted(h0, n, h, levels, height, chain, edge)
    ensures
      var levels' := chain + levels[height..];
      levels'[i] >= n0 && levels'[i] in h && h[levels'[i]].rep.Btree? && h[levels'[i]].rep.height == i &&
      (i > 0 ==> h[levels'[i]].rep.Out() != [] && Outer(true, h[levels'[i]].rep.Out()) == levels'[i - 1])
  {
    hide Outer, FreshPrivate;
    var levels' := chain + levels[height..];
    if i >= height {
      assert levels'[i] == levels[i];
      InsertedAt(h0, n, h, levels, height, chain, edge, levels[i]);
      JoinOuter(true, h0[levels[i]].rep.Out(), Tip(chain, edge));
      assert i > height ==> levels'[i - 1] == levels[i - 1];
    } else {
      assert levels'[i] == chain[i];
      assert i > 0 ==> h[chain[i]].rep.Out() == [chain[i - 1]];
      JoinOuter(true, [], if i == 0 then edge else chain[i - 1]);
    }
  }

  lemma InsertedFresh(n0: Id, h0: Heap, n: Id, h: Heap, levels: seq<Id>, height: nat, chain: seq<Id>, edge: Id)
    requires Levels(h0, n0, levels) && height < |levels| && n >= n0
    requires Inserted(h0, n, h, levels, height, chain, edge)
    ensures FreshPrivate(h, n0, |levels|)
  {
    forall x | x in h && x >= n0 && h[x].rep.Btree?
      ensures h[x].rc == 1 && h[x].rep.height < |levels|
      ensures h[x].rep.height > 0 ==> forall e :: e in h[x].rep.Out() ==> e >= n0
    {
      if x in h0 {
        assert h0[x].rep.Btree?;
        assert NodeWithOut(h[x].rep, h0[x].rep.height,
                      h0[x].rep.Out() + if x == levels[height] then [Tip(chain, edge)] else []);
      } else {
        assert x in Ids(chain);
        var j :| 0 <= j < |chain| && chain[j] == x;
        assert j > 0 ==> h[chain[j]].rep.Out() == [chain[j - 1]];
      }
    }
  }

  lemma InsertedPacked(n0: Id, h0: Heap, held0: multiset<Id>, n: Id, h: Heap, levels: seq<Id>, height: nat,
                       chain: seq<Id>, edge: Id)
    requires Inv(h0, held0) && levels != [] && levels[|levels| - 1] in held0 && Shape(h)
    requires Levels(h0, n0, levels) && Packed(h0, levels) && height < |levels| && FullUpTo(h0, levels, height)
    requires Inserted(h0, n, h, levels, height, chain, edge)
    ensures Packed(h, chain + levels[height..])
  {
    hide Inv, RepOk, FreshPrivate, Inner, Outer;
    InvShape(h0, held0);
    var levels' := chain + levels[height..];
    forall i | 0 < i < |levels'| && levels'[i] in h && h[levels'[i]].rep.Out() != []
      ensures AllFull(h, i, Inner(true, h[levels'[i]].rep.Out()))
    {
      if i < height {
        JoinOuter(true, [], chain[i - 1]);
        assert Join(true, [], [chain[i - 1]]) == [chain[i - 1]];
      } else {
        assert levels'[i] == levels[i];
        InsertedFull(n0, h0, held0, n, h, levels, height, chain, edge, i);
      }
    }
  }

  lemma InsertedFull(n0: Id, h0: Heap, held0: multiset<Id>, n: Id, h: Heap, levels: seq<Id>, height: nat,
                     chain: seq<Id>, edge: Id, i: nat)
    requires Inv(h0, held0) && levels != [] && levels[|levels| - 1] in held0 && Shape(h)
    requires Levels(h0, n0, levels) && Packed(h0, levels) && height < |levels| && FullUpTo(h0, levels, height)
    requires Inserted(h0, n, h, levels, height, chain, edge) && height <= i < |levels| && 0 < i
    ensures h[levels[i]].rep.Out() != [] && AllFull(h, i, Inner(true, h[levels[i]].rep.Out()))
  {
    hide Inv, RepOk, FreshPrivate, Inner, Outer;
    InvShape(h0, held0);
    LevelsLeg(h0, held0, n0, levels);
    var stack := Rev(levels);
    var d := |levels| - 1 - height;
    var o := Ids(stack[..d + 1]);
    OwnedIsClosed(h0, held0, true, stack, d + 1);
    var x := levels[i];
    var es := h0[x].rep.Out();
    InnerIn(true, es);
    NodeOk(h0, x);
    NodeOk(h, x);
    var inner := Inner(true, h[x].rep.Out());
    if i == height {
      JoinOuter(true, es, Tip(chain, edge));
      assert inner == es;
    } else {
      assert es + [] == es && levels[i] != levels[height];
      assert inner == Inner(true, es);
    }
    forall e | e in inner ensures e in h && |Leaves(h, e)| == Pow6(i) {
      InnerIn(true, h[x].rep.Out());
      assert IsEdge(h0, i, e) && IsEdge(h, i, e);
      assert |Leaves(h0, e)| == Pow6(i) by {
        assert AllFull(h0, i, Inner(true, es));
        if e == Outer(true, es) {
          assert e == levels[i - 1];
        }
      }
      if i > height {
        LevelIsEdgeOnce(h0, held0, n0, levels, i);
      }
      NotAbove(h0, levels, height, i, e);
      InsertedAgree(h0, n, h, levels, height, chain, edge);
      LeavesFrameEdges(h0, h, o, e);
    }
  }

  /** The cell that changed its edges lies on the upper part of the leg. */
  lemma InsertedAgree(h0: Heap, n: Id, h: Heap, levels: seq<Id>, height: nat, chain: seq<Id>, edge: Id)
    requires height < |levels| && Inserted(h0, n, h, levels, height, chain, edge)
    ensures AgreeEdges(h0, h, Ids(Rev(levels)[..|levels| - height]))
  {
    hide Inserted, Rev;
    var upper := Rev(levels)[..|levels| - height];
    assert upper[|levels| - 1 - height] == levels[height];
    InsertedData(h0, n, h, levels, height, chain, edge);
    forall x | x in h0 && x in h && x !in Ids(upper)
      ensures h0[x].rep.Level() == h[x].rep.Level() && (h0[x].rep.Btree? ==> h0[x].rep.Out() == h[x].rep.Out())
    {
      if h0[x].rep.Btree? {
        InsertedAt(h0, n, h, levels, height, chain, edge, x);
      }
    }
  }

  lemma InsertedData(h0: Heap, n: Id, h: Heap, levels: seq<Id>, height: nat, chain: seq<Id>, edge: Id)
    requires height < |levels| && Inserted(h0, n, h, levels, height, chain, edge)
    ensures forall x :: x in h0 && !h0[x].rep.Btree? ==> x in h && h[x] == h0[x]
  {
  }

  /** An edge of level `i` lies on the leg from `levels[height]` up only if it is `levels[i - 1]`. */
  lemma NotAbove(h0: Heap, levels: seq<Id>, height: nat, i: nat, e: Id)
    requires forall j :: height <= j < |levels| ==>
      levels[j] in h0 && h0[levels[j]].rep.Btree? && h0[levels[j]].rep.height == j
    requires height <= i < |levels| && 0 < i && IsEdge(h0, i, e) && (i > height ==> e != levels[i - 1])
    ensures e !in Ids(Rev(levels)[..|levels| - height])
  {
    hide Rev;
    var stack := Rev(levels);
    var n := |levels|;
    forall j | 0 <= j < n - height ensures stack[j] != e {
      assert stack[j] == levels[n - 1 - j];
    }
  }

  lemma LevelIsEdgeOnce(h0: Heap, held0: multiset<Id>, n0: Id, levels: seq<Id>, i: nat)
    requires Inv(h0, held0) && Levels(h0, n0, levels) && levels[|levels| - 1] in held0 && 0 < i < |levels|
    ensures levels[i - 1] !in Inner(true, h0[levels[i]].rep.Out())
  {
    hide Inv, RepOk, Inner, Outer;
    var stack := Rev(levels);
    var n := |levels|;
    LevelsLeg(h0, held0, n0, levels);
    OwnedIsEdgeOnce(h0, held0, true, stack, n, n - i);
    assert stack[n - i] == levels[i - 1] && stack[n - i - 1] == levels[i];
  }

  lemma InsertedAt(h0: Heap, n: Id, h: Heap, levels: seq<Id>, height: nat, chain: seq<Id>, edge: Id, x: Id)
    requires height < |levels| && Inserted(h0, n, h, levels, height, chain, edge)
    requires x in h0 && h0[x].rep.Btree?
    ensures x in h && NodeWithOut(h[x].rep, h0[x].rep.height,
                      if x == levels[height] then h0[x].rep.Out() + [Tip(chain, edge)] else h0[x].rep.Out())
  {
    assert h0[x].rep.Out() + [] == h0[x].rep.Out();
    assert h0[x].rep.Btree?;
  }

  /** The insertion ended in place: the tree under construction has grown by `edge`. */
  lemma InsertedBuilt(s: Site, c: Edit, rest: multiset<Id>, levels: seq<Id>, done: seq<Id>, edge: Id, height: nat,
                      chain: seq<Id>, h: Heap, held: multiset<Id>)
    requires Building(s, c.h0, c.held0, rest, levels, done) && done != [] && edge in c.h0
    requires c == Insertion(c.h0, c.n0, c.held0, rest, levels, edge) && c.n0 >= s.n0
    requires height < |levels| && FullUpTo(c.h0, levels, height)
    requires Inserted(c.h0, c.n0, h, levels, height, chain, edge)
    requires Finished(c, h, held, levels[|levels| - 1])
    ensures Building(s, h, held, rest - multiset{edge}, chain + levels[height..], done + [edge])
  {
    hide Inv, RepOk, Packed, FreshPrivate, AllSettled, PrivateLeg, Inserted, Rev;
    InvShape(h, held);
    var levels' := chain + levels[height..];
    InsertedSize(c.h0, c.n0, h, levels, height, chain, edge);
    InsertedLevels(s.n0, c.h0, c.n0, h, levels, height, chain, edge);
    InsertedPacked(s.n0, c.h0, c.held0, c.n0, h, levels, height, chain, edge);
    InsertedKept(s, c.h0, c.n0, levels, h, held, c);
    assert c.stack[0] == levels[|levels| - 1] == levels'[|levels'| - 1];
  }

  lemma InsertedSize(h0: Heap, n: Id, h: Heap, levels: seq<Id>, height: nat, chain: seq<Id>, edge: Id)
    requires height < |levels| && Inserted(h0, n, h, levels, height, chain, edge)
    requires levels[|levels| - 1] in h0 && h0[levels[|levels| - 1]].rep.Btree?
    ensures |chain| == height && levels[|levels| - 1] in h
    ensures |h[levels[|levels| - 1]].rep.Out()| >= |h0[levels[|levels| - 1]].rep.Out()|
  {
    InsertedAt(h0, n, h, levels, height, chain, edge, levels[|levels| - 1]);
  }

  lemma InsertedKept(s: Site, h0: Heap, n: Id, levels: seq<Id>, h: Heap, held: multiset<Id>, c: Edit)
    requires Kept(s.hb, s.n0, {}, h0) && Levels(h0, s.n0, levels) && n >= s.n0
    requires c.h0 == h0 && c.n0 == n && c.stack == Rev(levels) && c.s == |levels| && Kept(h0, n, Ids(c.stack[..c.s]), h)
    ensures Kept(s.hb, s.n0, {}, h)
  {
    hide FreshPrivate, Rev;
    forall x | x in h && x < s.n0 ensures x in s.hb && Same(s.hb[x], h[x]) {
      forall i | 0 <= i < c.s ensures c.stack[i] != x {
        assert c.stack[i] == levels[|levels| - 1 - i];
      }
      assert x !in Ids(c.stack[..c.s]);
    }
  }

  /** Every level was full: a new root over the old tree and the popped chain. */
  lemma ToppedBuilt(s: Site, c: Edit, rest: multiset<Id>, levels: seq<Id>, done: seq<Id>, edge: Id, chain: seq<Id>,
                    h: Heap, held: multiset<Id>, p: Id, h': Heap, held': multiset<Id>)
    requires Building(s, c.h0, c.held0, rest, levels, done) && done != [] && edge in c.h0
    requires c == Insertion(c.h0, c.n0, c.held0, rest, levels, edge) && c.n0 >= s.n0
    requires |chain| == |levels| < MAX_DEPTH && FullUpTo(c.h0, levels, |levels|)
    requires Chain(c.h0, c.n0, h, chain, edge) && State(c, h, held, 0, Popped, chain[|chain| - 1])
    requires Inv(h', held') && p !in h && p >= c.n0 && p in h' && h' == h[p := h'[p]] && h'[p].rc == 1
    requires
      var top, tip := levels[|levels| - 1], chain[|chain| - 1];
      top in h && tip in h && h[top].rep.Btree? && h[tip].rep.Btree? &&
      NodeWith(h'[p].rep, |levels|, h[top].rep.length + h[tip].rep.length, [top, tip]) &&
      held' == held - multiset{top, tip} + multiset{p}
    ensures Building(s, h', held', rest - multiset{edge}, chain + [p], done + [edge])
  {
    hide Inv, RepOk, Packed, FreshPrivate, AllSettled, PrivateLeg, Rev, Chain, Kept, Extends;
    var top, tip := levels[|levels| - 1], chain[|chain| - 1];
    InvShape(h, held);
    InvShape(h', held');
    InvShape(c.h0, c.held0);
    assert c.stack[0] == top;
    ToppedLeaves(c, h, held, top, tip, p, h');
    ToppedSettled(c, h, held, top, tip, p, h');
    ToppedLevels(s.n0, c.h0, c.n0, levels, chain, edge, h, p, h');
    ToppedPacked(c.h0, c.n0, levels, chain, edge, h, p, h');
    ToppedKept(s, c.h0, c.n0, h, chain, edge, p, h');
    ToppedHeld(c.rest, top, tip, p);
  }

  lemma ToppedHeld(rest: multiset<Id>, top: Id, tip: Id, p: Id)
    ensures rest + multiset{top} + multiset{tip} - multiset{top, tip} + multiset{p} == rest + multiset{p}
  {
  }

  lemma ToppedLeaves(c: Edit, h: Heap, held: multiset<Id>, top: Id, tip: Id, p: Id, h': Heap)
    requires State(c, h, held, 0, Popped, tip) && c.stack[0] == top && Shape(h) && Shape(h') && c.back
    requires p !in h && p in h' && h' == h[p := h'[p]] && h'[p].rep.Btree? && h'[p].rep.Out() == [top, tip]
    ensures Leaves(h', p) == Leaves(c.h0, top) + c.added
  {
    hide Inv, RepOk, PrivateLeg, AllSettled;
    CleanLeaves(c, h, held, [tip], 0);
    CleanLeg(c, h, held, [tip]);
    NodeOk(h', p);
    assert top in h'[p].rep.Out() && tip in h'[p].rep.Out();
    LeavesFrame(h, h', {}, top);
    LeavesFrame(h, h', {}, tip);
    var k := h'[p].rep.height;
    LeavesOfOne(h', k, top);
    LeavesOfOne(h', k, tip);
    LeavesOfAppend(h', k, [top], [tip]);
    assert [top] + [tip] == [top, tip];
  }

  lemma ToppedSettled(c: Edit, h: Heap, held: multiset<Id>, top: Id, tip: Id, p: Id, h': Heap)
    requires State(c, h, held, 0, Popped, tip) && c.stack[0] == top && Shape(h) && Shape(h')
    requires top in h && tip in h && h[top].rep.Btree? && h[tip].rep.Btree?
    requires p !in h && p in h' && h' == h[p := h'[p]] && h'[p].rep.Btree?
    requires NodeWith(h'[p].rep, h'[p].rep.height, h[top].rep.length + h[tip].rep.length, [top, tip])
    ensures AllSettled(h', {})
  {
    hide Inv, RepOk, PrivateLeg, Settled, Clean;
    CleanSettled(c, h, held, [tip]);
    forall x | x in h' ensures Settled(h', x) {
      if x == p {
        assert SumLen(h', [top, tip]) == h'[top].rep.Len() + SumLen(h', [top, tip][1..]);
        assert [top, tip][1..] == [tip];
        assert SumLen(h', [tip]) == h'[tip].rep.Len() + SumLen(h', [tip][1..]);
        assert [tip][1..] == [];
        JustSettled(h', p);
      } else {
        SettledKept(h, h', x);
      }
    }
  }

  lemma ToppedLevels(n0: Id, h0: Heap, n: Id, levels: seq<Id>, chain: seq<Id>, edge: Id, h: Heap, p: Id, h': Heap)
    requires Levels(h0, n0, levels) && |chain| == |levels| < MAX_DEPTH && n >= n0
    requires Chain(h0, n, h, chain, edge)
    requires p !in h && p >= n && p in h' && h' == h[p := h'[p]] && h'[p].rc == 1
    requires h'[p].rep.Btree? && h'[p].rep.height == |levels|
    requires h'[p].rep.Out() == [levels[|levels| - 1], chain[|chain| - 1]]
    ensures Levels(h', n0, chain + [p])
  {
    var levels' := chain + [p];
    forall x | x in h' && x >= n0 && h'[x].rep.Btree?
      ensures h'[x].rc == 1 && h'[x].rep.height < |levels'|
      ensures h'[x].rep.height > 0 ==> forall e :: e in h'[x].rep.Out() ==> e >= n0
    {
      if x in h && x !in h0 {
        assert x in Ids(chain);
        var j :| 0 <= j < |chain| && chain[j] == x;
        assert j > 0 ==> h[chain[j]].rep.Out() == [chain[j - 1]];
      }
    }
    forall i | 0 < i < |levels'|
      ensures h'[levels'[i]].rep.Out() != [] && Outer(true, h'[levels'[i]].rep.Out()) == levels'[i - 1]
    {
      if i < |chain| {
        assert levels'[i] == chain[i] && h[chain[i]].rep.Out() == [chain[i - 1]];
      }
    }
  }

  lemma JoinTrue(es: seq<Id>, e: Id)
    ensures Join(true, es, [e]) == es + [e]
    ensures es == [] ==> es + [e] == [e]
    ensures |es| == 1 ==> es + [e] == [es[0], e]
  {
  }

  lemma ToppedPacked(h0: Heap, n: Id, levels: seq<Id>, chain: seq<Id>, edge: Id, h: Heap, p: Id, h': Heap)
    requires Shape(h0) && Shape(h) && Shape(h') && levels != [] && |chain| == |levels|
    requires FullUpTo(h0, levels, |levels|) && Chain(h0, n, h, chain, edge)
    requires p !in h && p in h' && h' == h[p := h'[p]]
    requires h'[p].rep.Out() == [levels[|levels| - 1], chain[|chain| - 1]]
    ensures Packed(h', chain + [p])
  {
    hide RepOk, Inner, Join;
    var levels' := chain + [p];
    var top := levels[|levels| - 1];
    forall i | 0 < i < |levels'| && levels'[i] in h' && h'[levels'[i]].rep.Out() != []
      ensures AllFull(h', i, Inner(true, h'[levels'[i]].rep.Out()))
    {
      if i < |chain| {
        assert levels'[i] == chain[i] && h[chain[i]].rep.Out() == [chain[i - 1]];
        JoinOuter(true, [], chain[i - 1]);
        JoinTrue([], chain[i - 1]);
      } else {
        JoinOuter(true, [top], chain[|chain| - 1]);
        JoinTrue([top], chain[|chain| - 1]);
        assert |Leaves(h0, top)| == Pow6(|levels| - 1 + 1);
        LeavesFrame(h0, h', {}, top);
      }
    }
  }

  lemma ToppedKept(s: Site, h0: Heap, n: Id, h: Heap, chain: seq<Id>, edge: Id, p: Id, h': Heap)
    requires Kept(s.hb, s.n0, {}, h0) && n >= s.n0 && Chain(h0, n, h, chain, edge)
    requires p !in h && p >= n && p in h' && h' == h[p := h'[p]]
    ensures Kept(s.hb, s.n0, {}, h')
  {
    forall x | x in h' && x < s.n0 ensures x in s.hb && Same(s.hb[x], h'[x]) {
      assert x in h0.Keys + Ids(chain);
      assert x !in Ids(chain);
    }
  }

  // --- Inserting one edge -----------------------------------------------------------------

  /** `levels[height]` has just been given the tip of the chain as its last edge. */
  ghost predicate AttachedAt(h0: Heap, n: Id, levels: seq<Id>, height: nat, chain: seq<Id>, edge: Id, h: Heap)
    requires height < |levels|
  {
    var x := levels[height];
    && x in h0 && h0[x].rep.Btree? && x in h && |chain| == height && Chain(h0, n, h[x := h0[x]], chain, edge)
    && h[x].rc == h0[x].rc && NodeWithOut(h[x].rep, h0[x].rep.height, h0[x].rep.Out() + [Tip(chain, edge)])
  }

  /** Hangs the chain of popped nodes behind `levels[height]`, or pops that level too if it is full. */
  method InsertAt(a: Arena, levels: seq<Id>, edge: Id, e: Id, delta: nat,
                  height: nat, ghost chain: seq<Id>, ghost c: Edit, ghost n0: Id)
    returns (r: Id, action: Action)
    requires a.Ok() && Shape(c.h0) && Levels(c.h0, n0, levels) && Packed(c.h0, levels) && a.next >= c.n0
    requires |chain| == height < |levels| && e == Tip(chain, edge) && delta == c.delta
    requires c.stack == Rev(levels) && c.s == |levels| && c.back
    requires CanAttach(c, a.cells, a.held, |levels| - 1 - height, [e])
    requires Chain(c.h0, c.n0, a.cells, chain, edge) && FullUpTo(c.h0, levels, height)
    modifies a
    ensures a.Ok() && a.next >= old(a.next) && action != Copied
    ensures State(c, a.cells, a.held, |levels| - 1 - height, action, r)
    ensures action == Popped ==> Chain(c.h0, c.n0, a.cells, chain + [r], edge) && FullUpTo(c.h0, levels, height + 1)
    ensures action == InPlace ==> r == levels[height] && AttachedAt(c.h0, c.n0, levels, height, chain, edge, a.cells)
  {
    hide Inv, RepOk, Packed, FreshPrivate, AllSettled, PrivateLeg, Rev, State, FullUpTo, CanAttach, Chain;
    ghost var h := a.cells;
    var x := levels[height];
    assert c.stack[|levels| - 1 - height] == x;
    ChainSame(c.h0, c.n0, h, chain, edge, x);
    r, action := AttachAt(a, c, |levels| - 1 - height, x, true, true, e, delta);
    if action == Popped {
      LevelFull(c.h0, n0, levels, height);
      ChainGrows(c.h0, c.n0, h, chain, edge, r, a.cells);
    } else {
      assert a.cells[x := c.h0[x]] == h;
    }
  }

  lemma ChainSame(h0: Heap, n: Id, h: Heap, chain: seq<Id>, edge: Id, x: Id)
    requires Chain(h0, n, h, chain, edge) && x in h0
    ensures x in h && h[x] == h0[x]
  {
  }

  /** The insertion of one edge, level by level. */
  method InsertUp(a: Arena, levels: seq<Id>,
                  edge: Id, ghost s: Site, ghost rest: multiset<Id>, ghost done: seq<Id>, ghost c: Edit)
    returns (r: seq<Id>, aborted: bool)
    requires a.Ok() && Building(s, a.cells, a.held, rest, levels, done) && done != [] && a.next >= s.n0
    requires edge in rest && edge in a.cells && !a.cells[edge].rep.Btree?
    requires c == Insertion(a.cells, a.next, a.held, rest, levels, edge)
    requires CanAttach(c, a.cells, a.held, |levels| - 1, [edge])
    modifies a
    ensures aborted ==> |done| >= Pow6(MAX_DEPTH)
    ensures !aborted ==> a.Ok() && a.next >= old(a.next)
    ensures !aborted ==> Building(s, a.cells, a.held, rest - multiset{edge}, r, done + [edge])
    ensures !aborted ==> old(a.cells).Keys <= a.cells.Keys
  {
    hide Inv, RepOk, Packed, FreshPrivate, AllSettled, PrivateLeg, Rev, Kept, Extends, State, Finished, CanAttach;
    hide FullUpTo, Inserted, Leaves, Chain, AttachedAt;
    InvShape(a.cells, a.held);
    ghost var h0 := a.cells;
    var delta := a.cells[edge].rep.Len();
    var height := 0;
    var chain: seq<Id> := [];
    assert FullUpTo(h0, levels, 0) && Chain(h0, c.n0, h0, [], edge) by { NothingPopped(h0, c.n0, levels, edge); }
    var tip, action := InsertAt(a, levels, edge, edge, delta, 0, chain, c, s.n0);
    while action == Popped
      invariant 0 <= height < |levels| && |chain| == height && action != Copied
      invariant a.Ok() && a.next >= c.n0
      invariant State(c, a.cells, a.held, |levels| - 1 - height, action, tip)
      invariant action == Popped ==> Chain(h0, c.n0, a.cells, chain + [tip], edge) && FullUpTo(h0, levels, height + 1)
      invariant action == InPlace ==>
        && tip == levels[height] && AttachedAt(h0, c.n0, levels, height, chain, edge, a.cells)
        && FullUpTo(h0, levels, height)
      decreases |levels| - height, if action == Popped then 1 else 0
    {
      chain := chain + [tip];
      if height + 1 == |levels| {
        if height + 1 >= MAX_DEPTH {
          r, aborted := levels, true;
          AbortedFull(s, h0, c.held0, rest, levels, done);
          return;
        }
        r := InsertTop(a, levels, chain, edge, s, rest, done, c);
        aborted := false;
        return;
      }
      PoppedCanAttach(c, a.cells, a.held, |levels| - 1 - height, tip);
      height := height + 1;
      tip, action := InsertAt(a, levels, edge, tip, delta, height, chain, c, s.n0);
    }
    r := InsertDone(a, levels, edge, delta, height, chain, s, rest, done, c);
    aborted := false;
  }

  lemma NothingPopped(h0: Heap, n: Id, levels: seq<Id>, edge: Id)
    requires Shape(h0)
    ensures FullUpTo(h0, levels, 0) && Chain(h0, n, h0, [], edge)
  {
  }

  lemma AbortedFull(s: Site, h0: Heap, held0: multiset<Id>, rest: multiset<Id>, levels: seq<Id>, done: seq<Id>)
    requires Inv(h0, held0) && Building(s, h0, held0, rest, levels, done) && |levels| >= MAX_DEPTH
    requires FullUpTo(h0, levels, |levels|)
    ensures |done| >= Pow6(MAX_DEPTH)
  {
    hide Inv, RepOk, Packed, FreshPrivate;
    InvShape(h0, held0);
    assert |Leaves(h0, levels[|levels| - 1])| == Pow6(|levels| - 1 + 1);
  }

  method InsertTop(a: Arena, levels: seq<Id>, chain: seq<Id>,
                   edge: Id, ghost s: Site, ghost rest: multiset<Id>, ghost done: seq<Id>, ghost c: Edit)
    returns (r: seq<Id>)
    requires a.Ok() && Building(s, c.h0, c.held0, rest, levels, done) && done != [] && edge in c.h0
    requires c == Insertion(c.h0, c.n0, c.held0, rest, levels, edge) && c.n0 >= s.n0 && a.next >= c.n0
    requires 1 <= |chain| == |levels| < MAX_DEPTH && FullUpTo(c.h0, levels, |levels|)
    requires Chain(c.h0, c.n0, a.cells, chain, edge) && State(c, a.cells, a.held, 0, Popped, chain[|chain| - 1])
    modifies a
    ensures a.Ok() && a.next >= old(a.next)
    ensures Building(s, a.cells, a.held, rest - multiset{edge}, r, done + [edge])
    ensures c.h0.Keys <= a.cells.Keys
  {
    hide Inv, RepOk, Packed, FreshPrivate, AllSettled, PrivateLeg, Rev, State, FullUpTo, Chain, Building;
    ghost var h := a.cells;
    ghost var held := a.held;
    var top, tip := levels[|levels| - 1], chain[|chain| - 1];
    TopFacts(s, c, rest, levels, done, chain, edge, h, held);
    var p := NewPair(a, top, tip);
    r := chain + [p];
    ToppedBuilt(s, c, rest, levels, done, edge, chain, h, held, p, a.cells, a.held);
  }

  lemma TopFacts(s: Site, c: Edit, rest: multiset<Id>, levels: seq<Id>, done: seq<Id>, chain: seq<Id>, edge: Id,
                 h: Heap, held: multiset<Id>)
    requires Building(s, c.h0, c.held0, rest, levels, done) && edge in c.h0
    requires c == Insertion(c.h0, c.n0, c.held0, rest, levels, edge) && |chain| == |levels|
    requires Chain(c.h0, c.n0, h, chain, edge) && State(c, h, held, 0, Popped, chain[|chain| - 1])
    ensures
      var top, tip := levels[|levels| - 1], chain[|chain| - 1];
      multiset{top, tip} <= held && top in h && tip in h && h[top].rep.Btree? && h[tip].rep.Btree? &&
      h[top].rep.height == |levels| - 1 && h[tip].rep.height == |levels| - 1
    ensures c.h0.Keys <= h.Keys
  {
    hide Inv, RepOk, Packed, FreshPrivate, AllSettled, PrivateLeg, Rev;
    assert c.stack[0] == levels[|levels| - 1];
  }

  method InsertDone(a: Arena, levels: seq<Id>, edge: Id, delta: nat, height: nat,
                    chain: seq<Id>, ghost s: Site, ghost rest: multiset<Id>, ghost done: seq<Id>, ghost c: Edit)
    returns (r: seq<Id>)
    requires a.Ok() && Building(s, c.h0, c.held0, rest, levels, done) && done != [] && edge in c.h0
    requires c == Insertion(c.h0, c.n0, c.held0, rest, levels, edge) && c.n0 >= s.n0 && a.next >= c.n0
    requires |chain| == height < |levels| && FullUpTo(c.h0, levels, height) && delta == c.delta
    requires AttachedAt(c.h0, c.n0, levels, height, chain, edge, a.cells)
    requires State(c, a.cells, a.held, |levels| - 1 - height, InPlace, levels[height])
    modifies a
    ensures a.Ok() && a.next >= old(a.next)
    ensures Building(s, a.cells, a.held, rest - multiset{edge}, r, done + [edge])
    ensures c.h0.Keys <= a.cells.Keys
  {
    hide Inv, RepOk, Packed, FreshPrivate, AllSettled, PrivateLeg, Rev, State, FullUpTo, Chain, Building, Finished;
    hide LengthOnly;
    ghost var h := a.cells;
    var stack := Rev(levels);
    assert stack[|levels| - 1 - height] == levels[height] && stack[0] == levels[|levels| - 1];
    AddLengths(a, c, stack, |levels| - 1 - height, delta);
    var x := levels[height];
    ghost var hp := h[x := c.h0[x]];
    assert h == hp[x := h[x]];
    InsertedBy(c.h0, c.n0, hp, levels, height, chain, edge, h, a.cells);
    InsertedBuilt(s, c, rest, levels, done, edge, height, chain, a.cells, a.held);
    r := chain + levels[height..];
  }

  /**
  Inserts `edge` behind everything built so far. The process is aborted exactly if the tree
  already holds as many data edges as a full tree of the maximum height.
  */
  method AddNext(a: Arena, levels: seq<Id>, edge: Id, ghost s: Site, ghost rest: multiset<Id>, ghost done: seq<Id>)
    returns (r: seq<Id>, aborted: bool)
    requires a.Ok() && Building(s, a.cells, a.held, rest, levels, done) && done != [] && a.next >= s.n0
    requires edge in rest && edge in a.cells && !a.cells[edge].rep.Btree?
    modifies a
    ensures aborted <==> |done| >= Pow6(MAX_DEPTH)
    ensures !aborted ==> a.Ok() && a.next >= old(a.next)
    ensures !aborted ==> Building(s, a.cells, a.held, rest - multiset{edge}, r, done + [edge])
    ensures !aborted ==> old(a.cells).Keys <= a.cells.Keys
  {
    hide Inv, RepOk, Packed, FreshPrivate, AllSettled, PrivateLeg, Rev, Chain, Kept, Extends, State, Finished,
      CanAttach;
    hide FullUpTo, Inserted;
    ghost var h0 := a.cells;
    InvShape(h0, a.held);
    ghost var c := Insertion(h0, a.next, a.held, rest, levels, edge);
    InsertionReady(s, h0, a.next, a.held, rest, levels, done, edge);
    r, aborted := InsertUp(a, levels, edge, s, rest, done, c);
    if !aborted {
      BuiltBound(s, a.cells, a.held, rest - multiset{edge}, r, done + [edge]);
    }
  }

  lemma BuiltBound(s: Site, h: Heap, held: multiset<Id>, rest: multiset<Id>, levels: seq<Id>, done: seq<Id>)
    requires Building(s, h, held, rest, levels, done)
    ensures |done| <= Pow6(|levels|) <= Pow6(MAX_DEPTH)
  {
    hide Inv, RepOk;
    InvShape(h, held);
    LeavesBound(h, levels[|levels| - 1]);
    Pow6Monotone(|levels|, MAX_DEPTH);
  }

  lemma {:induction false} Pow6Monotone(m: nat, n: nat)
    requires m <= n
    ensures Pow6(m) <= Pow6(n)
    decreases n - m
  {
    Pow6Positive(m);
    if m < n {
      Pow6Monotone(m + 1, n);
    }
  }

  // --- Re-inserting a whole tree --------------------------------------------------------

  /** Taking or giving up references elsewhere does not disturb the tree under construction. */
  ghost predicate Elsewhere(h: Heap, h': Heap) {
    forall x :: x in h' ==> x in h && Same(h[x], h'[x]) && (h[x].rep.Btree? && h[x].rc == 1 ==> h'[x].rc == 1)
  }

  lemma {:induction false} LevelsSurvive(h: Heap, n0: Id, levels: seq<Id>, h': Heap, i: nat)
    requires Shape(h') && Levels(h, n0, levels) && Elsewhere(h, h') && levels[|levels| - 1] in h' && i < |levels|
    ensures levels[i] in h'
    decreases |levels| - i
  {
    hide FreshPrivate, Outer;
    if i + 1 < |levels| {
      LevelsSurvive(h, n0, levels, h', i + 1);
      InnerIn(true, h[levels[i + 1]].rep.Out());
      EdgeIn(h', levels[i + 1], levels[i]);
    }
  }

  lemma BuildingElsewhere(s: Site, h: Heap, held: multiset<Id>, rest: multiset<Id>, levels: seq<Id>, done: seq<Id>,
                          h': Heap, held': multiset<Id>, rest': multiset<Id>)
    requires Building(s, h, held, rest, levels, done)
    requires Inv(h', held') && Elsewhere(h, h') && held' == rest' + multiset{levels[|levels| - 1]}
    ensures Building(s, h', held', rest', levels, done)
  {
    hide Inv, RepOk, Settled, Inner, Outer, Packed, FreshPrivate;
    InvShape(h, held);
    InvShape(h', held');
    forall i | 0 <= i < |levels| ensures levels[i] in h' {
      LevelsSurvive(h, s.n0, levels, h', i);
    }
    LeavesFrame(h, h', {}, levels[|levels| - 1]);
    ElsewhereFresh(h, s.n0, |levels|, h');
    ElsewherePacked(h, levels, h');
    forall x | x in h' && !(done == [] && x == levels[0]) ensures Settled(h', x) {
      SettledKept(h, h', x);
    }
  }

  lemma ElsewhereFresh(h: Heap, n0: Id, top: nat, h': Heap)
    requires FreshPrivate(h, n0, top) && Elsewhere(h, h')
    ensures FreshPrivate(h', n0, top)
  {
  }

  lemma ElsewherePacked(h: Heap, levels: seq<Id>, h': Heap)
    requires Shape(h) && Shape(h') && Packed(h, levels) && Elsewhere(h, h')
    ensures Packed(h', levels)
  {
    hide RepOk, Inner;
    forall i | 0 < i < |levels| && levels[i] in h' && h'[levels[i]].rep.Out() != []
      ensures AllFull(h', i, Inner(true, h'[levels[i]].rep.Out()))
    {
      var es := h'[levels[i]].rep.Out();
      assert AllFull(h, i, Inner(true, es));
      InnerIn(true, es);
      forall e | e in Inner(true, es) ensures e in h' && |Leaves(h', e)| == Pow6(i) {
        EdgeIn(h', levels[i], e);
        LeavesFrame(h, h', {}, e);
      }
    }
  }

  lemma EmptyLeafIsStart(s: Site, h: Heap, held: multiset<Id>, rest: multiset<Id>, levels: seq<Id>, done: seq<Id>)
    requires Building(s, h, held, rest, levels, done) && h[levels[0]].rep.Out() == []
    ensures done == []
  {
    hide Inv;
    assert AllSettled(h, {}) ==> Settled(h, levels[0]);
  }

  /** Inserts one data edge, whose reference is consumed. */
  method AddOne(a: Arena, levels: seq<Id>, edge: Id, ghost s: Site, ghost rest: multiset<Id>, ghost done: seq<Id>)
    returns (r: seq<Id>, aborted: bool)
    requires a.Ok() && Building(s, a.cells, a.held, rest, levels, done) && a.next >= s.n0
    requires edge in rest && edge in a.cells && !a.cells[edge].rep.Btree?
    modifies a
    ensures aborted <==> |done| >= Pow6(MAX_DEPTH)
    ensures !aborted ==> a.Ok() && a.next >= old(a.next)
    ensures !aborted ==> Building(s, a.cells, a.held, rest - multiset{edge}, r, done + [edge])
    ensures !aborted ==> old(a.cells).Keys <= a.cells.Keys
  {
    hide Inv, RepOk, Packed, FreshPrivate, Kept, Leaves;
    if a.cells[levels[0]].rep.Out() == [] {
      EmptyLeafIsStart(s, a.cells, a.held, rest, levels, done);
      AddFirst(a, levels, edge, s, rest);
      r, aborted := levels, false;
      Pow6Positive(MAX_DEPTH);
      assert done + [edge] == [edge];
    } else {
      r, aborted := AddNext(a, levels, edge, s, rest, done);
    }
  }

  /** Takes a reference on a data edge and inserts it. */
  method AddShared(a: Arena, levels: seq<Id>, edge: Id, ghost s: Site, ghost rest: multiset<Id>, ghost done: seq<Id>)
    returns (r: seq<Id>, aborted: bool)
    requires a.Ok() && Building(s, a.cells, a.held, rest, levels, done) && a.next >= s.n0
    requires edge in a.cells && !a.cells[edge].rep.Btree?
    modifies a
    ensures aborted <==> |done| >= Pow6(MAX_DEPTH)
    ensures !aborted ==> a.Ok() && a.next >= old(a.next)
    ensures !aborted ==> Building(s, a.cells, a.held, rest, r, done + [edge])
    ensures !aborted ==> old(a.cells).Keys <= a.cells.Keys
  {
    hide Inv, RepOk, Building;
    ghost var h := a.cells;
    ghost var held := a.held;
    BuildingHeld(s, h, held, rest, levels, done);
    Ref(a, edge);
    ghost var rest' := rest + multiset{edge};
    assert a.held == rest' + multiset{levels[|levels| - 1]};
    BuildingElsewhere(s, h, held, rest, levels, done, a.cells, a.held, rest');
    r, aborted := AddOne(a, levels, edge, s, rest', done);
    assert rest' - multiset{edge} == rest;
  }

  lemma BuildingHeld(s: Site, h: Heap, held: multiset<Id>, rest: multiset<Id>, levels: seq<Id>, done: seq<Id>)
    requires Building(s, h, held, rest, levels, done)
    ensures levels != [] && held == rest + multiset{levels[|levels| - 1]} && Shape(h) && Kept(s.hb, s.n0, {}, h)
    ensures forall x :: x in held ==> x in h
  {
  }

  /** The handles other than the tree under construction while `es[i..]` is still to be re-inserted. */
  ghost function Pending(rest: multiset<Id>, owned: bool, es: seq<Id>, i: nat): multiset<Id>
    requires i <= |es|
  {
    if owned then rest + multiset(es[i..]) else rest
  }

  /** Re-inserts the data edges below edge `es[i]` of a node of height `k`. */
  method ReinsertEdge(a: Arena, levels: seq<Id>, es: seq<Id>, i: nat, k: nat,
                      owned: bool, ghost s: Site, ghost rest: multiset<Id>, ghost done: seq<Id>)
    returns (r: seq<Id>, aborted: bool)
    requires a.Ok() && i < |es| && Building(s, a.cells, a.held, Pending(rest, owned, es, i), levels, done)
    requires a.next >= s.n0 && SiteOk(s) && AllEdges(s.hb, k, es)
    requires es[i] < s.n0 && es[i] in a.cells
    modifies a
    ensures aborted <==> |done| + |Leaves(s.hb, es[i])| > Pow6(MAX_DEPTH)
    ensures !aborted ==> a.Ok() && a.next >= old(a.next)
    ensures !aborted ==> Building(s, a.cells, a.held, Pending(rest, owned, es, i + 1), r, done + Leaves(s.hb, es[i]))
    ensures !aborted && !owned ==> old(a.cells).Keys <= a.cells.Keys
    decreases k, 0
  {
    hide Inv, RepOk, Building;
    BuildingHeld(s, a.cells, a.held, Pending(rest, owned, es, i), levels, done);
    assert es[i] in es && IsEdge(s.hb, k, es[i]);
    if owned {
      BagHead(es, i);
    }
    ghost var p := Pending(rest, owned, es, i);
    if k == 0 {
      assert Leaves(s.hb, es[i]) == [es[i]];
      if owned {
        r, aborted := AddOne(a, levels, es[i], s, p, done);
        assert p - multiset{es[i]} == Pending(rest, owned, es, i + 1);
      } else {
        r, aborted := AddShared(a, levels, es[i], s, p, done);
      }
    } else {
      r, aborted := RebuildInto(a, levels, es[i], owned, s, p, done);
      assert owned ==> p - multiset{es[i]} == Pending(rest, owned, es, i + 1);
    }
  }

  /**
  Re-inserts every data edge below `tree`. With `consume` the reference on `tree` is given up:
  a private node is taken apart, a shared one is only read.
  */
  method RebuildInto(a: Arena, levels: seq<Id>, tree: Id,
                     consume: bool, ghost s: Site, ghost rest: multiset<Id>, ghost done: seq<Id>)
    returns (r: seq<Id>, aborted: bool)
    requires a.Ok() && Building(s, a.cells, a.held, rest, levels, done) && a.next >= s.n0 && SiteOk(s)
    requires tree < s.n0 && tree in a.cells && a.cells[tree].rep.Btree? && (consume ==> tree in rest)
    modifies a
    ensures tree in s.hb
    ensures aborted <==> |done| + |Leaves(s.hb, tree)| > Pow6(MAX_DEPTH)
    ensures !aborted ==> a.Ok() && a.next >= old(a.next)
    ensures !aborted ==>
      Building(s, a.cells, a.held, if consume then rest - multiset{tree} else rest, r, done + Leaves(s.hb, tree))
    ensures !aborted && !consume ==> old(a.cells).Keys <= a.cells.Keys
    decreases a.cells[tree].rep.height, 2
  {
    hide Inv, RepOk, Building;
    BuildingHeld(s, a.cells, a.held, rest, levels, done);
    NodeOk(s.hb, tree);
    var es := a.cells[tree].rep.Out();
    var k := a.cells[tree].rep.height;
    var owned := consume && a.cells[tree].rc == 1;
    ghost var rest1 := if owned then rest - multiset{tree} else rest;
    OldEdges(s, a.cells, tree);
    if owned {
      TakeApart(a, levels, tree, s, rest, done);
    }
    r, aborted := ReinsertAll(a, levels, es, k, owned, s, rest1, done);
    if !aborted && consume && !owned {
      GiveUp(a, r, tree, s, rest, done + Leaves(s.hb, tree));
    }
  }

  /** Frees a private node; its edges are to be re-inserted with their references. */
  method TakeApart(a: Arena, levels: seq<Id>, tree: Id, ghost s: Site, ghost rest: multiset<Id>, ghost done: seq<Id>)
    requires a.Ok() && Building(s, a.cells, a.held, rest, levels, done)
    requires tree in rest && tree in a.cells && a.cells[tree].rc == 1 && a.cells[tree].rep.Btree?
    modifies a
    ensures a.Ok() && a.next == old(a.next)
    ensures Building(s, a.cells, a.held, rest - multiset{tree} + multiset(old(a.cells)[tree].rep.Out()), levels, done)
    ensures a.cells == old(a.cells) - {tree}
  {
    hide Inv, RepOk, Building;
    ghost var h := a.cells;
    ghost var held := a.held;
    BuildingHeld(s, h, held, rest, levels, done);
    Delete(a, tree);
    ghost var out := multiset(h[tree].rep.Out());
    TakeApartHeld(rest, levels[|levels| - 1], tree, out);
    BuildingElsewhere(s, h, held, rest, levels, done, a.cells, a.held, rest - multiset{tree} + out);
  }

  lemma TakeApartHeld(rest: multiset<Id>, top: Id, tree: Id, out: multiset<Id>)
    requires tree in rest
    ensures rest + multiset{top} - multiset{tree} + out == rest - multiset{tree} + out + multiset{top}
  {
  }

  /** Gives up the reference on a tree whose data edges have been re-inserted. */
  method GiveUp(a: Arena, levels: seq<Id>, tree: Id, ghost s: Site, ghost rest: multiset<Id>, ghost done: seq<Id>)
    requires a.Ok() && Building(s, a.cells, a.held, rest, levels, done) && tree in rest
    modifies a
    ensures a.Ok() && a.next == old(a.next)
    ensures Building(s, a.cells, a.held, rest - multiset{tree}, levels, done)
  {
    hide Inv, RepOk, Building, OnlyUnreachableGone;
    ghost var h := a.cells;
    ghost var held := a.held;
    BuildingHeld(s, h, held, rest, levels, done);
    Unref(a, tree);
    CountsPositive(a.cells, a.held);
    TakeApartHeld(rest, levels[|levels| - 1], tree, multiset{});
    BuildingElsewhere(s, h, held, rest, levels, done, a.cells, a.held, rest - multiset{tree});
  }

  method ReinsertAll(a: Arena, levels: seq<Id>, es: seq<Id>, k: nat,
                     owned: bool, ghost s: Site, ghost rest: multiset<Id>, ghost done: seq<Id>)
    returns (r: seq<Id>, aborted: bool)
    requires a.Ok() && Building(s, a.cells, a.held, Pending(rest, owned, es, 0), levels, done)
    requires a.next >= s.n0 && SiteOk(s) && AllEdges(s.hb, k, es)
    requires !owned ==> forall e :: e in es ==> e in a.cells
    modifies a
    ensures aborted <==> |done| + |LeavesOf(s.hb, k, es)| > Pow6(MAX_DEPTH)
    ensures !aborted ==> a.Ok() && a.next >= old(a.next)
    ensures !aborted ==> Building(s, a.cells, a.held, rest, r, done + LeavesOf(s.hb, k, es))
    ensures !aborted && !owned ==> old(a.cells).Keys <= a.cells.Keys
    decreases k, 1
  {
    hide Inv, RepOk, Building, Leaves, Pending, Kept, LeavesOf;
    LeavesOfNone(s.hb, k);
    r, aborted := levels, false;
    var i := 0;
    ghost var sofar := done;
    assert es[..0] == [];
    assert done + LeavesOf(s.hb, k, []) == done;
    while i < |es|
      invariant i <= |es| && a.Ok() && a.next >= old(a.next)
      invariant AllEdges(s.hb, k, es[..i]) && sofar == done + LeavesOf(s.hb, k, es[..i])
      invariant Building(s, a.cells, a.held, Pending(rest, owned, es, i), r, sofar)
      invariant !owned ==> old(a.cells).Keys <= a.cells.Keys
    {
      BuildingHeld(s, a.cells, a.held, Pending(rest, owned, es, i), r, sofar);
      assert es[i] in es && IsEdge(s.hb, k, es[i]);
      PendingHead(rest, owned, es, i);
      LeavesOfNext(s.hb, k, es, i);
      r, aborted := ReinsertEdge(a, r, es, i, k, owned, s, rest, sofar);
      if aborted {
        LeavesOfPrefix(s.hb, k, es, i + 1);
        return;
      }
      sofar := sofar + Leaves(s.hb, es[i]);
      i := i + 1;
    }
    assert es[..i] == es;
    PendingEnd(rest, owned, es);
    BuiltBound(s, a.cells, a.held, rest, r, sofar);
  }

  lemma LeavesOfNone(h: Heap, k: nat)
    requires Shape(h)
    ensures AllEdges(h, k, []) && LeavesOf(h, k, []) == []
  {
  }

  lemma PendingHead(rest: multiset<Id>, owned: bool, es: seq<Id>, i: nat)
    requires i < |es|
    ensures owned ==> es[i] in Pending(rest, owned, es, i)
  {
    BagHead(es, i);
  }

  lemma PendingEnd(rest: multiset<Id>, owned: bool, es: seq<Id>)
    ensures Pending(rest, owned, es, |es|) == rest
  {
    assert es[|es|..] == [];
  }

  lemma LeavesOfNext(h: Heap, k: nat, es: seq<Id>, i: nat)
    requires Shape(h) && AllEdges(h, k, es) && i < |es|
    ensures AllEdges(h, k, es[..i]) && AllEdges(h, k, es[..i + 1]) && IsEdge(h, k, es[i])
    ensures LeavesOf(h, k, es[..i + 1]) == LeavesOf(h, k, es[..i]) + Leaves(h, es[i])
  {
    hide RepOk;
    assert es[i] in es;
    assert es[..i + 1] == es[..i] + [es[i]];
    LeavesOfOne(h, k, es[i]);
    LeavesOfAppend(h, k, es[..i], [es[i]]);
  }

  lemma LeavesOfPrefix(h: Heap, k: nat, es: seq<Id>, i: nat)
    requires Shape(h) && AllEdges(h, k, es) && i <= |es|
    ensures AllEdges(h, k, es[..i]) && |LeavesOf(h, k, es[..i])| <= |LeavesOf(h, k, es)|
  {
    hide RepOk;
    assert es == es[..i] + es[i..];
    LeavesOfAppend(h, k, es[..i], es[i..]);
  }

  lemma OldEdges(s: Site, h: Heap, x: Id)
    requires Shape(h) && Kept(s.hb, s.n0, {}, h) && SiteOk(s) && x in h && x < s.n0 && h[x].rep.Btree?
    ensures forall e :: e in h[x].rep.Out() ==> e in h && e in s.hb && e < s.n0
  {
    hide RepOk;
    forall e | e in h[x].rep.Out() ensures e in h && e in s.hb {
      EdgeIn(h, x, e);
      EdgeIn(s.hb, x, e);
    }
  }

  // --- The rebuild -----------------------------------------------------------------------

  /** The whole tree is made of nodes with count one. */
  ghost predicate PrivateTree(h: Heap, n0: Id, x: Id) {
    x in h && x >= n0 && h[x].rep.Btree? && FreshPrivate(h, n0, MAX_DEPTH)
  }

  /** Every node of the tree has as many edges as fit. */
  ghost predicate Brimful(h: Heap, x: Id)
    requires Shape(h)
    decreases if x in h then h[x].rep.Level() else 0
  {
    && x in h && h[x].rep.Btree? && |h[x].rep.Out()| == MAX_CAPACITY
    && (h[x].rep.height > 0 ==>
          forall e :: e in h[x].rep.Out() ==> (EdgeIn(h, x, e); LevelBelow(h, x, e); Brimful(h, e)))
  }

  /** Every node off the back leg has as many edges as fit. */
  ghost predicate BackPacked(h: Heap, x: Id)
    requires Shape(h)
    decreases if x in h then h[x].rep.Level() else 0
  {
    && x in h && h[x].rep.Btree? && h[x].rep.Out() != []
    && (h[x].rep.height > 0 ==>
          && (forall e :: e in Inner(true, h[x].rep.Out()) ==> Brimful(h, e))
          && (InnerIn(true, h[x].rep.Out()); LevelBelow(h, x, Outer(true, h[x].rep.Out()));
              BackPacked(h, Outer(true, h[x].rep.Out()))))
  }

  lemma LevelBelow(h: Heap, x: Id, e: Id)
    requires Shape(h) && x in h && h[x].rep.Btree? && e in h[x].rep.Out()
    ensures e in h && h[e].rep.Level() == h[x].rep.height
  {
    NodeOk(h, x);
    assert IsEdge(h, h[x].rep.height, e);
  }

  /** A tree that holds as many data edges as possible is full everywhere. */
  lemma {:induction false} FullIsBrimful(h: Heap, x: Id)
    requires Shape(h) && x in h && h[x].rep.Btree? && |Leaves(h, x)| == Pow6(h[x].rep.Level())
    ensures Brimful(h, x)
    decreases h[x].rep.Level()
  {
    hide RepOk;
    NodeOk(h, x);
    var es := h[x].rep.Out();
    var k := h[x].rep.height;
    LeavesOfBound(h, k, es);
    Pow6Positive(k);
    SixFull(|es|, Pow6(k));
    AllAreFull(h, k, es);
    if k > 0 {
      forall e | e in es ensures Brimful(h, e) {
        assert IsEdge(h, k, e);
        FullIsBrimful(h, e);
      }
    }
  }

  lemma SixFull(n: nat, p: nat)
    requires n <= MAX_CAPACITY && p > 0 && 6 * p <= n * p
    ensures n == MAX_CAPACITY
  {
    assert n < 6 ==> n * p <= 5 * p;
  }

  lemma {:induction false} AllAreFull(h: Heap, k: nat, es: seq<Id>)
    requires Shape(h) && AllEdges(h, k, es) && |LeavesOf(h, k, es)| == |es| * Pow6(k)
    ensures forall e :: e in es ==> |Leaves(h, e)| == Pow6(k)
    decreases |es|
  {
    hide RepOk, Pow6, Leaves, LeavesOf;
    if es != [] {
      assert es[0] in es;
      assert es == [es[0]] + es[1..];
      LeavesBound(h, es[0]);
      LeavesOfBound(h, k, es[1..]);
      LeavesOfHead(h, k, es);
      Distribute(|es[1..]|, Pow6(k));
      AllAreFull(h, k, es[1..]);
    }
  }

  lemma {:induction false} LevelsBackPacked(s: Site, h: Heap, held: multiset<Id>, rest: multiset<Id>, levels: seq<Id>,
                                            done: seq<Id>, i: nat)
    requires Building(s, h, held, rest, levels, done) && done != [] && i < |levels| && Shape(h)
    ensures BackPacked(h, levels[i])
    decreases i
  {
    hide Inv, RepOk, Inner, Outer, FreshPrivate, Brimful, Leaves;
    var x := levels[i];
    assert Settled(h, x);
    if i > 0 {
      LevelsBackPacked(s, h, held, rest, levels, done, i - 1);
      var es := h[x].rep.Out();
      InnerIn(true, es);
      assert AllFull(h, i, Inner(true, es));
      forall e | e in Inner(true, es) ensures Brimful(h, e) {
        LevelBelow(h, x, e);
        FullIsBrimful(h, e);
      }
    }
  }

  /**
  Rebuilds `tree`: the same data edges in the same order, every node off the back leg full. The
  process is aborted exactly if a full tree of the maximum height could not hold the edges.
  */
  method Rebuild(a: Arena, tree: Id) returns (r: Id, aborted: bool)
    requires a.Ok() && AllSettled(a.cells, {}) && tree in a.held && a.cells[tree].rep.Btree?
    modifies a
    ensures aborted <==> |old(Leaves(a.cells, tree))| > Pow6(MAX_DEPTH)
    ensures !aborted ==> a.Ok() && a.next >= old(a.next) && AllSettled(a.cells, {})
    ensures !aborted ==> a.held == old(a.held) - multiset{tree} + multiset{r}
    ensures !aborted ==> Kept(old(a.cells), old(a.next), {}, a.cells)
    ensures !aborted ==> PrivateTree(a.cells, old(a.next), r) && a.cells[r].rep.height <= MAX_HEIGHT
    ensures !aborted ==> Leaves(a.cells, r) == old(Leaves(a.cells, tree))
    ensures !aborted ==> BackPacked(a.cells, r)
    ensures !aborted && a.cells[r].rep.height > 0 ==> |Leaves(a.cells, r)| > Pow6(a.cells[r].rep.height)
  {
    hide Inv, RepOk, Building, BackPacked;
    ghost var h0 := a.cells;
    ghost var s := Site(h0, a.next);
    InvShape(h0, a.held);
    LenIsBytes(h0, tree);
    ghost var rest := a.held;
    var leaf := NewLeaf(a);
    EmptyBuilding(s, h0, rest, leaf, a.cells, a.held);
    var levels;
    levels, aborted := RebuildInto(a, [leaf], tree, true, s, rest, []);
    r := leaf;
    assert [] + Leaves(h0, tree) == Leaves(h0, tree);
    if !aborted {
      BuildingHeld(s, a.cells, a.held, rest - multiset{tree}, levels, Leaves(h0, tree));
      r := levels[|levels| - 1];
      Rebuilt(s, a.cells, a.held, rest - multiset{tree}, levels, Leaves(h0, tree));
    }
  }

  /** A new leaf without edges. */
  method NewLeaf(a: Arena) returns (r: Id)
    requires a.Ok()
    modifies a
    ensures a.Ok() && r == old(a.next) && a.next == r + 1 && r !in old(a.cells)
    ensures a.held == old(a.held) + multiset{r}
    ensures a.cells == old(a.cells)[r := Cell(1, Btree(0, 0, 0, 0, EMPTY_SLOTS))]
  {
    hide Inv;
    var rep := Btree(0, 0, 0, 0, EMPTY_SLOTS);
    assert rep.Out() == [];
    r := Alloc(a, Cell(1, rep));
  }

  lemma EmptyBuilding(s: Site, h0: Heap, rest: multiset<Id>, leaf: Id, h: Heap, held: multiset<Id>)
    requires SiteOk(s) && s.hb == h0 && leaf == s.n0 && AllSettled(h0, {}) && Inv(h, held)
    requires h == h0[leaf := Cell(1, Btree(0, 0, 0, 0, EMPTY_SLOTS))] && held == rest + multiset{leaf}
    ensures Building(s, h, held, rest, [leaf], [])
  {
    hide Inv, RepOk, Settled;
    InvShape(h, held);
    assert h[leaf].rep.Out() == [];
    assert LeavesOf(h, 0, []) == [];
    forall x | x in h && x != leaf ensures Settled(h, x) {
      SettledKept(h0, h, x);
    }
  }

  lemma Rebuilt(s: Site, h: Heap, held: multiset<Id>, rest: multiset<Id>, levels: seq<Id>, done: seq<Id>)
    requires Building(s, h, held, rest, levels, done) && done != []
    ensures
      var r := levels[|levels| - 1];
      AllSettled(h, {}) && Kept(s.hb, s.n0, {}, h) && held == rest + multiset{r} && PrivateTree(h, s.n0, r) &&
      h[r].rep.height <= MAX_HEIGHT && Leaves(h, r) == done &&
      (h[r].rep.height > 0 ==> |done| > Pow6(h[r].rep.height)) && BackPacked(h, r)
  {
    hide Inv, RepOk, Packed, BackPacked;
    InvShape(h, held);
    LevelsBackPacked(s, h, held, rest, levels, done, |levels| - 1);
    var r := levels[|levels| - 1];
    if |levels| > 1 {
      TopIsLarge(s, h, held, rest, levels, done);
    }
  }

  lemma TopIsLarge(s: Site, h: Heap, held: multiset<Id>, rest: multiset<Id>, levels: seq<Id>, done: seq<Id>)
    requires Building(s, h, held, rest, levels, done) && done != [] && |levels| > 1
    ensures |done| > Pow6(|levels| - 1)
  {
    hide Inv, RepOk, Inner, Outer, FreshPrivate;
    InvShape(h, held);
    var r := levels[|levels| - 1];
    var k := |levels| - 1;
    var es := h[r].rep.Out();
    LeavesSplit(h, true, r);
    assert AllFull(h, k, Inner(true, es));
    LeavesOfFull(h, k, Inner(true, es));
    assert |Inner(true, es)| == |es| - 1 by { InnerSize(es); }
    LenIsBytes(h, Outer(true, es));
    Pow6Positive(k);
    assert |Inner(true, es)| * Pow6(k) >= Pow6(k);
  }

  lemma InnerSize(es: seq<Id>)
    requires es != []
    ensures |Inner(true, es)| == |es| - 1
  {
  }
}
