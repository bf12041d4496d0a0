/**
`StackOperations` of rep/btree.rs: walking down a leg, and propagating an edit back to the root.
*/
module Unwinding {
  import opened Heap
  import opened Counts
  import opened Arenas
  import opened Substrings
  import opened Legs
  import opened Nodes
  import opened Edits
  import opened Climbs
  import opened Steps
  import opened Rebuilds
  import opened Forms
  import opened FormSteps

  // --- Walking down -------------------------------------------------------------------

  /**
  Walks `depth` levels down the leg of `tree`. The nodes at depths below `s` have count one;
  if `s` is not beyond the last node, the node at depth `s` is shared.
  */
  method BuildStack(a: Arena, back: bool, tree: Id, depth: nat) returns (stack: seq<Id>, s: nat)
    requires a.Ok() && AllSettled(a.cells, {}) && tree in a.held && a.cells[tree].rep.Btree?
    requires depth <= a.cells[tree].rep.height
    ensures |stack| == depth + 1 && stack[0] == tree && OwnedLeg(a.cells, a.held, back, stack, s)
    ensures s <= depth ==> a.cells[stack[s]].rc != 1
  {
    hide Inv, RepOk, Inner, Outer;
    InvShape(a.cells, a.held);
    stack := [tree];
    s := 0;
    var node := tree;
    while |stack| <= depth && a.cells[node].rc == 1
      invariant 1 <= |stack| <= depth + 1 && stack[0] == tree && node == stack[|stack| - 1] && s == |stack| - 1
      invariant Leg(a.cells, back, stack) && forall i :: 0 <= i < s ==> a.cells[stack[i]].rc == 1
    {
      assert Settled(a.cells, node);
      node := StepDown(a, back, stack, depth);
      stack := stack + [node];
      s := s + 1;
    }
    if a.cells[node].rc == 1 {
      s := s + 1;
    }
    while |stack| <= depth
      invariant 1 <= |stack| <= depth + 1 && stack[0] == tree && node == stack[|stack| - 1] && s <= |stack|
      invariant Leg(a.cells, back, stack) && forall i :: 0 <= i < s ==> a.cells[stack[i]].rc == 1
      invariant s < |stack| ==> a.cells[stack[s]].rc != 1
      invariant s == |stack| ==> |stack| == depth + 1
    {
      assert Settled(a.cells, node);
      node := StepDown(a, back, stack, depth);
      stack := stack + [node];
    }
  }

  /** The node below the last one of the leg. */
  method StepDown(a: Arena, back: bool, stack: seq<Id>, depth: nat) returns (node: Id)
    requires Shape(a.cells) && AllSettled(a.cells, {}) && Leg(a.cells, back, stack)
    requires 0 < |stack| <= depth <= a.cells[stack[0]].rep.height
    ensures node in a.cells && Leg(a.cells, back, stack + [node])
  {
    hide RepOk, Inner, Outer;
    var last := stack[|stack| - 1];
    assert Settled(a.cells, last);
    assert a.cells[last].rep.height == a.cells[stack[0]].rep.height - (|stack| - 1);
    InnerIn(back, a.cells[last].rep.Out());
    node := Outer(back, a.cells[last].rep.Out());
    NodeOk(a.cells, last);
    assert IsEdge(a.cells, a.cells[last].rep.height, node);
    LegExtends(a.cells, back, stack, node);
  }

  lemma LegExtends(h: Heap, back: bool, stack: seq<Id>, node: Id)
    requires Leg(h, back, stack) && h[stack[|stack| - 1]].rep.Out() != []
    requires node == Outer(back, h[stack[|stack| - 1]].rep.Out()) && node in h && h[node].rep.Btree?
    requires h[node].rep.height == h[stack[|stack| - 1]].rep.height - 1
    ensures Leg(h, back, stack + [node])
  {
    hide Outer;
    var longer := stack + [node];
    assert h[stack[|stack| - 1]].rep.height == h[stack[0]].rep.height - (|stack| - 1);
    forall i, j | 0 <= i && j == i + 1 && j < |longer|
      ensures h[longer[i]].rep.Out() != [] && Outer(back, h[longer[i]].rep.Out()) == longer[j]
    {
      if j < |stack| {
        assert longer[i] == stack[i] && longer[j] == stack[j];
      }
    }
  }

  // --- The top of the tree ----------------------------------------------------------------

  /** The copied root takes the place of the old one. */
  lemma CopiedRoot(c: Edit, h: Heap, held: multiset<Id>, e: Id, h': Heap, held': multiset<Id>)
    requires State(c, h, held, 0, Copied, e) && Inv(h', held') && Shrunk(h, h')
    requires held' == held - multiset{c.stack[0]}
    ensures Finished(c, h', held', e)
  {
    hide Inv, RepOk, Settled, PrivateLeg, Join, Leaves, OwnedLeg;
    InvShape(h, held);
    InvShape(h', held');
    CountsPositive(h', held');
    RootGone(c.rest, c.stack[0], e, held, held');
    LeavesFrame(h, h', {}, e);
    forall x | x in h' ensures Settled(h', x) {
      SettledKept(h, h', x);
    }
    if c.priv {
      PrivateRc(h, c.back, e);
      PrivateLegKept(h, h', c.back, e);
    }
  }

  lemma RootGone(rest: multiset<Id>, root: Id, e: Id, held: multiset<Id>, held': multiset<Id>)
    requires held == rest + multiset{root} + multiset([e]) && held' == held - multiset{root}
    ensures held' == rest + multiset{e} && e in held'
  {
  }

  /** Both orders of the two edges of a new root. */
  function Pair(back: bool, tree: Id, e: Id): seq<Id> {
    if back then [tree, e] else [e, tree]
  }

  lemma PairedRoot(c: Edit, h: Heap, held: multiset<Id>, e: Id, p: Id, h': Heap, held': multiset<Id>)
    requires State(c, h, held, 0, Popped, e) && Inv(h', held') && p !in h && p >= c.n0 && p in h' && h' == h[p := h'[p]]
    requires h'[p].rc == 1 && held' == held - multiset{c.stack[0], e} + multiset{p}
    requires c.stack[0] in h && h[c.stack[0]].rep.Btree? && e in h && h[e].rep.Btree?
    requires NodeWith(h'[p].rep, c.h0[c.stack[0]].rep.height + 1, h[c.stack[0]].rep.length + h[e].rep.length,
                      Pair(c.back, c.stack[0], e))
    ensures Finished(c, h', held', p)
  {
    hide Inv, RepOk, Settled, PrivateLeg, AllSettled, Kept;
    InvShape(h, held);
    InvShape(h', held');
    var tree := c.stack[0];
    assert Pair(c.back, tree, e) == Join(c.back, [tree], [e]);
    PairedParts(c, h, held, e, p, h');
    PairedSettled(c, h, held, e, p, h');
    assert held' == c.rest + multiset{p};
    assert Kept(c.h0, c.n0, Ids(c.stack[..c.s]), h') by { PairedKept(c, h, held, e, p, h'); }
  }

  lemma PairedKept(c: Edit, h: Heap, held: multiset<Id>, e: Id, p: Id, h': Heap)
    requires Ready(c) && Clean(c, h, held, [e]) && p !in h && p >= c.n0 && p in h' && h' == h[p := h'[p]]
    ensures Kept(c.h0, c.n0, Ids(c.stack[..c.s]), h')
  {
    hide Inv, AllSettled;
  }

  lemma PairedParts(c: Edit, h: Heap, held: multiset<Id>, e: Id, p: Id, h': Heap)
    requires State(c, h, held, 0, Popped, e) && Shape(h) && Shape(h') && p !in h && p in h' && h' == h[p := h'[p]]
    requires h'[p].rc == 1 && h'[p].rep.Btree? && h'[p].rep.height == c.h0[c.stack[0]].rep.height + 1
    requires h'[p].rep.Out() == Join(c.back, [c.stack[0]], [e])
    ensures Leaves(h', p) == Grown(c, 0)
    ensures c.priv ==> PrivateLeg(h', c.back, p)
  {
    hide Inv, RepOk, PrivateLeg, Join, AllSettled, Outer;
    var tree := c.stack[0];
    CleanLeg(c, h, held, [e]);
    CleanLeaves(c, h, held, [e], 0);
    var k := h'[p].rep.height;
    LeavesOfOne(h, k, tree);
    LeavesOfOne(h, k, e);
    JoinedLeaves(h, h', {}, c.back, [tree], [e], p);
    if c.priv {
      JoinOuter(c.back, [tree], e);
      PrivateAbove(h, h', c.back, e, p);
    }
  }

  lemma PairedSettled(c: Edit, h: Heap, held: multiset<Id>, e: Id, p: Id, h': Heap)
    requires State(c, h, held, 0, Popped, e) && Shape(h) && Shape(h') && p !in h && p in h' && h' == h[p := h'[p]]
    requires c.stack[0] in h && h[c.stack[0]].rep.Btree? && e in h && h[e].rep.Btree? && h'[p].rep.Btree?
    requires h'[p].rep.length == h[c.stack[0]].rep.length + h[e].rep.length
    requires h'[p].rep.Out() == Join(c.back, [c.stack[0]], [e])
    ensures AllSettled(h', {})
  {
    hide Inv, RepOk, PrivateLeg, Settled, Clean, Join;
    CleanSettled(c, h, held, [e]);
    var tree := c.stack[0];
    forall x | x in h' ensures Settled(h', x) {
      if x == p {
        SumLenJoin(h', c.back, [tree], [e]);
        assert SumLen(h', [tree]) == h'[tree].rep.Len() + SumLen(h', []);
        assert SumLen(h', [e]) == h'[e].rep.Len() + SumLen(h', []);
        JoinOuter(c.back, [tree], e);
        JustSettled(h', p);
      } else {
        SettledKept(h, h', x);
      }
    }
  }

  /** A rebuilt tree is as good a result as the tree it was built from. */
  lemma RebuiltRoot(c: Edit, h: Heap, held: multiset<Id>, n: Id, p: Id, r: Id, h': Heap, held': multiset<Id>)
    requires Finished(c, h, held, p) && c.n0 <= n && Inv(h', held') && AllSettled(h', {})
    requires held' == held - multiset{p} + multiset{r} && Kept(h, n, {}, h')
    requires PrivateTree(h', n, r) && Leaves(h', r) == Leaves(h, p)
    ensures Finished(c, h', held', r)
  {
    hide Inv, RepOk, AllSettled, PrivateLeg, FreshPrivate, Leaves, OwnedLeg;
    InvShape(h', held');
    HandleSwapped(c.rest, p, r, held, held');
    PrivateTreeLeg(h', n, c.back, r);
  }

  lemma HandleSwapped(rest: multiset<Id>, p: Id, r: Id, held: multiset<Id>, held': multiset<Id>)
    requires held == rest + multiset{p} && held' == held - multiset{p} + multiset{r}
    ensures held' == rest + multiset{r}
  {
  }

  lemma {:induction false} PrivateTreeLeg(h: Heap, n0: Id, back: bool, x: Id)
    requires Shape(h) && AllSettled(h, {}) && PrivateTree(h, n0, x)
    ensures PrivateLeg(h, back, x)
    decreases h[x].rep.Level()
  {
    hide RepOk, Inner, Outer;
    assert Settled(h, x);
    if h[x].rep.height > 0 {
      var es := h[x].rep.Out();
      InnerIn(back, es);
      LevelBelow(h, x, Outer(back, es));
      PrivateTreeLeg(h, n0, back, Outer(back, es));
    }
  }

  /** Processes the action that has reached the root. */
  method Finalize(a: Arena, ghost c: Edit, back: bool, tree: Id, e: Id, action: Action) returns (r: Id, aborted: bool)
    requires a.Ok() && State(c, a.cells, a.held, 0, action, e) && a.next >= c.n0
    requires c.stack[0] == tree && c.back == back && c.h0[tree].rep.height <= MAX_HEIGHT
    modifies a
    ensures aborted ==> |Grown(c, 0)| > Pow6(MAX_DEPTH)
    ensures !aborted ==> a.Ok() && a.next >= old(a.next) && Finished(c, a.cells, a.held, r)
    ensures !aborted ==> a.cells[r].rep.height <= MAX_HEIGHT
    ensures action != Popped ==> !aborted && r == e && Shrunk(old(a.cells), a.cells)
    ensures action != Popped ==> a.cells[r].rep.Btree? && a.cells[r].rep.height == c.h0[tree].rep.height
    ensures !aborted && action == Popped ==> Paired(c, old(a.cells), e, a.cells, r)
  {
    hide Inv, RepOk, State, Finished, Paired, OnlyUnreachableGone;
    aborted := false;
    match action
    case InPlace =>
      r := e;
      InPlaceRoot(c, a.cells, a.held, e);
    case Copied =>
      ghost var h := a.cells;
      ghost var held := a.held;
      RootFacts(c, h, held, Copied, e);
      r := e;
      Unref(a, tree);
      CopiedRoot(c, h, held, e, a.cells, a.held);
      FinishedRoot(c, a.cells, a.held, e);
    case Popped =>
      r, aborted := FinalizePopped(a, c, back, tree, e);
  }

  lemma InPlaceRoot(c: Edit, h: Heap, held: multiset<Id>, e: Id)
    requires State(c, h, held, 0, InPlace, e)
    ensures Finished(c, h, held, e) && h[e].rep.Btree? && h[e].rep.height == c.h0[c.stack[0]].rep.height
  {
    hide Inv, RepOk, PrivateLeg, AllSettled;
    ClimbStart(c, h, held, 0);
    ClimbDone(c, h, held, 0);
  }

  lemma RootFacts(c: Edit, h: Heap, held: multiset<Id>, action: Action, e: Id)
    requires State(c, h, held, 0, action, e) && action != InPlace
    ensures multiset{c.stack[0], e} <= held && c.stack[0] in h && e in h && Same(h[c.stack[0]], c.h0[c.stack[0]])
    ensures h[e].rep.Btree? && h[e].rep.height == c.h0[c.stack[0]].rep.height && c.stack[0] in c.h0
    ensures h[c.stack[0]].rep.Btree?
  {
    hide Inv, RepOk, PrivateLeg, AllSettled;
    CleanLeg(c, h, held, [e]);
  }

  lemma FinishedRoot(c: Edit, h: Heap, held: multiset<Id>, e: Id)
    requires Finished(c, h, held, e)
    ensures e in held && e in h && h[e].rep.Btree? && Shape(h) && AllSettled(h, {}) && Leaves(h, e) == Grown(c, 0)
  {
  }

  /** `r` has the form `f` of height `k`, or has been rebuilt because that would be too high. */
  ghost predicate HasForm(h: Heap, r: Id, f: Form, k: nat) {
    Shape(h) && r in h && (FormOf(h, r) == f || (k > MAX_HEIGHT && Count(f) == |Leaves(h, r)|))
  }

  /** The form of a tree whose root has popped `e`. */
  ghost predicate Paired(c: Edit, h: Heap, e: Id, h': Heap, r: Id) {
    && Ready(c) && Shape(c.h0) && Shape(h) && e in h
    && HasForm(h', r, Node(Join(c.back, [FormOf(c.h0, c.stack[0])], [FormOf(h, e)])), c.h0[c.stack[0]].rep.height + 1)
  }

  lemma PairForm(c: Edit, h: Heap, held: multiset<Id>, e: Id, p: Id, h': Heap)
    requires State(c, h, held, 0, Popped, e) && Shape(h') && p !in h && p in h' && h' == h[p := h'[p]]
    requires h'[p].rep.Btree?
    requires h'[p].rep.Out() == Join(c.back, [c.stack[0]], [e]) && h'[p].rep.height == c.h0[c.stack[0]].rep.height + 1
    ensures Shape(c.h0) && Shape(h) && FormOf(h', p) == Node(Join(c.back, [FormOf(c.h0, c.stack[0])], [FormOf(h, e)]))
  {
    hide Inv, RepOk, AllSettled, PrivateLeg, FormOf, FormsOf, Leaves, Join;
    InvShape(h, held);
    InvShape(c.h0, c.held0);
    var tree, k := c.stack[0], h'[p].rep.height;
    CleanLeg(c, h, held, [e]);
    NodeForm(h', p);
    JoinIn(c.back, [tree], [e]);
    assert tree in [tree] && e in [e];
    assert IsEdge(h', k, tree) && IsEdge(h', k, e);
    FormFrame(c.h0, h, {}, tree);
    FormFrame(h, h', {}, tree);
    FormFrame(h, h', {}, e);
    FormsOne(h', k, tree);
    FormsOne(h', k, e);
    FormsJoin(h', k, c.back, [tree], [e]);
  }

  method FinalizePopped(a: Arena, ghost c: Edit, back: bool, tree: Id, e: Id) returns (r: Id, aborted: bool)
    requires a.Ok() && State(c, a.cells, a.held, 0, Popped, e) && a.next >= c.n0
    requires c.stack[0] == tree && c.back == back && c.h0[tree].rep.height <= MAX_HEIGHT
    modifies a
    ensures aborted ==> |Grown(c, 0)| > Pow6(MAX_DEPTH)
    ensures !aborted ==> a.Ok() && a.next >= old(a.next) && Finished(c, a.cells, a.held, r)
    ensures !aborted ==> a.cells[r].rep.height <= MAX_HEIGHT
    ensures !aborted ==> Paired(c, old(a.cells), e, a.cells, r)
  {
    hide Inv, RepOk, State, Finished, PrivateTree, BackPacked, FormOf, Leaves;
    ghost var h := a.cells;
    ghost var held := a.held;
    RootFacts(c, h, held, Popped, e);
    aborted := false;
    if back {
      r := NewPair(a, tree, e);
    } else {
      assert multiset{e, tree} == multiset{tree, e};
      r := NewPair(a, e, tree);
    }
    PairedRoot(c, h, held, e, r, a.cells, a.held);
    FinishedRoot(c, a.cells, a.held, r);
    PairForm(c, h, held, e, r, a.cells);
    StateReady(c, h, held, 0, Popped, e);
    if a.cells[r].rep.height > MAX_HEIGHT {
      ghost var p, h1, held1, n1 := r, a.cells, a.held, a.next;
      CountIsLeaves(a.cells, r);
      r, aborted := Rebuild(a, r);
      if !aborted {
        InvShape(a.cells, a.held);
        RebuiltRoot(c, h1, held1, n1, p, r, a.cells, a.held);
      }
    }
  }

  lemma StateReady(c: Edit, h: Heap, held: multiset<Id>, d: nat, action: Action, e: Id)
    requires State(c, h, held, d, action, e)
    ensures Ready(c) && Shape(c.h0) && Shape(h) && c.stack[0] in c.h0 && e in h && c.stack[d] in c.h0
    ensures Leg(c.h0, c.back, c.stack)
  {
    hide AllSettled, PrivateLeg, Leaves;
  }

  /** The result of an edit has the form that the same edit gives on forms. */
  ghost predicate Unwound(c: Edit, depth: nat, base: Grafted, h: Heap, r: Id) {
    && Ready(c) && Shape(c.h0) && depth < |c.stack| && HasLeg(c.back, FormOf(c.h0, c.stack[0]), depth)
    && var f := FormOf(c.h0, c.stack[0]);
       var g := Graft(c.back, f, depth, base);
       HasForm(h, r, Rooted(c.back, f, g), RootedHeight(c.h0[c.stack[0]].rep.height, g))
  }

  lemma UnwoundAtRoot(c: Edit, h: Heap, held: multiset<Id>, depth: nat, action: Action, e: Id, base: Grafted, r: Id,
                      h': Heap, held': multiset<Id>)
    requires State(c, h, held, 0, action, e) && Tracks(c, h, 0, depth, action, e, base) && Inv(h', held')
    requires action != Popped ==> r == e && r in h' && Shrunk(h, h')
    requires action == Popped ==> Paired(c, h, e, h', r)
    ensures Unwound(c, depth, base, h', r)
  {
    hide Inv, State, FormOf, Leaves, Graft, Shrunk, Ready;
    StateReady(c, h, held, 0, action, e);
    InvShape(h', held');
    if action != Popped {
      FormShrunk(h, h', e);
    }
  }

  // --- Unwinding --------------------------------------------------------------------------

  /** Propagates the action at `depth` to the root (`unwind`). */
  method Unwind(a: Arena, ghost c: Edit, back: bool, stack: seq<Id>, s: nat, depth: nat, delta: nat, e: Id,
                action: Action)
    returns (r: Id, aborted: bool)
    requires a.Ok() && depth < |stack| && State(c, a.cells, a.held, depth, action, e) && a.next >= c.n0
    requires c.stack == stack && c.s == s && c.back == back && c.delta == delta
    requires c.h0[stack[0]].rep.height <= MAX_HEIGHT
    modifies a
    ensures Ready(c) && c.stack != [] && (aborted <==> |Grown(c, 0)| > Pow6(MAX_DEPTH))
    ensures !aborted ==> a.Ok() && a.next >= old(a.next) && Finished(c, a.cells, a.held, r)
    ensures !aborted ==> a.cells[r].rep.height <= MAX_HEIGHT
    ensures Shape(old(a.cells)) && e in old(a.cells)
    ensures !aborted ==> Unwound(c, depth, GraftedAs(action, FormOf(old(a.cells), e)), a.cells, r)
  {
    hide Inv, RepOk, State, Finished, CanAttach, Edited, Tracks, Unwound, FormOf, Paired, Join, Inner;
    var d, node, act := depth, e, action;
    StateReady(c, a.cells, a.held, d, act, node);
    TracksStart(c, a.cells, a.held, d, act, node);
    ghost var base := GraftedAs(action, FormOf(a.cells, e));
    while d > 0 && act != InPlace
      invariant 0 <= d <= depth && a.Ok() && a.next >= c.n0 && a.next >= old(a.next)
      invariant State(c, a.cells, a.held, d, act, node) && Tracks(c, a.cells, d, depth, act, node, base)
      decreases d
    {
      node, act := UnwindOnce(a, c, d - 1, depth, stack[d - 1], back, d - 1 < s, delta, node, act, base);
      d := d - 1;
    }
    ghost var h, held := a.cells, a.held;
    if d > 0 {
      StateIsAt(c, a.cells, a.held, d, node);
      AddLengths(a, c, stack, d, delta);
      r, aborted := stack[0], false;
      InvShape(a.cells, a.held);
      TracksInPlace(c, h, held, d, depth, base, a.cells);
      UnwoundInPlace(c, h, held, d, depth, base, a.cells);
    } else {
      r, aborted := Finalize(a, c, back, stack[0], node, act);
      if !aborted {
        FinishedRoot(c, a.cells, a.held, r);
        UnwoundAtRoot(c, h, held, depth, act, node, base, r, a.cells, a.held);
      }
    }
    if !aborted {
      FinishedRoot(c, a.cells, a.held, r);
      WithinBound(a.cells, r);
    }
  }

  /** A tree within the greatest height cannot hold more data edges than a full one. */
  lemma WithinBound(h: Heap, x: Id)
    requires Shape(h) && x in h && (h[x].rep.Btree? ==> h[x].rep.height <= MAX_HEIGHT)
    ensures |Leaves(h, x)| <= Pow6(MAX_DEPTH)
  {
    hide Leaves, Pow6, RepOk;
    LeavesBound(h, x);
    Pow6Monotone(h[x].rep.Level(), MAX_DEPTH);
  }

  lemma UnwoundInPlace(c: Edit, h: Heap, held: multiset<Id>, d: nat, depth: nat, base: Grafted, h': Heap)
    requires d < |c.stack| && State(c, h, held, d, InPlace, c.stack[d])
    requires Tracks(c, h', 0, depth, InPlace, c.stack[0], base)
    ensures Unwound(c, depth, base, h', c.stack[0])
  {
    hide Inv, State, FormOf, Leaves, Graft, Ready;
    StateReady(c, h, held, d, InPlace, c.stack[d]);
  }

  /** One step towards the root, where the node below was copied or has popped. */
  method UnwindOnce(a: Arena, ghost c: Edit, ghost d: nat, ghost depth: nat, node: Id, back: bool, owned: bool,
                    delta: nat, e: Id, act: Action, ghost base: Grafted) returns (r: Id, action: Action)
    requires a.Ok() && d + 1 < |c.stack| && State(c, a.cells, a.held, d + 1, act, e) && act != InPlace && a.next >= c.n0
    requires c.stack[d] == node && c.back == back && owned == (d < c.s) && c.delta == delta
    requires Tracks(c, a.cells, d + 1, depth, act, e, base)
    modifies a
    ensures a.Ok() && a.next >= old(a.next) && State(c, a.cells, a.held, d, action, r)
    ensures Tracks(c, a.cells, d, depth, action, r, base) && (act == Copied ==> action != Popped)
  {
    hide Inv, RepOk, State, Finished, CanAttach, Edited, Tracks, Join, Inner;
    ghost var h, held := a.cells, a.held;
    if act == Popped {
      PoppedCanAttach(c, a.cells, a.held, d + 1, e);
      AttachNode(c, h, held, d, e);
      r, action := AttachAt(a, c, d, node, back, owned, e, delta);
      StateReady(c, a.cells, a.held, d, action, r);
      TracksAttach(c, h, held, d, depth, e, base, action, r, a.cells, a.held);
    } else {
      LooseHeight(c, h, held, d, e);
      r, action := ReplaceAt(a, c, d, node, back, owned, e, delta);
      TracksReplace(c, h, held, d, depth, e, base, r, a.cells, a.held, action);
    }
  }

  lemma AttachNode(c: Edit, h: Heap, held: multiset<Id>, d: nat, e: Id)
    requires d + 1 < |c.stack| && State(c, h, held, d + 1, Popped, e)
    ensures c.stack[d] in h && h[c.stack[d]].rep.Btree?
  {
    hide Inv, RepOk, AllSettled, PrivateLeg, Leaves;
    CleanLeg(c, h, held, [e]);
  }

  lemma StateIsAt(c: Edit, h: Heap, held: multiset<Id>, d: nat, e: Id)
    requires State(c, h, held, d, InPlace, e)
    ensures e == c.stack[d]
    ensures d > 0 ==> c.stack[0] in h && h[c.stack[0]] == c.h0[c.stack[0]] && h[c.stack[0]].rep.Btree?
  {
    hide Inv, AllSettled;
  }

  // --- Unwinding with a stack that is used again ----------------------------------------------

  /** The path from depth `d` down is still a leg if its nodes have not changed. */
  lemma {:induction false} TailKept(h: Heap, h': Heap, back: bool, tail: seq<Id>)
    requires Shape(h') && Leg(h, back, tail) && tail[0] in h'
    requires forall y :: y in h && y in h' && h[y].rep.Level() <= h[tail[0]].rep.Level() ==> Same(h[y], h'[y])
    ensures Leg(h', back, tail)
    decreases |tail|
  {
    hide RepOk, Outer, Inner;
    if |tail| > 1 {
      var es := h[tail[0]].rep.Out();
      InnerIn(back, es);
      LevelBelow(h', tail[0], tail[1]);
      var rest := tail[1..];
      assert rest[0] == tail[1];
      LegTail(h, back, tail);
      TailKept(h, h', back, rest);
      LegCons(h', back, tail[0], rest);
      assert [tail[0]] + rest == tail;
    }
  }

  lemma LegTail(h: Heap, back: bool, leg: seq<Id>)
    requires Leg(h, back, leg) && |leg| > 1
    ensures Leg(h, back, leg[1..])
  {
    hide Outer;
    var rest := leg[1..];
    assert h[leg[1]].rep.height == h[leg[0]].rep.height - 1;
    forall i | 0 <= i < |rest|
      ensures rest[i] in h && h[rest[i]].rep.Btree? && h[rest[i]].rep.height == h[rest[0]].rep.height - i
    {
      assert rest[i] == leg[i + 1];
    }
    forall i, j | 0 <= i && j == i + 1 && j < |rest|
      ensures h[rest[i]].rep.Out() != [] && Outer(back, h[rest[i]].rep.Out()) == rest[j]
    {
      assert rest[i] == leg[i + 1] && rest[j] == leg[j + 1];
    }
  }

  lemma LegCons(h: Heap, back: bool, x: Id, leg: seq<Id>)
    requires Leg(h, back, leg) && x in h && h[x].rep.Btree? && h[x].rep.height == h[leg[0]].rep.height + 1
    requires h[x].rep.Out() != [] && Outer(back, h[x].rep.Out()) == leg[0]
    ensures Leg(h, back, [x] + leg)
  {
    hide Outer;
    var longer := [x] + leg;
    forall i, j | 0 <= i && j == i + 1 && j < |longer|
      ensures h[longer[i]].rep.Out() != [] && Outer(back, h[longer[i]].rep.Out()) == longer[j]
    {
      if i > 0 {
        assert longer[i] == leg[i - 1] && longer[j] == leg[j - 1];
      }
    }
  }

  lemma LegLengthOnly(h: Heap, h': Heap, back: bool, leg: seq<Id>)
    requires Leg(h, back, leg) && LengthOnly(h, h')
    ensures Leg(h', back, leg)
  {
    hide Outer;
  }

  /** An unchanged upper part of the leg and a lower part beginning at the node below it. */
  lemma WrittenLeg(c: Edit, h: Heap, held: multiset<Id>, d: nat, tail: seq<Id>)
    requires d < |c.stack| && State(c, h, held, d, InPlace, c.stack[d]) && Leg(h, c.back, tail) && tail[0] == c.stack[d]
    ensures Leg(h, c.back, c.stack[..d] + tail)
    ensures d > 0 ==> c.stack[0] in h && h[c.stack[0]].rep.height == c.h0[c.stack[0]].rep.height
  {
    hide Inv, RepOk, AllSettled, PrivateLeg, Outer, Leaves;
    assert forall i :: 0 <= i < d ==> c.stack[i] in h && h[c.stack[i]] == c.h0[c.stack[i]];
    WrittenLegFrom(c.h0, c.back, c.stack, h, d, tail, 0);
    assert c.stack[0..d] == c.stack[..d];
  }

  lemma {:induction false} WrittenLegFrom(h0: Heap, back: bool, stack: seq<Id>, h: Heap, d: nat, tail: seq<Id>, i: nat)
    requires Leg(h0, back, stack) && i <= d < |stack| && Leg(h, back, tail) && tail[0] == stack[d]
    requires h[stack[d]].rep.height == h0[stack[d]].rep.height
    requires forall j :: 0 <= j < d ==> stack[j] in h && h[stack[j]] == h0[stack[j]]
    ensures Leg(h, back, stack[i..d] + tail) && (stack[i..d] + tail)[0] == stack[i]
    decreases d - i
  {
    hide Outer;
    if i == d {
      assert stack[i..d] + tail == tail;
    } else {
      WrittenLegFrom(h0, back, stack, h, d, tail, i + 1);
      var below := stack[i + 1..d] + tail;
      assert h0[stack[i]].rep.height == h0[stack[0]].rep.height - i
        && h0[stack[i + 1]].rep.height == h0[stack[0]].rep.height - (i + 1);
      LegCons(h, back, stack[i], below);
      assert stack[i..d] + tail == [stack[i]] + below;
    }
  }

  /** A leg of which every node is private is owned throughout. */
  lemma {:induction false} PrivateLegOwned(h: Heap, back: bool, x: Id, leg: seq<Id>)
    requires Shape(h) && PrivateLeg(h, back, x) && Leg(h, back, leg) && leg[0] == x
    ensures forall i :: 0 <= i < |leg| ==> h[leg[i]].rc == 1
    decreases |leg|
  {
    hide RepOk, Outer;
    if |leg| > 1 {
      LegTail(h, back, leg);
      assert h[leg[1]].rep.height == h[x].rep.height - 1;
      PrivateLegOwned(h, back, leg[1], leg[1..]);
      forall i | 0 <= i < |leg| ensures h[leg[i]].rc == 1 {
        if i > 0 {
          assert leg[i] == leg[1..][i - 1];
        }
      }
    }
  }

  /** One step of `Propagate`: the stack below depth `d` is up to date. */
  method PropagateOnce(a: Arena, ghost c: Edit, d: nat, node: Id, back: bool, owned: bool, e: Id,
                       delta: nat, ghost tail: seq<Id>, ghost depth: nat, ghost base: Grafted)
    returns (r: Id, action: Action)
    requires d + 1 < |c.stack|
    requires a.Ok() && State(c, a.cells, a.held, d + 1, Copied, e) && a.next >= c.n0
    requires c.stack[d] == node && c.back == back && owned == (d < c.s) && c.delta == delta
    requires Leg(a.cells, back, tail) && tail[0] == e && Tracks(c, a.cells, d + 1, depth, Copied, e, base)
    modifies a
    ensures a.Ok() && a.next >= old(a.next) && State(c, a.cells, a.held, d, action, r) && action != Popped
    ensures Leg(a.cells, back, [r] + tail)
    ensures Tracks(c, a.cells, d, depth, action, r, base)
  {
    hide Inv, RepOk, State, Outer, Inner, Join, Tracks;
    ghost var h := a.cells;
    StateParts(c, h, a.held, d + 1, e);
    LooseHeight(c, h, a.held, d, e);
    ghost var held := a.held;
    r, action := ReplaceAt(a, c, d, node, back, owned, e, delta);
    TracksReplace(c, h, held, d, depth, e, base, r, a.cells, a.held, action);
    InvShape(a.cells, a.held);
    JoinOuter(back, Inner(back, h[node].rep.Out()), e);
    NodeOk(a.cells, r);
    assert IsEdge(a.cells, a.cells[r].rep.height, e);
    TailKept(h, a.cells, back, tail);
    LegCons(a.cells, back, r, tail);
  }

  lemma LooseHeight(c: Edit, h: Heap, held: multiset<Id>, d: nat, e: Id)
    requires d + 1 < |c.stack| && State(c, h, held, d + 1, Copied, e)
    ensures c.stack[d] in h && h[c.stack[d]].rep.Btree? && h[c.stack[d]].rep.Out() != [] && e in h && h[e].rep.Btree?
    ensures h[c.stack[d]].rep.Level() == h[e].rep.Level() + 1
  {
    hide Inv, RepOk, AllSettled, PrivateLeg, Leaves;
    CleanLeg(c, h, held, [e]);
  }

  /** `Unwind` for an edit that did not pop, which brings the stack up to date for further edits. */
  method Propagate(a: Arena, ghost c: Edit, back: bool, stack: seq<Id>, s: nat, delta: nat, e: Id, action: Action)
    returns (r: Id, path: seq<Id>)
    requires a.Ok() && stack != [] && State(c, a.cells, a.held, |stack| - 1, action, e) && a.next >= c.n0
    requires action != Popped && c.priv && c.stack == stack && c.s == s && c.back == back && c.delta == delta
    requires c.h0[stack[0]].rep.height <= MAX_HEIGHT
    modifies a
    ensures a.Ok() && a.next >= old(a.next) && Finished(c, a.cells, a.held, r)
    ensures a.cells[r].rep.Btree? && a.cells[r].rep.height == c.h0[stack[0]].rep.height
    ensures |path| == |stack| && path[0] == r && OwnedLeg(a.cells, a.held, back, path, |path|)
    ensures Shape(old(a.cells)) && e in old(a.cells)
    ensures Unwound(c, |stack| - 1, GraftedAs(action, FormOf(old(a.cells), e)), a.cells, r)
  {
    hide Inv, RepOk, State, Finished, Leg, PrivateLeg, Tracks, Unwound, FormOf, Paired;
    var d, node, act := |stack| - 1, e, action;
    StateReady(c, a.cells, a.held, d, act, node);
    TracksStart(c, a.cells, a.held, d, act, node);
    ghost var depth, base := d, GraftedAs(action, FormOf(a.cells, e));
    path := stack[d := node];
    SingleLeg(c, a.cells, a.held, d, act, node);
    assert path[d..] == [node];
    while d > 0 && act != InPlace
      invariant 0 <= d < |stack| == |path| && a.Ok() && a.next >= c.n0 && a.next >= old(a.next)
      invariant State(c, a.cells, a.held, d, act, node) && act != Popped
      invariant Tracks(c, a.cells, d, depth, act, node, base)
      invariant Leg(a.cells, back, path[d..]) && path[d] == node && path[..d] == stack[..d]
      decreases d
    {
      ghost var tail := path[d..];
      node, act := PropagateOnce(a, c, d - 1, stack[d - 1], back, d - 1 < s, node, delta, tail, depth, base);
      d := d - 1;
      path := path[d := node];
      assert path[d..] == [node] + tail;
    }
    ghost var h, held := a.cells, a.held;
    if d > 0 {
      StateIsAt(c, a.cells, a.held, d, node);
      WrittenLeg(c, h, a.held, d, path[d..]);
      assert path == stack[..d] + path[d..];
      AddLengths(a, c, stack, d, delta);
      r := stack[0];
      assert path[..d][0] == stack[..d][0];
      LegLengthOnly(h, a.cells, back, path);
      InvShape(a.cells, a.held);
      TracksInPlace(c, h, held, d, depth, base, a.cells);
      UnwoundInPlace(c, h, held, d, depth, base, a.cells);
    } else {
      assert path[0..] == path;
      var aborted;
      r, aborted := Finalize(a, c, back, stack[0], node, act);
      FinishedRoot(c, a.cells, a.held, r);
      UnwoundAtRoot(c, h, held, depth, act, node, base, r, a.cells, a.held);
      TailKept(h, a.cells, back, path);
    }
    PathOwned(c, a.cells, a.held, r, path);
  }

  lemma SingleLeg(c: Edit, h: Heap, held: multiset<Id>, d: nat, action: Action, e: Id)
    requires State(c, h, held, d, action, e)
    ensures Leg(h, c.back, [e])
  {
    hide Inv, RepOk, AllSettled, PrivateLeg;
  }

  lemma PathOwned(c: Edit, h: Heap, held: multiset<Id>, r: Id, path: seq<Id>)
    requires Finished(c, h, held, r) && c.priv && Leg(h, c.back, path) && path[0] == r
    ensures OwnedLeg(h, held, c.back, path, |path|)
  {
    hide Inv, RepOk, AllSettled, PrivateLeg;
    InvShape(h, held);
    PrivateLegOwned(h, c.back, r, path);
  }
}
