/**
Trees to which only data is added stay packed: every node off the two outer legs is full.
*/
module PackedTrees {
  import opened Heap
  import opened Counts
  import opened Legs
  import opened Nodes
  import opened Edits
  import opened Climbs
  import opened Rebuilds
  import opened Forms
  import opened FormSteps
  import opened Unwinding

  /** The least number of data edges of a packed tree of height `k` that has grown to that height. */
  function Least(k: nat): nat {
    if k == 0 then 1 else 5 * Pow6(k - 1) + 2
  }

  /** Every node but for those on the two outer legs is full, and the tree is as high as its size demands. */
  ghost predicate PackedTree(h: Heap, x: Id) {
    && Shape(h) && x in h && h[x].rep.Btree?
    && PackedForm(FormOf(h, x), h[x].rep.height) && Least(h[x].rep.height) <= |Leaves(h, x)|
  }

  /** The leaf at the end of the leg is full. */
  ghost predicate EndsFull(h: Heap, back: bool, x: Id) {
    && Shape(h) && x in h && h[x].rep.Btree?
    && HasLeg(back, FormOf(h, x), h[x].rep.height) && EndFull(back, FormOf(h, x), h[x].rep.height)
  }

  /**
  Data was added: nothing was lost, and while there are too few data edges for a tree of the
  greatest depth, a packed tree stays packed. `before` and `after`: the leg ends in a full leaf.
  */
  ghost predicate StaysPacked(h: Heap, back: bool, x: Id, before: bool, h': Heap, r: Id, after: bool) {
    && Shape(h) && x in h && Shape(h') && r in h' && |Leaves(h, x)| <= |Leaves(h', r)|
    && (PackedTree(h, x) && (before ==> EndsFull(h, back, x)) && |Leaves(h', r)| < Least(MAX_DEPTH) ==>
          PackedTree(h', r) && (after ==> EndsFull(h', back, r)))
  }

  lemma StaysTwice(h: Heap, back: bool, x: Id, before: bool, h1: Heap, y: Id, between: bool, h2: Heap, r: Id,
                   after: bool)
    requires StaysPacked(h, back, x, before, h1, y, between) && StaysPacked(h1, back, y, between, h2, r, after)
    ensures StaysPacked(h, back, x, before, h2, r, after)
  {
    hide PackedTree, EndsFull, Leaves, Least;
  }

  lemma StaysSelf(h: Heap, back: bool, x: Id, after: bool)
    requires Shape(h) && x in h && (after ==> EndsFull(h, back, x))
    ensures StaysPacked(h, back, x, false, h, x, after)
  {
  }

  // --- Heights and leaves as forms -------------------------------------------------------------------

  function Depth(f: Form): nat {
    if f.Data? then 0 else if f.kids == [] then 1 else 1 + Depth(f.kids[0])
  }

  lemma {:induction false} DepthIsLevel(h: Heap, x: Id)
    requires Shape(h) && AllSettled(h, {}) && x in h
    ensures Depth(FormOf(h, x)) == h[x].rep.Level()
    decreases h[x].rep.Level()
  {
    hide RepOk;
    if h[x].rep.Btree? {
      assert Settled(h, x);
      NodeKids(h, false, x);
      var e := Outer(false, h[x].rep.Out());
      InnerIn(false, h[x].rep.Out());
      assert IsEdge(h, h[x].rep.height, e);
      DepthIsLevel(h, e);
    }
  }

  lemma {:induction false} SideDepth(back: bool, f: Form, k: nat)
    requires SidePacked(back, f, k)
    ensures Depth(f) == k + 1
  {
    assert f.kids[0] in f.kids;
    if k > 0 {
      if |f.kids| == 1 || !back {
        SideDepth(back, End(back, f.kids), k - 1);
      } else {
        assert f.kids[0] in Rest(back, f.kids);
        FullDepth(f.kids[0], k);
      }
    }
  }

  lemma {:induction false} FullDepth(f: Form, k: nat)
    requires Full(f, k)
    ensures Depth(f) == k
  {
    if k > 0 {
      assert f.kids[0] in f.kids;
      FullDepth(f.kids[0], k - 1);
    }
  }

  lemma {:induction false} PackedDepth(f: Form, k: nat)
    requires PackedForm(f, k)
    ensures Depth(f) == k + 1
  {
    assert f.kids[0] in f.kids;
    if k > 0 {
      if |f.kids| == 1 {
        PackedDepth(f.kids[0], k - 1);
      } else {
        SideDepth(false, f.kids[0], k - 1);
      }
    }
  }

  /** A leaf of the heap as a form. */
  lemma LeafIsSide(h: Heap, back: bool, x: Id)
    requires Shape(h) && x in h && h[x].rep.Btree? && h[x].rep.height == 0 && h[x].rep.Out() != []
    ensures SidePacked(back, FormOf(h, x), 0) && |FormOf(h, x).kids| == |h[x].rep.Out()|
  {
    hide RepOk;
    NodeOk(h, x);
    NodeForm(h, x);
    DataForms(h, h[x].rep.Out());
  }

  lemma {:induction false} DataForms(h: Heap, es: seq<Id>)
    requires Shape(h) && AllEdges(h, 0, es)
    ensures FullForms(FormsOf(h, 0, es), 0)
  {
    if es != [] {
      assert es[0] in es && IsEdge(h, 0, es[0]);
      DataForms(h, es[1..]);
    }
  }

  /** Whether the leg ends in a full leaf. */
  lemma {:induction false} LegEnd(h: Heap, back: bool, stack: seq<Id>, d: nat)
    requires Shape(h) && Leg(h, back, stack) && d < |stack|
    ensures HasLeg(back, FormOf(h, stack[d]), |stack| - 1 - d)
    ensures EndFull(back, FormOf(h, stack[d]), |stack| - 1 - d) <==> |h[stack[|stack| - 1]].rep.Out()| == MAX_CAPACITY
    decreases |stack| - d
  {
    hide RepOk, FormsOf, Outer, Inner;
    LegForm(h, back, stack, d, |stack| - 1);
    NodeForm(h, stack[d]);
    if d < |stack| - 1 {
      NodeKids(h, back, stack[d]);
      assert Outer(back, h[stack[d]].rep.Out()) == stack[d + 1];
      LegEnd(h, back, stack, d + 1);
    }
  }

  lemma LegEndsFull(h: Heap, back: bool, stack: seq<Id>)
    requires Shape(h) && Leg(h, back, stack) && |stack| == h[stack[0]].rep.height + 1
    ensures EndsFull(h, back, stack[0]) <==> |h[stack[|stack| - 1]].rep.Out()| == MAX_CAPACITY
  {
    LegEnd(h, back, stack, 0);
  }

  // --- One edit ----------------------------------------------------------------------------------------

  /** The edit puts a leaf of data into the place of the one at the end of the leg, or beside it if that is full. */
  ghost predicate LeafEdit(c: Edit, base: Grafted) {
    && Ready(c) && Shape(c.h0) && |c.stack| == c.h0[c.stack[0]].rep.height + 1 <= MAX_DEPTH
    && SidePacked(c.back, base.form, 0)
  }

  lemma UnwoundPacked(c: Edit, base: Grafted, h: Heap, held: multiset<Id>, r: Id)
    requires LeafEdit(c, base) && Finished(c, h, held, r) && Unwound(c, |c.stack| - 1, base, h, r)
    ensures StaysPacked(c.h0, c.back, c.stack[0], base.Pops?, h, r, |base.form.kids| == MAX_CAPACITY)
  {
    hide Inv, RepOk, AllSettled, PrivateLeg, FormOf, Leaves, Graft, Rooted, EndFull, PackedForm, SidePacked, HasForm,
      HasLeg, Leg, Least;
    GrownMore(c);
    var x := c.stack[0];
    BaseIsNode(c.back, base);
    InvShape(h, held);
    if PackedTree(c.h0, x) && (base.Pops? ==> EndsFull(c.h0, c.back, x)) && |Leaves(h, r)| < Least(MAX_DEPTH) {
      PackedAgain(c.back, FormOf(c.h0, x), c.h0[x].rep.height, base, h, r);
    }
  }

  lemma PackedAgain(back: bool, f: Form, k: nat, base: Grafted, h: Heap, r: Id)
    requires PackedForm(f, k) && HasLeg(back, f, k) && IsBase(back, f, k, base) && k <= MAX_HEIGHT
    requires Shape(h) && AllSettled(h, {}) && r in h && h[r].rep.Btree? && base.form.Node?
    requires var g := Graft(back, f, k, base); HasForm(h, r, Rooted(back, f, g), RootedHeight(k, g))
    requires Least(k) <= |Leaves(h, r)| < Least(MAX_DEPTH)
    ensures PackedTree(h, r) && (|base.form.kids| == MAX_CAPACITY ==> EndsFull(h, back, r))
  {
    hide RepOk, AllSettled, FormOf, Leaves, Graft, Rooted, EndFull, PackedForm, SidePacked, Pow6, HasLeg;
    var g := Graft(back, f, k, base);
    RootedPacked(back, f, k, base);
    NotRebuilt(back, f, k, base, h, r);
    PackedDepth(FormOf(h, r), RootedHeight(k, g));
    DepthIsLevel(h, r);
    CountIsLeaves(h, r);
    if |base.form.kids| == MAX_CAPACITY {
      RootedEnd(back, f, k, base);
    }
  }

  lemma BaseIsNode(back: bool, base: Grafted)
    requires SidePacked(back, base.form, 0)
    ensures base.form.Node?
  {
  }

  lemma GrownMore(c: Edit)
    requires Ready(c) && Shape(c.h0)
    ensures c.stack != [] && c.stack[0] in c.h0 && c.h0[c.stack[0]].rep.Btree?
    ensures |Grown(c, 0)| >= |Leaves(c.h0, c.stack[0])|
  {
    hide Inv, AllSettled;
  }

  /** A tree is rebuilt only when it has enough data edges for the greatest depth. */
  lemma NotRebuilt(back: bool, f: Form, k: nat, base: Grafted, h: Heap, r: Id)
    requires PackedForm(f, k) && HasLeg(back, f, k) && IsBase(back, f, k, base) && k <= MAX_HEIGHT
    requires var g := Graft(back, f, k, base); HasForm(h, r, Rooted(back, f, g), RootedHeight(k, g))
    requires |Leaves(h, r)| < Least(MAX_DEPTH)
    ensures FormOf(h, r) == Rooted(back, f, Graft(back, f, k, base))
  {
    hide FormOf, Leaves, Graft, Rooted, Pow6;
    RootedPacked(back, f, k, base);
  }

  /** The tree has not changed since. */
  lemma PackedGrew(h: Heap, h': Heap, back: bool, x: Id)
    requires Shape(h) && Shape(h') && x in h && x in h' && Agree(h, h', {})
    ensures PackedTree(h', x) <==> PackedTree(h, x)
    ensures EndsFull(h', back, x) <==> EndsFull(h, back, x)
    ensures Leaves(h', x) == Leaves(h, x)
  {
    assert Closed(h, {}) && AgreeEdges(h, h', {});
    LeavesFrame(h, h', {}, x);
    FormFrame(h, h', {}, x);
  }
}
