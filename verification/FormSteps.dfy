/**
How the steps of an edit change the form of a tree: an edit that is propagated to the root does on
the heap what `Graft` does on forms.
*/
module FormSteps {
  import opened Heap
  import opened Counts
  import opened Arenas
  import opened Legs
  import opened Nodes
  import opened Edits
  import opened Climbs
  import opened Steps
  import opened Forms

  function GraftedAs(action: Action, f: Form): Grafted {
    if action == Popped then Pops(f) else Fits(f)
  }

  /** `e`, which is what the edit made of the node at depth `d`, has the form that `Graft` gives. */
  ghost predicate Tracks(c: Edit, h: Heap, d: nat, depth: nat, action: Action, e: Id, base: Grafted) {
    && Shape(c.h0) && Shape(h) && d <= depth < |c.stack| && e in h && c.stack[d] in c.h0
    && HasLeg(c.back, FormOf(c.h0, c.stack[d]), depth - d)
    && GraftedAs(action, FormOf(h, e)) == Graft(c.back, FormOf(c.h0, c.stack[d]), depth - d, base)
  }

  /** A node of a leg: its kids but for the outermost one, and that one. */
  lemma NodeKids(h: Heap, back: bool, x: Id)
    requires Shape(h) && x in h && h[x].rep.Btree? && h[x].rep.Out() != []
    ensures
      var es, k := h[x].rep.Out(), h[x].rep.height;
      && AllEdges(h, k, Inner(back, es)) && Outer(back, es) in h && AllEdges(h, k, es)
      && FormOf(h, x) == Node(FormsOf(h, k, es)) && |FormsOf(h, k, es)| == |es|
      && Rest(back, FormsOf(h, k, es)) == FormsOf(h, k, Inner(back, es))
      && End(back, FormsOf(h, k, es)) == FormOf(h, Outer(back, es))
  {
    hide RepOk, FormOf, FormsOf;
    var es, k := h[x].rep.Out(), h[x].rep.height;
    NodeForm(h, x);
    InnerIn(back, es);
    SplitOuter(back, es);
    assert IsEdge(h, k, Outer(back, es));
    FormsOne(h, k, Outer(back, es));
    FormsJoin(h, k, back, Inner(back, es), [Outer(back, es)]);
    RestJoin(back, FormsOf(h, k, Inner(back, es)), FormOf(h, Outer(back, es)));
  }

  lemma {:induction false} LegForm(h: Heap, back: bool, stack: seq<Id>, d: nat, depth: nat)
    requires Shape(h) && Leg(h, back, stack) && d <= depth < |stack|
    ensures HasLeg(back, FormOf(h, stack[d]), depth - d)
    decreases depth - d
  {
    hide RepOk, FormsOf;
    NodeForm(h, stack[d]);
    if d < depth {
      LegForm(h, back, stack, d + 1, depth);
      NodeKids(h, back, stack[d]);
      assert Outer(back, h[stack[d]].rep.Out()) == stack[d + 1];
    }
  }

  lemma TracksStart(c: Edit, h: Heap, held: multiset<Id>, d: nat, action: Action, e: Id)
    requires State(c, h, held, d, action, e)
    ensures Shape(h) && e in h && Tracks(c, h, d, d, action, e, GraftedAs(action, FormOf(h, e)))
  {
    hide Inv, RepOk, AllSettled, PrivateLeg, FormOf, Leaves;
    InvShape(h, held);
    InvShape(c.h0, c.held0);
    LegForm(c.h0, c.back, c.stack, d, d);
  }

  /** Cells above level `k`. */
  ghost function High(h: Heap, k: nat): set<Id> {
    set x | x in h && h[x].rep.Level() > k
  }

  lemma HighClosed(h: Heap, k: nat)
    requires Shape(h)
    ensures Closed(h, High(h, k))
  {
    hide RepOk;
    forall x, e | x in h && x !in High(h, k) && e in h[x].rep.Out() ensures e !in High(h, k) {
      LevelDown(h, x, e);
    }
  }

  lemma LevelDown(h: Heap, x: Id, e: Id)
    requires Shape(h) && x in h && e in h[x].rep.Out()
    ensures e in h && h[e].rep.Level() <= h[x].rep.Level()
  {
    assert RepOk(h, h[x].rep);
    if h[x].rep.Btree? {
      assert IsEdge(h, h[x].rep.height, e);
    }
  }

  /** Edges keep their forms when nothing at their level or below is written. */
  lemma FormsKept(h: Heap, h': Heap, k: nat, es: seq<Id>)
    requires Shape(h) && Shape(h') && AllEdges(h, k, es) && AllEdges(h', k, es)
    requires forall x :: x in h && x in h' && h[x].rep.Level() <= k ==> Same(h[x], h'[x])
    ensures FormsOf(h', k, es) == FormsOf(h, k, es)
  {
    hide RepOk;
    HighClosed(h, k);
    forall e | e in es ensures e !in High(h, k) {
      assert IsEdge(h, k, e);
    }
    FormsFrame(h, h', High(h, k), k, es);
  }

  /** The node at depth `d` has got the edges `es` of the old node and the new edge `e`. */
  lemma EditedForm(c: Edit, h: Heap, d: nat, es: seq<Id>, e: Id, h': Heap, r: Id)
    requires Shape(c.h0) && Shape(h) && Shape(h') && Extends(c.h0, h) && d < |c.stack| && c.stack[d] in c.h0
    requires c.h0[c.stack[d]].rep.Btree?
    requires AllEdges(c.h0, c.h0[c.stack[d]].rep.height, es) && IsEdge(h, c.h0[c.stack[d]].rep.height, e)
    requires r in h' && h'[r].rep.Btree? && h'[r].rep.height == c.h0[c.stack[d]].rep.height
    requires h'[r].rep.Out() == Join(c.back, es, [e])
    requires forall x :: x in h && x in h' && h[x].rep.Level() <= c.h0[c.stack[d]].rep.height ==> Same(h[x], h'[x])
    ensures FormOf(h', r) == Node(Join(c.back, FormsOf(c.h0, c.h0[c.stack[d]].rep.height, es), [FormOf(h, e)]))
  {
    hide RepOk, FormsOf, FormOf, Join;
    var k := c.h0[c.stack[d]].rep.height;
    NodeForm(h', r);
    JoinIn(c.back, es, [e]);
    forall x | x in es ensures IsEdge(h, k, x) && IsEdge(h', k, x) {
      assert IsEdge(c.h0, k, x) && x in h'[r].rep.Out();
    }
    assert e in [e] && e in h'[r].rep.Out() && IsEdge(h', k, e);
    FormsFrame(c.h0, h, {}, k, es);
    FormsKept(h, h', k, es);
    FormsOne(h, k, e);
    FormsKept(h, h', k, [e]);
    FormsJoin(h', k, c.back, es, [e]);
  }

  lemma TracksAttach(c: Edit, h: Heap, held: multiset<Id>, d: nat, depth: nat, e: Id, base: Grafted, action: Action,
                     r: Id, h': Heap, held': multiset<Id>)
    requires d + 1 < |c.stack| && State(c, h, held, d + 1, Popped, e) && Tracks(c, h, d + 1, depth, Popped, e, base)
    requires Inv(h', held')
    requires c.stack[d] in h && h[c.stack[d]].rep.Btree?
    requires Edited(h, c.stack[d], h[c.stack[d]].rep.Out(), action, r, h')
    requires action == Popped <==> |h[c.stack[d]].rep.Out()| >= MAX_CAPACITY
    requires r in h' && NodeWithOut(h'[r].rep, h[c.stack[d]].rep.height,
                                    if action == Popped then [e] else Join(c.back, h[c.stack[d]].rep.Out(), [e]))
    ensures Tracks(c, h', d, depth, action, r, base)
  {
    hide Inv, RepOk, AllSettled, PrivateLeg, FormOf, FormsOf, Join, Leaves, HasLeg;
    InvShape(h, held);
    InvShape(h', held');
    CleanLeg(c, h, held, [e]);
    AttachFacts(c, h, held, d, e);
    var x := c.stack[d];
    var es, k := c.h0[x].rep.Out(), c.h0[x].rep.height;
    LegForm(c.h0, c.back, c.stack, d, depth);
    NodeKids(c.h0, c.back, x);
    EditedSame(h, x, h[x].rep.Out(), action, r, h');
    if action == Popped {
      JoinedNone(c.back, e);
      EditedForm(c, h, d, [], e, h', r);
      JoinedNone(c.back, FormOf(h, e));
    } else {
      EditedForm(c, h, d, es, e, h', r);
    }
  }

  lemma AttachFacts(c: Edit, h: Heap, held: multiset<Id>, d: nat, e: Id)
    requires d + 1 < |c.stack| && State(c, h, held, d + 1, Popped, e)
    ensures Ready(c) && Shape(c.h0) && Leg(c.h0, c.back, c.stack) && Extends(c.h0, h) && Clean(c, h, held, [e])
    ensures IsEdge(h, c.h0[c.stack[d]].rep.height, e) && c.h0[c.stack[d]].rep.Out() != []
    ensures Outer(c.back, c.h0[c.stack[d]].rep.Out()) == c.stack[d + 1]
  {
    hide Inv, AllSettled, PrivateLeg, Leaves;
    InvShape(c.h0, c.held0);
  }

  lemma JoinedNone<T>(back: bool, e: T)
    ensures Join(back, [], [e]) == [e]
  {
  }

  lemma EditedSame(h: Heap, node: Id, copied: seq<Id>, action: Action, r: Id, h': Heap)
    requires node in h && h[node].rep.Btree? && Edited(h, node, copied, action, r, h')
    ensures forall x :: x in h && x in h' && h[x].rep.Level() <= h[node].rep.height ==> Same(h[x], h'[x])
  {
  }

  lemma TracksReplace(c: Edit, h: Heap, held: multiset<Id>, d: nat, depth: nat, e: Id, base: Grafted, r: Id, h': Heap,
                      held': multiset<Id>, action: Action)
    requires d + 1 < |c.stack| && State(c, h, held, d + 1, Copied, e) && Tracks(c, h, d + 1, depth, Copied, e, base)
    requires Inv(h', held')
    requires c.stack[d] in h && r in h' && h[c.stack[d]].rep.Btree? && h[c.stack[d]].rep.Out() != [] && action != Popped
    requires forall x :: x in h && x in h' && x != c.stack[d] ==> Same(h[x], h'[x])
    requires NodeWithOut(h'[r].rep, h[c.stack[d]].rep.height, Join(c.back, Inner(c.back, h[c.stack[d]].rep.Out()), [e]))
    ensures Tracks(c, h', d, depth, action, r, base)
  {
    hide Inv, RepOk, AllSettled, PrivateLeg, FormOf, FormsOf, Join, Leaves, HasLeg;
    InvShape(h, held);
    InvShape(h', held');
    CleanLeg(c, h, held, [e]);
    ReplaceFacts(c, h, held, d, e);
    var x := c.stack[d];
    LegForm(c.h0, c.back, c.stack, d, depth);
    NodeKids(c.h0, c.back, x);
    EditedForm(c, h, d, Inner(c.back, c.h0[x].rep.Out()), e, h', r);
  }

  lemma ReplaceFacts(c: Edit, h: Heap, held: multiset<Id>, d: nat, e: Id)
    requires d + 1 < |c.stack| && State(c, h, held, d + 1, Copied, e)
    ensures Ready(c) && Shape(c.h0) && Leg(c.h0, c.back, c.stack) && Extends(c.h0, h) && Clean(c, h, held, [e])
    ensures IsEdge(h, c.h0[c.stack[d]].rep.height, e) && c.h0[c.stack[d]].rep.Out() != []
    ensures Outer(c.back, c.h0[c.stack[d]].rep.Out()) == c.stack[d + 1]
  {
    hide Inv, AllSettled, PrivateLeg, Leaves;
    InvShape(c.h0, c.held0);
  }

  // --- The end of an edit ------------------------------------------------------------------------------

  /** A node written in place changes the forms of the nodes above it on the leg. */
  lemma {:induction false} TracksUp(c: Edit, h: Heap, d: nat, i: nat, depth: nat, base: Grafted)
    requires Shape(c.h0) && Shape(h) && Leg(c.h0, c.back, c.stack) && i <= d <= depth < |c.stack|
    requires Closed(c.h0, Ids(c.stack[..d + 1])) && Agree(c.h0, h, Ids(c.stack[..d + 1]))
    requires forall j :: 0 <= j <= d ==> c.stack[j] in h && h[c.stack[j]].rep.Btree?
    requires forall j :: 0 <= j < d ==>
      h[c.stack[j]].rep.Out() == c.h0[c.stack[j]].rep.Out() && h[c.stack[j]].rep.height == c.h0[c.stack[j]].rep.height
    requires forall i, j :: 0 <= i && j == i + 1 && j <= d ==> c.stack[j] !in Inner(c.back, c.h0[c.stack[i]].rep.Out())
    requires Tracks(c, h, d, depth, InPlace, c.stack[d], base)
    ensures Tracks(c, h, i, depth, InPlace, c.stack[i], base)
    decreases d - i
  {
    hide RepOk, FormOf, FormsOf, Inner, Outer, HasLeg, Graft;
    if i < d {
      TracksUp(c, h, d, i + 1, depth, base);
      var x := c.stack[i];
      assert h[x].rep.Out() == c.h0[x].rep.Out();
      NodeKids(c.h0, c.back, x);
      NodeKids(h, c.back, x);
      InnerAvoidsLeg(c.h0, c.back, c.stack, d, i);
      FormsFrame(c.h0, h, Ids(c.stack[..d + 1]), c.h0[x].rep.height, Inner(c.back, c.h0[x].rep.Out()));
      TracksOneUp(c, h, i, depth, base);
    }
  }

  lemma TracksOneUp(c: Edit, h: Heap, i: nat, depth: nat, base: Grafted)
    requires Shape(c.h0) && Shape(h) && Leg(c.h0, c.back, c.stack) && i < depth < |c.stack| && c.stack[i] in h
    requires h[c.stack[i]].rep.Btree? && h[c.stack[i]].rep.Out() == c.h0[c.stack[i]].rep.Out()
    requires h[c.stack[i]].rep.height == c.h0[c.stack[i]].rep.height
    requires
      var es, k := c.h0[c.stack[i]].rep.Out(), c.h0[c.stack[i]].rep.height;
      && AllEdges(c.h0, k, Inner(c.back, es)) && AllEdges(h, k, Inner(c.back, es))
      && FormsOf(h, k, Inner(c.back, es)) == FormsOf(c.h0, k, Inner(c.back, es))
    requires Tracks(c, h, i + 1, depth, InPlace, c.stack[i + 1], base)
    ensures Tracks(c, h, i, depth, InPlace, c.stack[i], base)
  {
    hide RepOk, FormOf, FormsOf, Inner, Outer, HasLeg, Graft;
    var x := c.stack[i];
    var es, k := c.h0[x].rep.Out(), c.h0[x].rep.height;
    LegForm(c.h0, c.back, c.stack, i, depth);
    NodeKids(c.h0, c.back, x);
    NodeKids(h, c.back, x);
    assert Outer(c.back, es) == c.stack[i + 1];
    GraftFits(c.back, FormsOf(c.h0, k, es), FormsOf(h, k, es), depth - i, base);
  }

  /** If only the outermost kid has changed, and as `Graft` says, so has the node. */
  lemma GraftFits(back: bool, kids: seq<Form>, kids': seq<Form>, k: nat, base: Grafted)
    requires k > 0 && kids != [] && kids' != [] && HasLeg(back, Node(kids), k) && HasLeg(back, End(back, kids), k - 1)
    requires Rest(back, kids') == Rest(back, kids)
    requires Graft(back, End(back, kids), k - 1, base) == Fits(End(back, kids'))
    ensures Graft(back, Node(kids), k, base) == Fits(Node(kids'))
  {
    assert kids' == Join(back, Rest(back, kids'), [End(back, kids')]);
  }

  /** An edit that ended in place at depth `d`, after the lengths above were brought up to date. */
  lemma TracksInPlace(c: Edit, h: Heap, held: multiset<Id>, d: nat, depth: nat, base: Grafted, h': Heap)
    requires d < |c.stack| && State(c, h, held, d, InPlace, c.stack[d])
    requires Tracks(c, h, d, depth, InPlace, c.stack[d], base)
    requires LengthOnly(h, h') && Shape(h')
    ensures Tracks(c, h', 0, depth, InPlace, c.stack[0], base)
  {
    hide Inv, RepOk, AllSettled, PrivateLeg, FormOf, FormsOf, Inner, Outer, Leaves, HasLeg, Graft;
    InvShape(h, held);
    ClimbStart(c, h, held, d);
    InPlaceFacts(c, h, held, d);
    OwnedIsClosed(c.h0, c.held0, c.back, c.stack, d + 1);
    OwnedOnce(c.h0, c.held0, c.back, c.stack, d);
    TracksUp(c, h, d, 0, depth, base);
    assert Closed(h, {}) && AgreeEdges(h, h', {});
    FormFrame(h, h', {}, c.stack[0]);
  }

  lemma InPlaceFacts(c: Edit, h: Heap, held: multiset<Id>, d: nat)
    requires d < |c.stack| && State(c, h, held, d, InPlace, c.stack[d])
    ensures Inv(c.h0, c.held0) && OwnedLeg(c.h0, c.held0, c.back, c.stack, d + 1)
    ensures Agree(c.h0, h, Ids(c.stack[..d + 1]))
    ensures forall j :: 0 <= j <= d ==> c.stack[j] in h && h[c.stack[j]].rep.Btree?
    ensures forall j :: 0 <= j < d ==> h[c.stack[j]] == c.h0[c.stack[j]]
  {
    hide Inv, AllSettled, PrivateLeg, Leaves;
  }

  /** Forms do not change when references are given up. */
  lemma FormShrunk(h: Heap, h': Heap, x: Id)
    requires Shape(h) && Shape(h') && Shrunk(h, h') && x in h'
    ensures x in h && FormOf(h', x) == FormOf(h, x)
  {
    FormFrame(h, h', {}, x);
  }
}
