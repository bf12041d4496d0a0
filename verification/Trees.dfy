/**
Adding edges, whole trees and plain data to a tree (`add_cord_rep`, `merge`, `add_data` and what
they are made of in rep/btree.rs).
*/
module Trees {
  import opened Heap
  import opened Counts
  import opened Arenas
  import opened Substrings
  import opened Legs
  import opened Nodes
  import opened Edits
  import opened Climbs
  import opened Steps
  import opened Rebuilds
  import opened Unwinding
  import opened Forms
  import opened FormSteps
  import opened PackedTrees

  // --- What an operation promises ----------------------------------------------------------

  /** The handles of `rest` refer to the same unchanged reps with the same bytes. */
  ghost predicate Others(h: Heap, h': Heap, rest: multiset<Id>)
    requires Shape(h) && Shape(h')
  {
    forall x :: x in rest ==> x in h && x in h' && Same(h[x], h'[x]) && Bytes(h, x) == Bytes(h', x)
  }

  /**
  The operation that began in `h` has turned the handles besides `rest` into the single handle
  `r`, which holds `bytes`.
  */
  ghost predicate Outcome(h: Heap, rest: multiset<Id>, h': Heap, held': multiset<Id>, r: Id, bytes: seq<byte>)
    requires Shape(h)
  {
    && Inv(h', held') && AllSettled(h', {}) && held' == rest + multiset{r}
    && r in h' && Bytes(h', r) == bytes
    && Others(h, h', rest)
  }

  lemma OthersTrans(h: Heap, h1: Heap, h2: Heap, rest: multiset<Id>)
    requires Shape(h) && Shape(h1) && Shape(h2) && Others(h, h1, rest) && Others(h1, h2, rest)
    ensures Others(h, h2, rest)
  {
    hide Bytes;
  }

  /** Handles outside a closed set keep their meaning when only the closed set is written. */
  lemma OthersFrame(h: Heap, h': Heap, held': multiset<Id>, o: set<Id>, rest: multiset<Id>)
    requires Shape(h) && Shape(h') && Closed(h, o) && Agree(h, h', o) && Inv(h', held') && rest <= held'
    requires forall x :: x in rest ==> x in h && x !in o
    ensures Others(h, h', rest)
  {
    hide Inv, RepOk, Bytes;
    forall x | x in rest ensures x in h && x in h' && Same(h[x], h'[x]) && Bytes(h, x) == Bytes(h', x) {
      assert x in held';
      HeldIn(h', held', x);
      BytesFrame(h, h', o, x);
    }
  }

  lemma OthersIn(h: Heap, h': Heap, rest: multiset<Id>)
    requires Shape(h) && Shape(h') && Others(h, h', rest)
    ensures forall x :: x in rest ==> x in h'
  {
  }

  /** Handles keep their meaning when nothing that existed is written. */
  lemma OthersKept(h: Heap, held: multiset<Id>, n: Id, h': Heap, held': multiset<Id>, rest: multiset<Id>)
    requires Inv(h, held) && Inv(h', held') && rest <= held && rest <= held' && Kept(h, n, {}, h')
    requires forall x :: x in h ==> x < n
    ensures Shape(h) && Shape(h') && Others(h, h', rest)
  {
    hide Inv, RepOk, Bytes;
    InvShape(h, held);
    InvShape(h', held');
    forall x | x in rest ensures x in h && x in h' && Same(h[x], h'[x]) && Bytes(h, x) == Bytes(h', x) {
      BytesFrame(h, h', {}, x);
    }
  }

  /** The leaves of a finished edit hold what they held before it. */
  lemma FinishedBytes(c: Edit, h: Heap, held: multiset<Id>, r: Id)
    requires Finished(c, h, held, r) && Shape(c.h0) && AllEdges(c.h0, 0, c.added)
    ensures Shape(h) && r in h && c.stack[0] in c.h0
    ensures Bytes(h, r) == Join(c.back, Bytes(c.h0, c.stack[0]), Cat(c.h0, c.added))
  {
    hide Inv, RepOk, AllSettled, PrivateLeg, Join;
    InvShape(h, held);
    var o := Ids(c.stack[..c.s]);
    OwnedIsClosed(c.h0, c.held0, c.back, c.stack, c.s);
    var es := Leaves(h, r);
    LeavesAreData(h, r);
    LeavesAreData(c.h0, c.stack[0]);
    JoinIn(c.back, Leaves(c.h0, c.stack[0]), c.added);
    forall e | e in es ensures e in c.h0 && e in h && IsEdge(c.h0, 0, e) && e !in o {
      assert IsEdge(h, 0, e);
      assert forall i :: 0 <= i < c.s ==> c.stack[i] != e;
    }
    assert Agree(c.h0, h, o);
    CatFrame(c.h0, h, o, es);
    CatJoin(c.h0, c.back, Leaves(c.h0, c.stack[0]), c.added);
  }

  lemma FinishedOthers(c: Edit, h: Heap, held: multiset<Id>, r: Id)
    requires Finished(c, h, held, r) && Shape(c.h0) && Shape(h)
    ensures Others(c.h0, h, c.rest)
  {
    hide Inv, RepOk, AllSettled, PrivateLeg, Leaves, Bytes;
    InvShape(h, held);
    InvShape(c.h0, c.held0);
    var o := Ids(c.stack[..c.s]);
    OwnedIsClosed(c.h0, c.held0, c.back, c.stack, c.s);
    forall x | x in c.rest ensures x in c.h0 && x in h && Same(c.h0[x], h[x]) && Bytes(c.h0, x) == Bytes(h, x) {
      assert x in c.held0 - multiset{c.stack[0]} && x in held && x !in o;
      assert Agree(c.h0, h, o);
      BytesFrame(c.h0, h, o, x);
    }
  }

  lemma FinishedOutcome(c: Edit, h: Heap, held: multiset<Id>, r: Id)
    requires Finished(c, h, held, r) && Shape(c.h0) && AllEdges(c.h0, 0, c.added)
    ensures c.stack[0] in c.h0
    ensures Outcome(c.h0, c.rest, h, held, r, Join(c.back, Bytes(c.h0, c.stack[0]), Cat(c.h0, c.added)))
    ensures |Grown(c, 0)| == |Leaves(c.h0, c.stack[0])| + |c.added|
  {
    hide Inv, RepOk, AllSettled, PrivateLeg, Leaves, Bytes, Others;
    InvShape(h, held);
    FinishedBytes(c, h, held, r);
    FinishedOthers(c, h, held, r);
  }

  lemma {:induction false} LeavesOfData(h: Heap, es: seq<Id>)
    requires Shape(h) && AllEdges(h, 0, es)
    ensures LeavesOf(h, 0, es) == es
  {
    if es != [] {
      assert es[0] in es && IsEdge(h, 0, es[0]);
      LeavesOfData(h, es[1..]);
    }
  }

  /** Every data edge holds at least one byte. */
  lemma {:induction false} DataLens(h: Heap, es: seq<Id>)
    requires Shape(h) && AllEdges(h, 0, es)
    ensures |es| <= SumLen(h, es) == |Cat(h, es)|
  {
    if es != [] {
      assert es[0] in es && IsEdge(h, 0, es[0]);
      BytesOfData(h, es[0]);
      DataLens(h, es[1..]);
    }
  }

  // --- Adding one data edge --------------------------------------------------------------------

  /** An edit that starts now, on the handles besides `more`. */
  ghost function StartEdit(h: Heap, n: Id, held: multiset<Id>, back: bool, stack: seq<Id>, s: nat, more: seq<Id>,
                           added: seq<Id>, delta: nat, priv: bool): Edit
    requires stack != []
  {
    Edit(h, n, held, held - multiset{stack[0]} - multiset(more), back, stack, s, added, delta, priv)
  }

  lemma StartReady(h: Heap, n: Id, held: multiset<Id>, back: bool, stack: seq<Id>, s: nat, more: seq<Id>,
                   added: seq<Id>, delta: nat, priv: bool)
    requires Inv(h, held) && AllSettled(h, {}) && (forall x :: x in h ==> x < n)
    requires OwnedLeg(h, held, back, stack, s) && multiset{stack[0]} + multiset(more) <= held
    ensures
      var c := StartEdit(h, n, held, back, stack, s, more, added, delta, priv);
      Ready(c) && Clean(c, h, held, more)
  {
    hide Inv, AllSettled;
    var rest := held - multiset{stack[0]} - multiset(more);
    assert held == rest + multiset{stack[0]} + multiset(more);
  }

  lemma StartAttach(h: Heap, n: Id, held: multiset<Id>, back: bool, stack: seq<Id>, s: nat, es: seq<Id>, delta: nat,
                    priv: bool)
    requires Inv(h, held) && AllSettled(h, {}) && (forall x :: x in h ==> x < n)
    requires OwnedLeg(h, held, back, stack, s) && multiset{stack[0]} + multiset(es) <= held
    requires |stack| == h[stack[0]].rep.height + 1
    requires es != [] && AllEdges(h, 0, es) && SumLen(h, es) == delta
    ensures
      var c := StartEdit(h, n, held, back, stack, s, es, es, delta, priv);
      CanAttach(c, h, held, |stack| - 1, es) && h[stack[|stack| - 1]].rep.height == 0
  {
    hide Inv, AllSettled, RepOk, Clean, Ready;
    InvShape(h, held);
    StartReady(h, n, held, back, stack, s, es, es, delta, priv);
    LeavesOfData(h, es);
    assert h[stack[|stack| - 1]].rep.height == h[stack[0]].rep.height - (|stack| - 1);
  }

  /** The edit that adds the data edge `rep` at the end of a leg. */
  lemma RepStart(h: Heap, n: Id, held: multiset<Id>, back: bool, stack: seq<Id>, s: nat, rep: Id)
    requires Inv(h, held) && AllSettled(h, {}) && (forall x :: x in h ==> x < n) && OwnedLeg(h, held, back, stack, s)
    requires multiset{stack[0], rep} <= held && |stack| == h[stack[0]].rep.height + 1 && rep in h && !h[rep].rep.Btree?
    ensures
      var c := StartEdit(h, n, held, back, stack, s, [rep], [rep], h[rep].rep.Len(), false);
      && CanAttach(c, h, held, |stack| - 1, [rep]) && h[stack[|stack| - 1]].rep.height == 0
      && c.rest == held - multiset{stack[0], rep}
  {
    hide Inv, AllSettled, RepOk, Outer, CanAttach;
    assert AllEdges(h, 0, [rep]);
    assert SumLen(h, [rep]) == h[rep].rep.Len() + SumLen(h, []);
    assert multiset{stack[0], rep} == multiset{stack[0]} + multiset([rep]);
    StartAttach(h, n, held, back, stack, s, [rep], h[rep].rep.Len(), false);
    TakeTwo(held, stack[0], rep);
  }

  /** What adding the data edge `rep` at the end of a leg leads to. */
  lemma RepDone(c: Edit, rep: Id, h1: Heap, held1: multiset<Id>, action: Action, e: Id, h: Heap, held: multiset<Id>,
                r: Id)
    requires Finished(c, h, held, r) && c.added == [rep] && Shape(c.h0) && rep in c.h0 && !c.h0[rep].rep.Btree?
    requires Inv(h1, held1) && IsLeaf(h1, e, false) && Shape(h1)
    requires |c.stack| == c.h0[c.stack[0]].rep.height + 1 <= MAX_DEPTH
    requires Unwound(c, |c.stack| - 1, GraftedAs(action, FormOf(h1, e)), h, r)
    requires action == Popped ==> |c.h0[c.stack[|c.stack| - 1]].rep.Out()| == MAX_CAPACITY
    ensures c.stack[0] in c.h0
    ensures Outcome(c.h0, c.rest, h, held, r, Join(c.back, Bytes(c.h0, c.stack[0]), Bytes(c.h0, rep)))
    ensures r in h && h[r].rep.Btree? && StaysPacked(c.h0, c.back, c.stack[0], false, h, r, false)
  {
    hide Inv, RepOk, AllSettled, PrivateLeg, FormOf, Unwound, PackedTree, EndsFull, Leaves, Bytes, Outcome;
    FinishedRoot(c, h, held, r);
    assert AllEdges(c.h0, 0, [rep]);
    FinishedOutcome(c, h, held, r);
    CatOne(c.h0, rep);
    LeafIsSide(h1, c.back, e);
    UnwoundPacked(c, GraftedAs(action, FormOf(h1, e)), h, held, r);
    LegEndsFull(c.h0, c.back, c.stack);
  }

  /** Adds the data edge `rep` at the back or front of `tree`. */
  method AddCordRep(a: Arena, back: bool, tree: Id, rep: Id) returns (r: Id, aborted: bool)
    requires a.Ok() && AllSettled(a.cells, {}) && multiset{tree, rep} <= a.held
    requires tree in a.cells && a.cells[tree].rep.Btree? && a.cells[tree].rep.height <= MAX_HEIGHT
    requires rep in a.cells && !a.cells[rep].rep.Btree?
    modifies a
    ensures aborted <==> |old(Leaves(a.cells, tree))| + 1 > Pow6(MAX_DEPTH)
    ensures !aborted ==>
      a.Ok() && a.next >= old(a.next) && r in a.cells && a.cells[r].rep.Btree? && a.cells[r].rep.height <= MAX_HEIGHT
    ensures !aborted ==> Outcome(old(a.cells), old(a.held) - multiset{tree, rep}, a.cells, a.held, r,
                                 Join(back, old(Bytes(a.cells, tree)), old(Bytes(a.cells, rep))))
    ensures !aborted ==> Shape(a.cells) && Leaves(a.cells, r) == Join(back, old(Leaves(a.cells, tree)), [rep])
    ensures !aborted ==> StaysPacked(old(a.cells), back, tree, false, a.cells, r, false)
  {
    hide Inv, RepOk, State, Finished, Leaves, Bytes, AllSettled, Outcome, StaysPacked, FormOf, Unwound, Join, Outer,
      IsLeaf;
    InvShape(a.cells, a.held);
    var depth := a.cells[tree].rep.height;
    var length := a.cells[rep].rep.Len();
    var stack, s := BuildStack(a, back, tree, depth);
    ghost var c;
    var e, action;
    c, e, action := AttachRep(a, back, stack, s, depth, rep, length);
    ghost var h1, held1 := a.cells, a.held;
    StateReady(c, h1, held1, depth, action, e);
    r, aborted := Unwind(a, c, back, stack, s, depth, length, e, action);
    GrownSize(c);
    if !aborted {
      RepDone(c, rep, h1, held1, action, e, a.cells, a.held, r);
      FinishedRoot(c, a.cells, a.held, r);
    }
  }

  /** The data edge `rep` goes to the leaf at the end of the leg, or becomes a new leaf. */
  method AttachRep(a: Arena, back: bool, stack: seq<Id>, s: nat, depth: nat, rep: Id, length: nat)
    returns (ghost c: Edit, e: Id, action: Action)
    requires a.Ok() && AllSettled(a.cells, {}) && OwnedLeg(a.cells, a.held, back, stack, s) && |stack| == depth + 1
    requires multiset{stack[0], rep} <= a.held && depth == a.cells[stack[0]].rep.height
    requires rep in a.cells && !a.cells[rep].rep.Btree? && length == a.cells[rep].rep.Len()
    modifies a
    ensures c == StartEdit(old(a.cells), old(a.next), old(a.held), back, stack, s, [rep], [rep], length, false)
    ensures c.rest == old(a.held) - multiset{stack[0], rep}
    ensures a.Ok() && a.next >= old(a.next) && State(c, a.cells, a.held, depth, action, e) && IsLeaf(a.cells, e, false)
    ensures action == Popped ==> |old(a.cells)[stack[depth]].rep.Out()| == MAX_CAPACITY
  {
    hide Inv, RepOk, State, CanAttach, Edited, AllSettled, Join, Outer;
    InvShape(a.cells, a.held);
    c := StartEdit(a.cells, a.next, a.held, back, stack, s, [rep], [rep], length, false);
    RepStart(a.cells, a.next, a.held, back, stack, s, rep);
    NodeOk(a.cells, stack[depth]);
    JoinNot(back, a.cells[stack[depth]].rep.Out(), rep);
    e, action := AttachAt(a, c, depth, stack[depth], back, depth < s, rep, length);
    StateReady(c, a.cells, a.held, depth, action, e);
  }

  lemma JoinNot(back: bool, es: seq<Id>, e: Id)
    ensures Join(back, es, [e]) != []
  {
  }

  lemma GrownSize(c: Edit)
    requires Ready(c)
    ensures Shape(c.h0) && c.stack[0] in c.h0 && |Grown(c, 0)| == |Leaves(c.h0, c.stack[0])| + |c.added|
  {
    hide Inv, AllSettled;
    InvShape(c.h0, c.held0);
  }

  lemma TakeTwo(held: multiset<Id>, x: Id, y: Id)
    ensures held - multiset{x} - multiset([y]) == held - multiset{x, y}
  {
  }

  // --- Merging trees -------------------------------------------------------------------------

  /** What exchanging the handle `src` for handles on its edges `es` leaves of the heap. */
  ghost predicate Dissolved(h: Heap, src: Id, es: seq<Id>, h': Heap)
    requires src in h
  {
    && (forall x :: x in h' ==> x in h && Same(h[x], h'[x]))
    && (forall x :: x in h && x != src ==> x in h')
    && (forall x :: x in h && x != src && x !in es ==> h'[x] == h[x])
    && (h[src].rc != 1 ==> src in h')
  }

  /** Gives up `src` but keeps a handle on each of its edges. */
  method Dissolve(a: Arena, src: Id)
    requires a.Ok() && AllSettled(a.cells, {}) && src in a.held && a.cells[src].rep.Btree?
    modifies a
    ensures a.Ok() && AllSettled(a.cells, {}) && a.next == old(a.next)
    ensures a.held == old(a.held) - multiset{src} + multiset(old(a.cells)[src].rep.Out())
    ensures Dissolved(old(a.cells), src, old(a.cells)[src].rep.Out(), a.cells)
  {
    hide Inv, RepOk, AllSettled, Dissolved;
    HeldIn(a.cells, a.held, src);
    var es := a.cells[src].rep.Out();
    ghost var h := a.cells;
    if a.cells[src].rc == 1 {
      EdgesBelow(a.cells, src);
      Delete(a, src);
      DeletedDissolves(h, src, es, a.cells);
    } else {
      DissolveShared(a, src, es);
    }
    InvShape(a.cells, a.held);
    DissolvedCells(h, src, es, a.cells);
    StillSettled(h, a.cells);
  }

  lemma DeletedDissolves(h: Heap, src: Id, es: seq<Id>, h': Heap)
    requires src in h && h[src].rc == 1 && h' == h - {src}
    ensures Dissolved(h, src, es, h')
  {
  }

  lemma DissolvedCells(h: Heap, src: Id, es: seq<Id>, h': Heap)
    requires src in h && Dissolved(h, src, es, h')
    ensures forall x :: x in h' ==> x in h && Same(h[x], h'[x])
  {
  }

  /** A shared node loses a reference, and its edges gain one each. */
  method DissolveShared(a: Arena, src: Id, es: seq<Id>)
    requires a.Ok() && src in a.held && a.cells[src].rep.Btree? && a.cells[src].rc > 1 && es == a.cells[src].rep.Out()
    requires Shape(a.cells)
    modifies a
    ensures a.Ok() && a.next == old(a.next)
    ensures a.held == old(a.held) - multiset{src} + multiset(es)
    ensures Dissolved(old(a.cells), src, es, a.cells)
  {
    hide Inv, RepOk, OnlyUnreachableGone, Shrunk, SameAbove;
    ghost var h := a.cells;
    HeldIn(a.cells, a.held, src);
    EdgesBelow(a.cells, src);
    RefAll(a, es);
    ghost var h1 := a.cells;
    InBag(es, src);
    Unref(a, src);
    CopyMinus(old(a.held), multiset(es), src);
    forall x | x in h && x != src && x !in es ensures a.cells[x] == h[x] {
      InBag(es, x);
    }
  }

  lemma CopyMinus(held: multiset<Id>, more: multiset<Id>, x: Id)
    requires x in held
    ensures held + more - multiset{x} == held - multiset{x} + more
  {
  }

  lemma LegSame(h: Heap, h': Heap, back: bool, leg: seq<Id>)
    requires Leg(h, back, leg)
    requires forall i :: 0 <= i < |leg| ==> leg[i] in h' && Same(h[leg[i]], h'[leg[i]])
    ensures Leg(h', back, leg)
  {
    hide Outer;
  }

  /** The leg on which a tree is merged survives the dissolution of the other tree. */
  lemma DissolvedLeg(h: Heap, held: multiset<Id>, back: bool, stack: seq<Id>, s: nat, src: Id, es: seq<Id>, h': Heap,
                     held': multiset<Id>)
    requires Inv(h, held) && OwnedLeg(h, held, back, stack, s) && multiset{stack[0], src} <= held
    requires src in h && h[src].rep.Btree? && es == h[src].rep.Out() && Dissolved(h, src, es, h')
    requires h[stack[|stack| - 1]].rep.height == h[src].rep.height
    requires held' == held - multiset{src} + multiset(es)
    ensures OwnedLeg(h', held', back, stack, s)
    ensures forall i :: 0 <= i < |stack| ==> stack[i] in h' && Same(h[stack[i]], h'[stack[i]])
  {
    hide Inv, RepOk, Outer;
    InvShape(h, held);
    assert h[src].rc == 1 ==> (forall i :: 0 <= i < |stack| ==> stack[i] != src) by {
      LastIsNoLegNode(h, held, back, stack, src);
    }
    forall i | 0 <= i < |stack| ensures stack[i] in h && stack[i] in h' && Same(h[stack[i]], h'[stack[i]]) {
    }
    LegSame(h, h', back, stack);
    forall i | 0 <= i < s ensures h'[stack[i]].rc == 1 {
      LegAboveEdges(h, back, stack, src, i);
    }
    assert stack[0] in held - multiset{src};
  }

  lemma LastIsNoLegNode(h: Heap, held: multiset<Id>, back: bool, stack: seq<Id>, src: Id)
    requires Inv(h, held) && Leg(h, back, stack) && multiset{stack[0], src} <= held
    ensures h[src].rc == 1 ==> forall i :: 0 <= i < |stack| ==> stack[i] != src
  {
    hide EdgeBag, RepOk;
    if h[src].rc == 1 {
      LastIsHandle(h, EdgeBag(h), held, src);
      forall i | 0 <= i < |stack| ensures stack[i] != src {
        if i == 0 {
          assert multiset{stack[0], src}[src] <= held[src];
        } else {
          InnerIn(back, h[stack[i - 1]].rep.Out());
          assert stack[i - 1 + 1] in h[stack[i - 1]].rep.Out();
          EdgeBagAtLeast(h, stack[i - 1]);
          InBag(h[stack[i - 1]].rep.Out(), stack[i]);
        }
      }
    }
  }

  lemma LegAboveEdges(h: Heap, back: bool, stack: seq<Id>, src: Id, i: nat)
    requires Shape(h) && Leg(h, back, stack) && src in h && h[src].rep.Btree? && i < |stack|
    requires h[stack[|stack| - 1]].rep.height == h[src].rep.height
    ensures stack[i] !in h[src].rep.Out()
  {
    NodeOk(h, src);
    assert h[stack[i]].rep.height == h[stack[0]].rep.height - i;
    assert h[stack[|stack| - 1]].rep.height == h[stack[0]].rep.height - (|stack| - 1);
    assert !IsEdge(h, h[src].rep.height, stack[i]);
  }

  /** The leaves and bytes of edges that outlive a dissolution. */
  lemma DissolvedBytes(h: Heap, src: Id, h': Heap, x: Id)
    requires Shape(h) && Shape(h') && src in h && Dissolved(h, src, h[src].rep.Out(), h') && x in h'
    ensures x in h && Leaves(h', x) == Leaves(h, x) && Bytes(h', x) == Bytes(h, x)
  {
    BytesFrame(h, h', {}, x);
  }

  lemma DissolvedEdges(h: Heap, src: Id, h': Heap)
    requires Shape(h) && Shape(h') && src in h && h[src].rep.Btree? && Dissolved(h, src, h[src].rep.Out(), h')
    ensures
      var k, es := h[src].rep.height, h[src].rep.Out();
      AllEdges(h', k, es) && LeavesOf(h', k, es) == Leaves(h, src) && Cat(h', Leaves(h, src)) == Bytes(h, src) &&
      SumLen(h', es) == SumLen(h, es)
  {
    hide RepOk;
    var k, es := h[src].rep.height, h[src].rep.Out();
    NodeOk(h, src);
    EdgesBelow(h, src);
    forall e | e in es ensures IsEdge(h', k, e) {
      assert IsEdge(h, k, e);
    }
    BytesOfFrame(h, h', {}, k, es);
    SumLenFrame(h, h', es);
  }

  /** Moves all edges of `src` into the last node of the leg, which has room for them. */
  method MergeEdges(a: Arena, back: bool, src: Id, stack: seq<Id>, s: nat, length: nat)
    returns (ghost c: Edit, e: Id, action: Action)
    requires a.Ok() && AllSettled(a.cells, {}) && OwnedLeg(a.cells, a.held, back, stack, s)
    requires multiset{stack[0], src} <= a.held && src in a.cells && a.cells[src].rep.Btree?
    requires a.cells[src].rep.length == length
    requires a.cells[stack[|stack| - 1]].rep.height == a.cells[src].rep.height
    requires |a.cells[stack[|stack| - 1]].rep.Out()| + |a.cells[src].rep.Out()| <= MAX_CAPACITY
    modifies a
    ensures a.Ok() && a.next >= old(a.next) && c.n0 == old(a.next)
    ensures State(c, a.cells, a.held, |stack| - 1, action, e) && Shape(c.h0)
    ensures c.back == back && c.stack == stack && c.s == s && c.delta == length && !c.priv
    ensures c.rest == old(a.held) - multiset{stack[0], src} && c.added == old(Leaves(a.cells, src))
    ensures Dissolved(old(a.cells), src, old(a.cells)[src].rep.Out(), c.h0)
  {
    hide Inv, RepOk, State, CanAttach, Leaves, Bytes, Join, AllSettled, Outer, Dissolved, Clean, Ready, StartEdit;
    InvShape(a.cells, a.held);
    var node := stack[|stack| - 1];
    NodeOk(a.cells, node);
    NodeOk(a.cells, src);
    var rep := MergedNode(back, a.cells[node].rep, a.cells[src].rep);
    ghost var es: seq<Id> := a.cells[src].rep.Out();
    ghost var h, held := a.cells, a.held;
    Dissolve(a, src);
    InvShape(a.cells, a.held);
    c := StartEdit(a.cells, a.next, a.held, back, stack, s, es, Leaves(h, src), length, false);
    MergeStart(h, held, back, stack, s, src, a.cells, a.held, a.next);
    e, action := AttachAll(a, c, |stack| - 1, node, |stack| - 1 < s, rep, es);
  }

  method MergedNode(back: bool, node: Rep, src: Rep) returns (rep: Rep)
    requires IsNode(node) && IsNode(src) && |node.Out()| + |src.Out()| <= MAX_CAPACITY
    ensures NodeWith(rep, node.height, node.length + src.length, Join(back, node.Out(), src.Out()))
  {
    rep := AddEdgesFrom(back, node, src);
    rep := rep.(length := rep.length + src.length);
  }

  /** Ready to attach the edges of a dissolved tree. */
  lemma MergeStart(h: Heap, held: multiset<Id>, back: bool, stack: seq<Id>, s: nat, src: Id, h': Heap,
                   held': multiset<Id>, n: Id)
    requires Inv(h, held) && AllSettled(h, {}) && OwnedLeg(h, held, back, stack, s) && multiset{stack[0], src} <= held
    requires src in h && h[src].rep.Btree? && h[stack[|stack| - 1]].rep.height == h[src].rep.height
    requires Inv(h', held') && AllSettled(h', {}) && held' == held - multiset{src} + multiset(h[src].rep.Out())
    requires Dissolved(h, src, h[src].rep.Out(), h') && forall x :: x in h' ==> x < n
    requires Shape(h) && Shape(h')
    ensures
      var es := h[src].rep.Out();
      var c := StartEdit(h', n, held', back, stack, s, es, Leaves(h, src), h[src].rep.length, false);
      CanAttach(c, h', held', |stack| - 1, es) &&
      c == Edit(h', n, held', held - multiset{stack[0], src}, back, stack, s, Leaves(h, src),
                h[src].rep.length, false) &&
      stack[|stack| - 1] in h' && Same(h[stack[|stack| - 1]], h'[stack[|stack| - 1]])
  {
    hide Inv, RepOk, CanAttach, Leaves, Bytes, Join, AllSettled, Outer, Dissolved, Clean, Ready;
    var es := h[src].rep.Out();
    SettledSrc(h, src);
    DissolvedLeg(h, held, back, stack, s, src, es, h', held');
    DissolvedEdges(h, src, h');
    DissolvedHeld(held, stack[0], src, multiset(es));
    StartReady(h', n, held', back, stack, s, es, Leaves(h, src), h[src].rep.length, false);
    CanMerge(StartEdit(h', n, held', back, stack, s, es, Leaves(h, src), h[src].rep.length, false), es);
  }

  lemma SettledSrc(h: Heap, src: Id)
    requires AllSettled(h, {}) && src in h && h[src].rep.Btree?
    ensures h[src].rep.Out() != [] && h[src].rep.length == SumLen(h, h[src].rep.Out())
  {
    assert Settled(h, src);
  }

  lemma CanMerge(c: Edit, es: seq<Id>)
    requires Ready(c) && Clean(c, c.h0, c.held0, es) && Shape(c.h0) && es != [] && !c.priv
    requires
      var k := c.h0[c.stack[|c.stack| - 1]].rep.height;
      AllEdges(c.h0, k, es) && LeavesOf(c.h0, k, es) == c.added && SumLen(c.h0, es) == c.delta
    ensures CanAttach(c, c.h0, c.held0, |c.stack| - 1, es)
  {
  }

  lemma DissolvedHeld(held: multiset<Id>, dst: Id, src: Id, es: multiset<Id>)
    requires multiset{dst, src} <= held
    ensures multiset{dst} + es <= held - multiset{src} + es
    ensures held - multiset{src} + es - multiset{dst} - es == held - multiset{dst, src}
  {
  }

  /** Merges `src` into `dst` before or after it; both may be the same node, held twice. */
  method Merge(a: Arena, back: bool, dst: Id, src: Id) returns (r: Id, aborted: bool)
    requires a.Ok() && AllSettled(a.cells, {}) && multiset{dst, src} <= a.held
    requires dst in a.cells && a.cells[dst].rep.Btree? && a.cells[dst].rep.height <= MAX_HEIGHT
    requires src in a.cells && a.cells[src].rep.Btree? && a.cells[src].rep.height <= a.cells[dst].rep.height
    modifies a
    ensures aborted <==> |old(Leaves(a.cells, dst))| + |old(Leaves(a.cells, src))| > Pow6(MAX_DEPTH)
    ensures !aborted ==>
      a.Ok() && a.next >= old(a.next) && r in a.cells && a.cells[r].rep.Btree? && a.cells[r].rep.height <= MAX_HEIGHT
    ensures !aborted ==> Outcome(old(a.cells), old(a.held) - multiset{dst, src}, a.cells, a.held, r,
                                 Join(back, old(Bytes(a.cells, dst)), old(Bytes(a.cells, src))))
    ensures !aborted ==>
      Shape(a.cells) && Leaves(a.cells, r) == Join(back, old(Leaves(a.cells, dst)), old(Leaves(a.cells, src)))
  {
    hide Inv, RepOk, State, Finished, Leaves, Bytes, Join, AllSettled, Outcome, Outer, Dissolved;
    InvShape(a.cells, a.held);
    var length := a.cells[src].rep.length;
    var depth := a.cells[dst].rep.height - a.cells[src].rep.height;
    var stack, s := BuildStack(a, back, dst, depth);
    assert a.cells[stack[depth]].rep.height == a.cells[dst].rep.height - depth;
    ghost var h, held, n := a.cells, a.held, a.next;
    ghost var c;
    var e, action;
    if |a.cells[stack[depth]].rep.Out()| + |a.cells[src].rep.Out()| <= MAX_CAPACITY {
      c, e, action := MergeEdges(a, back, src, stack, s, length);
    } else {
      e, action := src, Popped;
      c := StartEdit(h, n, held, back, stack, s, [src], Leaves(h, src), length, false);
      PoppedStart(h, n, held, back, stack, s, src, length);
    }
    StateReady(c, a.cells, a.held, depth, action, e);
    MergeParts(c, h, held, dst, src);
    r, aborted := Unwind(a, c, back, stack, s, depth, length, e, action);
    GrownSize(c);
    if !aborted {
      FinishedRoot(c, a.cells, a.held, r);
      FinishedOutcome(c, a.cells, a.held, r);
      OutcomeSince(h, c.h0, c.rest, a.cells, a.held, r, Join(back, Bytes(h, dst), Bytes(h, src)));
    }
  }

  /** A whole tree is put beside the node of its height on the leg. */
  lemma PoppedStart(h: Heap, n: Id, held: multiset<Id>, back: bool, stack: seq<Id>, s: nat, src: Id, length: nat)
    requires Inv(h, held) && AllSettled(h, {}) && (forall x :: x in h ==> x < n)
    requires OwnedLeg(h, held, back, stack, s) && multiset{stack[0], src} <= held
    requires Shape(h) && src in h && h[src].rep.Btree? && h[src].rep.length == length
    requires h[stack[|stack| - 1]].rep.height == h[src].rep.height
    ensures
      var c := StartEdit(h, n, held, back, stack, s, [src], Leaves(h, src), length, false);
      State(c, h, held, |stack| - 1, Popped, src) && c.rest == held - multiset{stack[0], src}
  {
    hide Inv, AllSettled, Leaves, RepOk, Clean, Ready, Outer;
    assert multiset{stack[0], src} == multiset{stack[0]} + multiset([src]);
    StartReady(h, n, held, back, stack, s, [src], Leaves(h, src), length, false);
    TakeTwo(held, stack[0], src);
  }

  /** At the start of the edit of a merge nothing has changed its meaning. */
  lemma MergeParts(c: Edit, h: Heap, held: multiset<Id>, dst: Id, src: Id)
    requires Inv(h, held) && Shape(h) && Ready(c) && Shape(c.h0) && c.stack[0] == dst && dst in c.h0 && dst in h
    requires multiset{dst, src} <= held && c.rest == held - multiset{dst, src}
    requires src in h && h[src].rep.Btree? && c.added == Leaves(h, src)
    requires c.h0 == h || Dissolved(h, src, h[src].rep.Out(), c.h0)
    ensures Leaves(c.h0, dst) == Leaves(h, dst) && Bytes(c.h0, dst) == Bytes(h, dst) && Same(h[dst], c.h0[dst])
    ensures AllEdges(c.h0, 0, c.added) && Cat(c.h0, c.added) == Bytes(h, src)
    ensures Others(h, c.h0, c.rest)
  {
    hide Inv, AllSettled, Leaves, RepOk, Dissolved, OwnedLeg;
    InvShape(c.h0, c.held0);
    if c.h0 == h {
      LeavesAreData(h, src);
      OthersSelf(h, held, c.rest);
    } else {
      DissolvedEdges(h, src, c.h0);
      LeavesOfAreData(c.h0, h[src].rep.height, h[src].rep.Out());
      DissolvedBytes(h, src, c.h0, dst);
      DissolvedSame(h, src, h[src].rep.Out(), c.h0, dst);
      forall x | x in c.rest ensures x in h && x in c.h0 && Same(h[x], c.h0[x]) && Bytes(h, x) == Bytes(c.h0, x) {
        assert x in c.held0;
        DissolvedBytes(h, src, c.h0, x);
        DissolvedSame(h, src, h[src].rep.Out(), c.h0, x);
      }
    }
  }

  lemma DissolvedSame(h: Heap, src: Id, es: seq<Id>, h': Heap, x: Id)
    requires src in h && Dissolved(h, src, es, h') && x in h'
    ensures x in h && Same(h[x], h'[x])
  {
  }

  lemma OthersSelf(h: Heap, held: multiset<Id>, rest: multiset<Id>)
    requires Inv(h, held) && rest <= held
    ensures Shape(h) && Others(h, h, rest)
  {
    InvShape(h, held);
    forall x | x in rest ensures x in h {
      assert x in held;
    }
  }

  lemma OutcomeSince(h: Heap, h1: Heap, rest: multiset<Id>, h': Heap, held': multiset<Id>, r: Id, bytes: seq<byte>)
    requires Shape(h) && Shape(h1) && Others(h, h1, rest) && Outcome(h1, rest, h', held', r, bytes)
    ensures Outcome(h, rest, h', held', r, bytes)
  {
    hide Inv, AllSettled, Others;
    InvShape(h', held');
    OthersTrans(h, h1, h', rest);
  }

  /** `left` followed by `right`. */
  method MergeTrees(a: Arena, left: Id, right: Id) returns (r: Id, aborted: bool)
    requires a.Ok() && AllSettled(a.cells, {}) && multiset{left, right} <= a.held
    requires left in a.cells && a.cells[left].rep.Btree? && a.cells[left].rep.height <= MAX_HEIGHT
    requires right in a.cells && a.cells[right].rep.Btree? && a.cells[right].rep.height <= MAX_HEIGHT
    modifies a
    ensures aborted <==> |old(Leaves(a.cells, left))| + |old(Leaves(a.cells, right))| > Pow6(MAX_DEPTH)
    ensures !aborted ==>
      a.Ok() && a.next >= old(a.next) && r in a.cells && a.cells[r].rep.Btree? && a.cells[r].rep.height <= MAX_HEIGHT
    ensures !aborted ==> Outcome(old(a.cells), old(a.held) - multiset{left, right}, a.cells, a.held, r,
                                 old(Bytes(a.cells, left)) + old(Bytes(a.cells, right)))
    ensures !aborted ==>
      Shape(a.cells) && Leaves(a.cells, r) == old(Leaves(a.cells, left)) + old(Leaves(a.cells, right))
  {
    hide Inv, RepOk, Leaves, Bytes, AllSettled, Outcome;
    if a.cells[left].rep.height >= a.cells[right].rep.height {
      r, aborted := Merge(a, true, left, right);
    } else {
      assert multiset{left, right} == multiset{right, left};
      r, aborted := Merge(a, false, right, left);
    }
  }

  /** Adds `rep`, a data edge or a tree, at the back (`append`) or front (`prepend`) of `tree`. */
  method AddRep(a: Arena, back: bool, tree: Id, rep: Id) returns (r: Id, aborted: bool)
    requires a.Ok() && AllSettled(a.cells, {}) && multiset{tree, rep} <= a.held
    requires tree in a.cells && a.cells[tree].rep.Btree? && a.cells[tree].rep.height <= MAX_HEIGHT
    requires rep in a.cells && (a.cells[rep].rep.Btree? ==> a.cells[rep].rep.height <= MAX_HEIGHT)
    modifies a
    ensures aborted <==> |old(Leaves(a.cells, tree))| + |old(Leaves(a.cells, rep))| > Pow6(MAX_DEPTH)
    ensures !aborted ==>
      a.Ok() && a.next >= old(a.next) && r in a.cells && a.cells[r].rep.Btree? && a.cells[r].rep.height <= MAX_HEIGHT
    ensures !aborted ==> Outcome(old(a.cells), old(a.held) - multiset{tree, rep}, a.cells, a.held, r,
                                 Join(back, old(Bytes(a.cells, tree)), old(Bytes(a.cells, rep))))
    ensures !aborted ==>
      Shape(a.cells) && Leaves(a.cells, r) == Join(back, old(Leaves(a.cells, tree)), old(Leaves(a.cells, rep)))
  {
    hide Inv, RepOk, Bytes, AllSettled, Outcome;
    assert multiset{tree, rep} == multiset{rep, tree};
    if !a.cells[rep].rep.Btree? {
      r, aborted := AddCordRep(a, back, tree, rep);
    } else if back {
      r, aborted := MergeTrees(a, tree, rep);
    } else {
      r, aborted := MergeTrees(a, rep, tree);
    }
  }

  // --- Adding plain data -------------------------------------------------------------------------

  const FLAT_OVERHEAD: nat := 13
  const MAX_FLAT_LENGTH: nat := 4096 - FLAT_OVERHEAD
  const MIN_FLAT_LENGTH: nat := 32 - FLAT_OVERHEAD

  function RoundUp(n: nat, m: nat): nat
    requires m > 0
  {
    (n + m - 1) / m * m
  }

  /** The payload capacity of a default flat that is asked to hold `n` bytes. */
  function FlatCapacity(n: nat): (r: nat)
    ensures r >= MIN_FLAT_LENGTH && r >= (if n <= MAX_FLAT_LENGTH then n else MAX_FLAT_LENGTH)
  {
    var len := if n <= MIN_FLAT_LENGTH then MIN_FLAT_LENGTH else if n > MAX_FLAT_LENGTH then MAX_FLAT_LENGTH else n;
    var size := len + FLAT_OVERHEAD;
    RoundUp(size, if size <= 512 then 8 else 64) - FLAT_OVERHEAD
  }

  /** A flat is as small as holds what is asked for, in steps of 8 bytes, or of 64 above 512. */
  lemma CapacityRounds(n: nat)
    ensures
      var least := if n < MIN_FLAT_LENGTH then MIN_FLAT_LENGTH else if n < MAX_FLAT_LENGTH then n else MAX_FLAT_LENGTH;
      var size, step := FlatCapacity(n) + FLAT_OVERHEAD, if least + FLAT_OVERHEAD <= 512 then 8 else 64;
      size % step == 0 && least + FLAT_OVERHEAD <= size < least + FLAT_OVERHEAD + step
  {
  }

  /** The number of flats that `n` bytes need: all but the last are as large as a flat may be. */
  function FlatsFor(n: nat): nat {
    (n + MAX_FLAT_LENGTH - 1) / MAX_FLAT_LENGTH
  }

  lemma FlatsForNext(n: nat)
    ensures FlatsFor(0) == 0
    ensures 0 < n <= MAX_FLAT_LENGTH ==> FlatsFor(n) == 1
    ensures n > MAX_FLAT_LENGTH ==> FlatsFor(n) == 1 + FlatsFor(n - MAX_FLAT_LENGTH)
  {
  }

  /** A flat takes all of the data or as much as a flat may hold. */
  lemma FlatTakes(n: nat, extra: nat, taken: nat)
    requires n > 0 && taken == if n < FlatCapacity(n + extra) then n else FlatCapacity(n + extra)
    ensures 0 < taken <= n && FlatsFor(n) == 1 + FlatsFor(n - taken)
  {
    CapacityAtMost(n + extra);
    FlatsForNext(n);
    FlatsForNext(n - taken);
  }

  lemma CapacityAtMost(n: nat)
    ensures FlatCapacity(n) <= MAX_FLAT_LENGTH
  {
  }

  /** The `n` bytes of `data` that are added first. */
  function Near(back: bool, data: seq<byte>, n: nat): seq<byte>
    requires n <= |data|
  {
    if back then data[..n] else data[|data| - n..]
  }

  /** What is left of `data` when its first `n` bytes have been added. */
  function Consume(back: bool, data: seq<byte>, n: nat): seq<byte>
    requires n <= |data|
  {
    if back then data[n..] else data[..|data| - n]
  }

  lemma NearConsume(back: bool, data: seq<byte>, n: nat)
    requires n <= |data|
    ensures data == Join(back, Near(back, data, n), Consume(back, data, n))
  {
  }

  method NewFlat(a: Arena, data: seq<byte>, capacity: nat) returns (r: Id)
    requires a.Ok() && 0 < |data| <= capacity
    modifies a
    ensures a.Ok() && r == old(a.next) && a.next == r + 1 && r !in old(a.cells)
    ensures a.held == old(a.held) + multiset{r} && a.cells == old(a.cells)[r := Cell(1, Flat(data, capacity))]
  {
    hide Inv;
    var c := Cell(1, Flat(data, capacity));
    assert c.rep.Out() == [];
    r := Alloc(a, c);
  }

  /** Nothing that existed has changed; the data edges `es` are new and hold `bytes`. */
  ghost predicate Filled(h: Heap, held: multiset<Id>, n: Id, es: seq<Id>, bytes: seq<byte>, h': Heap,
                         held': multiset<Id>)
  {
    && Inv(h', held') && held' == held + multiset(es) && AllSettled(h', {})
    && Grew(h, n, h')
    && AllEdges(h', 0, es) && Cat(h', es) == bytes && OldOrNew(es, [], n)
  }

  /** All of `h` is in `h'`, and what else is there is new. */
  ghost predicate Grew(h: Heap, n: Id, h': Heap) {
    (forall x :: x in h ==> x in h' && h'[x] == h[x]) && (forall x :: x in h' && x < n ==> x in h)
  }

  lemma FilledOne(h: Heap, held: multiset<Id>, n: Id, es: seq<Id>, bytes: seq<byte>, h1: Heap, held1: multiset<Id>,
                  back: bool, r: Id, more: seq<byte>, capacity: nat, h2: Heap, held2: multiset<Id>)
    requires Filled(h, held, n, es, bytes, h1, held1) && r !in h1 && r >= n
    requires h2 == h1[r := Cell(1, Flat(more, capacity))] && held2 == held1 + multiset{r} && Inv(h2, held2)
    ensures Filled(h, held, n, Join(back, es, [r]), Join(back, bytes, more), h2, held2)
  {
    hide Inv, RepOk, Join, DataBytes, Settled, Cat, OldOrNew;
    InvShape(h1, held1);
    InvShape(h2, held2);
    JoinNew(back, es, r, n);
    JoinOuter(back, es, r);
    JoinBag(back, es, r);
    assert held2 == held + (multiset(es) + multiset{r});
    forall x | x in h2 ensures Settled(h2, x) {
      if x == r {
        DataSettled(h2, r);
      } else {
        SettledKept(h1, h2, x);
      }
    }
    forall e | e in Join(back, es, [r]) ensures IsEdge(h2, 0, e) {
      assert e != r ==> IsEdge(h1, 0, e);
    }
    FilledBytes(h1, h2, back, es, r);
  }

  lemma JoinNew(back: bool, es: seq<Id>, r: Id, n: Id)
    requires OldOrNew(es, [], n) && r >= n
    ensures OldOrNew(Join(back, es, [r]), [], n)
  {
  }

  lemma DataSettled(h: Heap, x: Id)
    requires x in h && !h[x].rep.Btree?
    ensures Settled(h, x)
  {
  }

  lemma FilledBytes(h: Heap, h': Heap, back: bool, es: seq<Id>, r: Id)
    requires Shape(h) && Shape(h') && AllEdges(h, 0, es) && r !in h && r in h' && h' == h[r := h'[r]]
    requires h'[r].rep.Flat?
    ensures Cat(h', Join(back, es, [r])) == Join(back, Cat(h, es), h'[r].rep.data)
  {
    CatFrame(h, h', {}, es);
    CatJoin(h', back, es, [r]);
    CatOne(h', r);
    BytesOfData(h', r);
  }

  /** Puts one flat with the first bytes of `data` into a free slot of `node`. */
  method FillOneFlat(a: Arena, back: bool, node: Rep, data: seq<byte>, extra: nat)
    returns (f: Id, rep: Rep, n: nat, capacity: nat)
    requires a.Ok() && IsNode(node) && data != [] && |node.Out()| < MAX_CAPACITY
    modifies a
    ensures a.Ok() && f == old(a.next) && a.next == f + 1 && f !in old(a.cells) && 0 < n <= |data|
    ensures a.held == old(a.held) + multiset{f}
    ensures a.cells == old(a.cells)[f := Cell(1, Flat(Near(back, data, n), capacity))]
    ensures NodeWith(rep, node.height, node.length, Join(back, node.Out(), [f]))
    ensures |rep.Out()| == |node.Out()| + 1 && FlatsFor(|data|) == 1 + FlatsFor(|data| - n)
    ensures capacity == FlatCapacity(|data| + extra) && n == if |data| < capacity then |data| else capacity
  {
    hide Inv, RepOk, Join, FlatsFor, FlatCapacity;
    capacity := FlatCapacity(|data| + extra);
    n := if |data| < capacity then |data| else capacity;
    FlatTakes(|data|, extra, n);
    f := NewFlat(a, Near(back, data, n), capacity);
    JoinLen(back, node.Out(), f);
    rep := Add(back, node, f);
  }

  /**
  Fills the free slots of `node`, a leaf, with flats holding as much of `data` as fits. `extra`
  is a hint for the size of the flats.
  */
  method FillLeaf(a: Arena, back: bool, node: Rep, data: seq<byte>, extra: nat)
    returns (rep: Rep, es: seq<Id>, rest: seq<byte>)
    requires a.Ok() && AllSettled(a.cells, {}) && IsNode(node) && data != [] && |node.Out()| < MAX_CAPACITY
    modifies a
    ensures a.Ok() && a.next >= old(a.next)
    ensures |rest| < |data| && es != [] && rest == Consume(back, data, |data| - |rest|)
    ensures Filled(old(a.cells), old(a.held), old(a.next), es, Near(back, data, |data| - |rest|), a.cells, a.held)
    ensures NodeWith(rep, node.height, node.length, Join(back, node.Out(), es))
    ensures rest == [] || |node.Out()| + |es| == MAX_CAPACITY
    ensures |es| + FlatsFor(|rest|) == FlatsFor(|data|)
  {
    hide Inv, RepOk, Join, Filled, Consume, Near, AllSettled, FlatsFor;
    rep, es, rest := node, [], data;
    ghost var m := 0;
    FilledNone(a.cells, a.held, a.next);
    NearNone(back, data);
    JoinEmpty(back, node.Out());
    while rest != [] && |rep.Out()| < MAX_CAPACITY
      invariant a.Ok() && a.next >= old(a.next)
      invariant 0 <= m <= |data| && |rest| == |data| - m && rest == Consume(back, data, m) && (es == [] <==> m == 0)
      invariant Filled(old(a.cells), old(a.held), old(a.next), es, Near(back, data, m), a.cells, a.held)
      invariant NodeWith(rep, node.height, node.length, Join(back, node.Out(), es))
      invariant |rep.Out()| == |node.Out()| + |es| && |es| + FlatsFor(|rest|) == FlatsFor(|data|)
      decreases |rest|
    {
      ghost var h, held := a.cells, a.held;
      var f, n, capacity;
      f, rep, n, capacity := FillOneFlat(a, back, rep, rest, extra);
      FilledOne(old(a.cells), old(a.held), old(a.next), es, Near(back, data, m), h, held,
                back, f, Near(back, rest, n), capacity, a.cells, a.held);
      NearNear(back, data, m, n);
      JoinAssoc(back, node.Out(), es, [f]);
      JoinLen(back, es, f);
      es := Join(back, es, [f]);
      rest := Consume(back, rest, n);
      m := m + n;
    }
  }

  lemma NearNone(back: bool, data: seq<byte>)
    ensures Near(back, data, 0) == [] && Consume(back, data, 0) == data
  {
  }

  lemma JoinLen(back: bool, es: seq<Id>, e: Id)
    ensures |Join(back, es, [e])| == |es| + 1
  {
  }

  lemma JoinEmpty(back: bool, es: seq<Id>)
    ensures Join(back, es, []) == es
  {
  }

  lemma NearNear(back: bool, data: seq<byte>, m: nat, n: nat)
    requires m + n <= |data|
    ensures n <= |Consume(back, data, m)|
    ensures Join(back, Near(back, data, m), Near(back, Consume(back, data, m), n)) == Near(back, data, m + n)
    ensures Consume(back, Consume(back, data, m), n) == Consume(back, data, m + n)
    ensures |Consume(back, data, m + n)| == |data| - m - n
  {
  }

  lemma FilledNone(h: Heap, held: multiset<Id>, n: Id)
    requires Inv(h, held) && AllSettled(h, {})
    ensures Filled(h, held, n, [], [], h, held)
  {
    hide Inv;
  }

  /** The result of an edit that began after some data edges had been made. */
  lemma DataOutcome(h: Heap, held: multiset<Id>, n: Id, c: Edit, h': Heap, held': multiset<Id>, r: Id, bytes: seq<byte>)
    requires Inv(h, held) && Shape(h) && Grew(h, n, c.h0) && Shape(c.h0) && Finished(c, h', held', r)
    requires AllEdges(c.h0, 0, c.added) && Cat(c.h0, c.added) == bytes && c.stack != []
    requires c.stack[0] in held && c.rest == held - multiset{c.stack[0]}
    ensures c.stack[0] in h && Outcome(h, c.rest, h', held', r, Join(c.back, Bytes(h, c.stack[0]), bytes))
  {
    hide Inv, RepOk, Finished, Bytes, Outcome, Join;
    InvShape(h, held);
    FinishedOutcome(c, h', held', r);
    GrewSame(h, n, c.h0, c.stack[0]);
    forall x | x in c.rest ensures x in h && x in c.h0 && Same(h[x], c.h0[x]) && Bytes(h, x) == Bytes(c.h0, x) {
      GrewSame(h, n, c.h0, x);
    }
    OutcomeSince(h, c.h0, c.rest, h', held', r, Join(c.back, Bytes(h, c.stack[0]), bytes));
  }

  lemma GrewSame(h: Heap, n: Id, h': Heap, x: Id)
    requires Shape(h) && Shape(h') && Grew(h, n, h') && x in h
    ensures x in h' && Same(h[x], h'[x]) && Leaves(h', x) == Leaves(h, x) && Bytes(h', x) == Bytes(h, x)
  {
    BytesFrame(h, h', {}, x);
  }

  /** How many data edges the result of an edit has. */
  lemma DataGrown(h: Heap, held: multiset<Id>, n: Id, c: Edit, bytes: seq<byte>)
    requires Inv(h, held) && Shape(h) && Grew(h, n, c.h0) && Ready(c)
    requires Shape(c.h0) && AllEdges(c.h0, 0, c.added) && Cat(c.h0, c.added) == bytes && c.stack != []
    requires c.stack[0] in h
    ensures |Grown(c, 0)| == |Leaves(h, c.stack[0])| + |c.added|
    ensures Grown(c, 0) == Join(c.back, Leaves(h, c.stack[0]), c.added)
  {
    hide Inv, RepOk, Bytes, AllSettled, Leg;
    GrewSame(h, n, c.h0, c.stack[0]);
    GrownSize(c);
  }

  lemma GrewLeg(h: Heap, held: multiset<Id>, n: Id, h': Heap, held': multiset<Id>, back: bool, stack: seq<Id>, s: nat)
    requires OwnedLeg(h, held, back, stack, s) && Grew(h, n, h') && stack[0] in held'
    ensures OwnedLeg(h', held', back, stack, s)
  {
    hide Outer;
    LegSame(h, h', back, stack);
  }

  /** The edit that adds data edges to the leaf at the end of a leg, and the edit that adds a new leaf. */
  ghost predicate DataEdit(h: Heap, held: multiset<Id>, n: Id, back: bool, stack: seq<Id>, s: nat, bytes: seq<byte>,
                           c: Edit)
  {
    && stack != [] && c.back == back && c.stack == stack && c.s == s && c.priv && c.delta == |bytes|
    && c.rest == held - multiset{stack[0]} && Shape(c.h0) && Grew(h, n, c.h0) && c.n0 >= n
    && AllEdges(c.h0, 0, c.added) && Cat(c.h0, c.added) == bytes && OldOrNew(c.added, [], n)
  }

  /** Adds data to the last leaf of the leg, which has room for some. */
  method AddDataToLeaf(a: Arena, back: bool, stack: seq<Id>, s: nat, data: seq<byte>, extra: nat)
    returns (ghost c: Edit, e: Id, action: Action, rest: seq<byte>)
    requires a.Ok() && AllSettled(a.cells, {}) && OwnedLeg(a.cells, a.held, back, stack, s)
    requires |stack| == a.cells[stack[0]].rep.height + 1 && data != []
    requires |a.cells[stack[|stack| - 1]].rep.Out()| < MAX_CAPACITY
    modifies a
    ensures a.Ok() && a.next >= c.n0 && a.next >= old(a.next) && action != Popped
    ensures |rest| < |data| && rest == Consume(back, data, |data| - |rest|)
    ensures DataEdit(old(a.cells), old(a.held), old(a.next), back, stack, s, Near(back, data, |data| - |rest|), c)
    ensures State(c, a.cells, a.held, |stack| - 1, action, e) && IsLeaf(a.cells, e, rest != [])
    ensures |c.added| + FlatsFor(|rest|) == FlatsFor(|data|)
  {
    hide Inv, RepOk, State, CanAttach, Join, AllSettled, Outer, Near, Consume, Cat, FlatsFor, Filled, DataEdit;
    InvShape(a.cells, a.held);
    ghost var h, held, n := a.cells, a.held, a.next;
    var leaf := stack[|stack| - 1];
    NodeOk(a.cells, leaf);
    var rep, es;
    rep, es, rest := FillLeaf(a, back, a.cells[leaf].rep, data, extra);
    var delta := |data| - |rest|;
    NearLen(back, data, delta);
    c := StartEdit(a.cells, a.next, a.held, back, stack, s, es, es, delta, true);
    DataStart(h, held, n, back, stack, s, es, Near(back, data, delta), a.cells, a.held, a.next);
    e, action := AttachAll(a, c, |stack| - 1, leaf, |stack| - 1 < s, rep.(length := rep.length + delta), es);
    JoinSize(back, h[leaf].rep.Out(), es);
  }

  /** A leaf that holds something; `full`: in every slot. */
  ghost predicate IsLeaf(h: Heap, x: Id, full: bool) {
    && x in h && h[x].rep.Btree? && h[x].rep.height == 0 && h[x].rep.Out() != []
    && (full ==> |h[x].rep.Out()| == MAX_CAPACITY)
  }

  lemma JoinSize<T>(back: bool, a: seq<T>, b: seq<T>)
    ensures |Join(back, a, b)| == |a| + |b|
  {
  }

  lemma NearLen(back: bool, data: seq<byte>, n: nat)
    requires n <= |data|
    ensures |Near(back, data, n)| == n && |Consume(back, data, n)| == |data| - n
  {
  }

  lemma DataStart(h: Heap, held: multiset<Id>, n: Id, back: bool, stack: seq<Id>, s: nat, es: seq<Id>, bytes: seq<byte>,
                  h': Heap, held': multiset<Id>, n': Id)
    requires OwnedLeg(h, held, back, stack, s) && |stack| == h[stack[0]].rep.height + 1 && es != []
    requires Filled(h, held, n, es, bytes, h', held') && n <= n' && forall x :: x in h' ==> x < n'
    ensures
      var c := StartEdit(h', n', held', back, stack, s, es, es, |bytes|, true);
      && CanAttach(c, h', held', |stack| - 1, es) && DataEdit(h, held, n, back, stack, s, bytes, c)
      && stack[|stack| - 1] in h' && h'[stack[|stack| - 1]] == h[stack[|stack| - 1]]
      && h[stack[|stack| - 1]].rep.height == 0
  {
    hide Inv, RepOk, CanAttach, AllSettled, Outer, Cat, SumLen;
    InvShape(h', held');
    GrewLeg(h, held, n, h', held', back, stack, s);
    DataLens(h', es);
    assert multiset{stack[0]} + multiset(es) <= held';
    StartAttach(h', n', held', back, stack, s, es, |bytes|, true);
    assert held + multiset(es) - multiset{stack[0]} - multiset(es) == held - multiset{stack[0]};
  }

  // --- New leaves --------------------------------------------------------------------------------

  /** A new leaf holding as much of `data` as fits. */
  method NewLeaf(a: Arena, back: bool, data: seq<byte>, extra: nat)
    returns (leaf: Id, ghost es: seq<Id>, rest: seq<byte>)
    requires a.Ok() && AllSettled(a.cells, {}) && data != []
    modifies a
    ensures a.Ok() && a.next >= old(a.next) && AllSettled(a.cells, {})
    ensures |rest| < |data| && rest == Consume(back, data, |data| - |rest|)
    ensures Grew(old(a.cells), old(a.next), a.cells) && a.held == old(a.held) + multiset{leaf}
    ensures AllEdges(a.cells, 0, es) && Cat(a.cells, es) == Near(back, data, |data| - |rest|)
    ensures leaf in a.cells && a.cells[leaf].rc == 1 && NodeWith(a.cells[leaf].rep, 0, |data| - |rest|, es)
    ensures IsLeaf(a.cells, leaf, rest != []) && |es| + FlatsFor(|rest|) == FlatsFor(|data|)
    ensures OldOrNew(es, [], old(a.next))
  {
    hide Inv, RepOk, Join, AllSettled, Near, Consume, Cat, Filled, Grew, FlatsFor, OldOrNew;
    var node := Btree(0, 0, 0, 0, EMPTY_SLOTS);
    ghost var h, held, n := a.cells, a.held, a.next;
    var rep;
    rep, es, rest := FillLeaf(a, back, node, data, extra);
    var length := |data| - |rest|;
    ghost var bytes := Near(back, data, length);
    NearLen(back, data, length);
    JoinFromEmpty(back, es);
    ghost var h1, held1 := a.cells, a.held;
    rep := rep.(length := length);
    LeafReady(h, held, n, es, bytes, h1, held1, rep);
    leaf := Alloc(a, Cell(1, rep));
    LeafMade(h, held, n, es, bytes, h1, held1, leaf, a.cells, a.held);
  }

  lemma LeafReady(h: Heap, held: multiset<Id>, n: Id, es: seq<Id>, bytes: seq<byte>, h1: Heap, held1: multiset<Id>,
                  rep: Rep)
    requires Filled(h, held, n, es, bytes, h1, held1) && NodeWith(rep, 0, |bytes|, es)
    ensures RepOk(h1, rep) && multiset(rep.Out()) <= held1
  {
    hide Inv, AllSettled;
  }

  lemma LeafMade(h: Heap, held: multiset<Id>, n: Id, es: seq<Id>, bytes: seq<byte>, h1: Heap, held1: multiset<Id>,
                 leaf: Id, h2: Heap, held2: multiset<Id>)
    requires Filled(h, held, n, es, bytes, h1, held1) && es != [] && leaf !in h1 && leaf >= n
    requires leaf in h2 && h2 == h1[leaf := h2[leaf]] && NodeWith(h2[leaf].rep, 0, |bytes|, es)
    requires Inv(h2, held2) && held2 == held1 - multiset(es) + multiset{leaf}
    ensures AllSettled(h2, {}) && Grew(h, n, h2) && held2 == held + multiset{leaf} && OldOrNew(es, [], n)
    ensures AllEdges(h2, 0, es) && Cat(h2, es) == bytes
  {
    hide Inv, RepOk, AllSettled, Cat, SumLen;
    InvShape(h1, held1);
    InvShape(h2, held2);
    LeafHeld(held, multiset(es), leaf);
    DataLens(h1, es);
    CatFrame(h1, h2, {}, es);
    LeafSettled(h1, h2, leaf, es);
  }

  lemma JoinFromEmpty(back: bool, es: seq<Id>)
    ensures Join(back, [], es) == es
  {
  }

  lemma LeafHeld(held: multiset<Id>, es: multiset<Id>, leaf: Id)
    ensures held + es - es + multiset{leaf} == held + multiset{leaf}
  {
  }

  lemma LeafSettled(h: Heap, h': Heap, leaf: Id, es: seq<Id>)
    requires Shape(h) && Shape(h') && AllSettled(h, {}) && AllEdges(h, 0, es) && es != []
    requires leaf !in h && leaf in h' && h' == h[leaf := h'[leaf]] && NodeWith(h'[leaf].rep, 0, SumLen(h, es), es)
    ensures AllSettled(h', {})
  {
    hide RepOk, Settled;
    forall x | x in h' ensures Settled(h', x) {
      if x == leaf {
        forall e | e in es ensures e in h {
          assert IsEdge(h, 0, e);
        }
        SumLenFrame(h, h', es);
        JustSettled(h', leaf);
      } else {
        SettledKept(h, h', x);
      }
    }
  }

  /** Puts a new leaf beside the leaf at the end of the leg. */
  method AddLeaf(a: Arena, back: bool, stack: seq<Id>, s: nat, data: seq<byte>, extra: nat)
    returns (ghost c: Edit, leaf: Id, rest: seq<byte>)
    requires a.Ok() && AllSettled(a.cells, {}) && OwnedLeg(a.cells, a.held, back, stack, s)
    requires |stack| == a.cells[stack[0]].rep.height + 1 && data != []
    modifies a
    ensures a.Ok() && a.next >= c.n0 && a.next >= old(a.next)
    ensures |rest| < |data| && rest == Consume(back, data, |data| - |rest|)
    ensures DataEdit(old(a.cells), old(a.held), old(a.next), back, stack, s, Near(back, data, |data| - |rest|), c)
    ensures State(c, a.cells, a.held, |stack| - 1, Popped, leaf) && IsLeaf(a.cells, leaf, rest != [])
    ensures |c.added| + FlatsFor(|rest|) == FlatsFor(|data|)
  {
    hide Inv, RepOk, State, Join, AllSettled, Outer, Near, Consume, Cat, FlatsFor;
    ghost var h, held, n := a.cells, a.held, a.next;
    ghost var es;
    leaf, es, rest := NewLeaf(a, back, data, extra);
    ghost var delta := |data| - |rest|;
    NearLen(back, data, delta);
    c := StartEdit(a.cells, a.next, a.held, back, stack, s, [leaf], es, delta, true);
    LeafStart(h, held, n, back, stack, s, leaf, es, delta, a.cells, a.held, a.next);
  }

  lemma LeafStart(h: Heap, held: multiset<Id>, n: Id, back: bool, stack: seq<Id>, s: nat, leaf: Id, es: seq<Id>,
                  delta: nat, h': Heap, held': multiset<Id>, n': Id)
    requires OwnedLeg(h, held, back, stack, s) && |stack| == h[stack[0]].rep.height + 1 && n <= n'
    requires Inv(h', held') && AllSettled(h', {}) && Grew(h, n, h') && held' == held + multiset{leaf}
    requires forall x :: x in h' ==> x < n'
    requires AllEdges(h', 0, es) && leaf in h' && h'[leaf].rc == 1 && NodeWith(h'[leaf].rep, 0, delta, es)
    ensures
      var c := StartEdit(h', n', held', back, stack, s, [leaf], es, delta, true);
      State(c, h', held', |stack| - 1, Popped, leaf) && c.rest == held - multiset{stack[0]} && Shape(h')
  {
    hide Inv, RepOk, AllSettled, Outer, Cat, Clean, Ready;
    InvShape(h', held');
    GrewLeg(h, held, n, h', held', back, stack, s);
    assert multiset{stack[0]} + multiset([leaf]) <= held';
    StartReady(h', n', held', back, stack, s, [leaf], es, delta, true);
    LeavesOfData(h', es);
    assert held + multiset{leaf} - multiset{stack[0]} - multiset([leaf]) == held - multiset{stack[0]};
    assert h'[stack[|stack| - 1]].rep.height == h'[stack[0]].rep.height - (|stack| - 1);
  }

  /** The leg of a private tree, all of it owned. */
  method BuildOwnedStack(a: Arena, back: bool, tree: Id, height: nat) returns (stack: seq<Id>)
    requires a.Ok() && AllSettled(a.cells, {}) && Shape(a.cells) && PrivateLeg(a.cells, back, tree) && tree in a.held
    requires height == a.cells[tree].rep.height
    ensures |stack| == height + 1 && stack[0] == tree && OwnedLeg(a.cells, a.held, back, stack, |stack|)
  {
    hide Inv, RepOk, Inner, Outer, AllSettled;
    stack := [tree];
    while |stack| <= height
      invariant 1 <= |stack| <= height + 1 && stack[0] == tree && Leg(a.cells, back, stack)
    {
      var node := StepDown(a, back, stack, height);
      stack := stack + [node];
    }
    PrivateLegOwned(a.cells, back, tree, stack);
  }

  // --- `add_data` ----------------------------------------------------------------------------------

  /** What adding the first part of `data` at the end of a leg leads to. */
  ghost predicate Added(h: Heap, held: multiset<Id>, back: bool, tree: Id, bytes: seq<byte>, h': Heap,
                        held': multiset<Id>, r: Id)
    requires Shape(h) && tree in h
  {
    && Outcome(h, held - multiset{tree}, h', held', r, Join(back, Bytes(h, tree), bytes))
    && PrivateLeg(h', back, r) && h'[r].rep.height <= MAX_HEIGHT
  }

  lemma DataAdded(h: Heap, held: multiset<Id>, n: Id, c: Edit, h': Heap, held': multiset<Id>, r: Id, bytes: seq<byte>)
    requires Inv(h, held) && Shape(h) && Finished(c, h', held', r) && h'[r].rep.height <= MAX_HEIGHT
    requires c.stack != [] && c.stack[0] in held && DataEdit(h, held, n, c.back, c.stack, c.s, bytes, c)
    ensures c.stack[0] in h && Added(h, held, c.back, c.stack[0], bytes, h', held', r)
  {
    hide Inv, RepOk, AllSettled, Outcome, Bytes, Join;
    DataOutcome(h, held, n, c, h', held', r, bytes);
  }

  /** The list `b` is `a` with something added at the end (`back`) or in front. */
  predicate Extended<T(==)>(back: bool, a: seq<T>, b: seq<T>) {
    |a| <= |b| && a == if back then b[..|a|] else b[|b| - |a|..]
  }

  lemma ExtendedTwice<T>(back: bool, a: seq<T>, b: seq<T>, c: seq<T>)
    requires Extended(back, a, b) && Extended(back, b, c)
    ensures Extended(back, a, c)
  {
  }

  lemma JoinOldOrNew(back: bool, es: seq<Id>, more: seq<Id>, n: Id)
    requires OldOrNew(more, [], n)
    ensures OldOrNew(Join(back, es, more), es, n)
  {
  }

  lemma JoinExtends<T>(back: bool, a: seq<T>, b: seq<T>)
    ensures Extended(back, a, Join(back, a, b))
  {
  }

  /** The ids in `es` are those in `old'` or have been given out since `n`. */
  ghost predicate OldOrNew(es: seq<Id>, old': seq<Id>, n: Id) {
    forall e :: e in es ==> e in old' || e >= n
  }

  /**
  The data edges of `x` are still there, and of `n` that were to be added at its end or in front,
  `r` lacks the last `m`. Those that have been added are new.
  */
  ghost predicate EdgesCounted(h: Heap, n0: Id, back: bool, x: Id, n: nat, h': Heap, r: Id, m: nat) {
    && Shape(h) && x in h && Shape(h') && r in h' && |Leaves(h', r)| + m == |Leaves(h, x)| + n
    && Extended(back, Leaves(h, x), Leaves(h', r)) && OldOrNew(Leaves(h', r), Leaves(h, x), n0)
  }

  lemma EdgesTwice(h: Heap, n0: Id, back: bool, x: Id, n: nat, h1: Heap, n1: Id, r1: Id, k: nat, h2: Heap, r2: Id,
                   m: nat)
    requires EdgesCounted(h, n0, back, x, n, h1, r1, k) && EdgesCounted(h1, n1, back, r1, k, h2, r2, m) && n0 <= n1
    ensures EdgesCounted(h, n0, back, x, n, h2, r2, m)
  {
    hide Leaves, Extended;
    ExtendedTwice(back, Leaves(h, x), Leaves(h1, r1), Leaves(h2, r2));
  }

  lemma EdgesSelf(h: Heap, n0: Id, back: bool, x: Id, n: nat)
    requires Shape(h) && x in h
    ensures EdgesCounted(h, n0, back, x, n, h, x, n)
  {
    hide Leaves;
  }

  /** The first part of `add_data`: fills the leaf of the leg and brings the stack up to date. */
  method AddDataToTree(a: Arena, back: bool, stack: seq<Id>, s: nat, data: seq<byte>, extra: nat)
    returns (r: Id, path: seq<Id>, rest: seq<byte>, aborted: bool)
    requires a.Ok() && AllSettled(a.cells, {}) && OwnedLeg(a.cells, a.held, back, stack, s)
    requires |stack| == a.cells[stack[0]].rep.height + 1 <= MAX_HEIGHT + 1 && data != []
    requires |a.cells[stack[|stack| - 1]].rep.Out()| < MAX_CAPACITY
    modifies a
    ensures |rest| < |data| && rest == Consume(back, data, |data| - |rest|)
    ensures aborted ==> |old(Leaves(a.cells, stack[0]))| + FlatsFor(|data|) > Pow6(MAX_DEPTH)
    ensures !aborted ==> a.Ok() && a.next >= old(a.next)
    ensures !aborted ==>
      Added(old(a.cells), old(a.held), back, stack[0], Near(back, data, |data| - |rest|), a.cells, a.held, r)
    ensures !aborted && rest != [] ==>
      |path| == |stack| && path[0] == r && OwnedLeg(a.cells, a.held, back, path, |path|)
    ensures !aborted && rest != [] ==> a.cells[r].rep.height + 1 == |path|
    ensures !aborted ==> StaysPacked(old(a.cells), back, stack[0], false, a.cells, r, rest != [])
    ensures !aborted ==>
      EdgesCounted(old(a.cells), old(a.next), back, stack[0], FlatsFor(|data|), a.cells, r, FlatsFor(|rest|))
  {
    hide Inv, RepOk, State, Finished, DataEdit, AllSettled, Outer, Near, Consume, Bytes, Join, Added, Unwound,
      StaysPacked, FormOf, Leaves, FlatsFor, Extended,
      OldOrNew;
    InvShape(a.cells, a.held);
    ghost var h, held, n := a.cells, a.held, a.next;
    ghost var c;
    var e, action;
    c, e, action, rest := AddDataToLeaf(a, back, stack, s, data, extra);
    var delta := |data| - |rest|;
    ghost var bytes := Near(back, data, delta);
    NearLen(back, data, delta);
    EditFacts(h, held, n, c, back, stack, s, bytes, a.cells, a.held, |stack| - 1, action, e);
    ghost var h2, held2 := a.cells, a.held;
    InvShape(h2, held2);
    if rest == [] {
      path := [];
      r, aborted := Unwind(a, c, back, stack, s, |stack| - 1, delta, e, action);
    } else {
      r, path := Propagate(a, c, back, stack, s, delta, e, action);
      aborted := false;
    }
    if !aborted {
      DataAdded(h, held, n, c, a.cells, a.held, r, bytes);
      DataPacked(h, held, n, c, bytes, h2, held2, action, e, rest != [], a.cells, a.held, r);
      FinishedRoot(c, a.cells, a.held, r);
    }
  }

  /** What a leaf of data at the end of the leg does to the tree. */
  lemma DataPacked(h: Heap, held: multiset<Id>, n: Id, c: Edit, bytes: seq<byte>, h2: Heap, held2: multiset<Id>,
                   action: Action, e: Id, full: bool, h': Heap, held': multiset<Id>, r: Id)
    requires Shape(h) && c.stack != [] && DataEdit(h, held, n, c.back, c.stack, c.s, bytes, c) && c.stack[0] in h
    requires h[c.stack[0]].rep.Btree?
    requires Shape(h2) && IsLeaf(h2, e, full) && |c.stack| == h[c.stack[0]].rep.height + 1 <= MAX_DEPTH
    requires Finished(c, h', held', r) && Unwound(c, |c.stack| - 1, GraftedAs(action, FormOf(h2, e)), h', r)
    ensures StaysPacked(h, c.back, c.stack[0], action == Popped, h', r, full)
  {
    hide Inv, RepOk, Unwound, FormOf, AllSettled, PrivateLeg, PackedTree, EndsFull, Leaves, Cat;
    var x := c.stack[0];
    LeafIsSide(h2, c.back, e);
    UnwoundPacked(c, GraftedAs(action, FormOf(h2, e)), h', held', r);
    PackedGrew(h, c.h0, c.back, x);
  }

  lemma EditFacts(h: Heap, held: multiset<Id>, n: Id, c: Edit, back: bool, stack: seq<Id>, s: nat, bytes: seq<byte>,
                  h': Heap, held': multiset<Id>, d: nat, action: Action, e: Id)
    requires Inv(h, held) && Shape(h) && DataEdit(h, held, n, back, stack, s, bytes, c)
    requires State(c, h', held', d, action, e)
    requires stack[0] in h
    ensures c.priv && c.stack == stack && c.s == s && c.back == back && c.delta == |bytes| && Ready(c) && Shape(c.h0)
    ensures stack[0] in c.h0 && c.h0[stack[0]] == h[stack[0]]
    ensures |Grown(c, 0)| == |Leaves(h, stack[0])| + |c.added| && Extended(back, Leaves(h, stack[0]), Grown(c, 0))
    ensures OldOrNew(Grown(c, 0), Leaves(h, stack[0]), n)
  {
    hide Inv, RepOk, AllSettled, Bytes, Cat, Leaves, Join, Extended, OldOrNew;
    DataGrown(h, held, n, c, bytes);
    JoinExtends(back, Leaves(h, stack[0]), c.added);
    JoinOldOrNew(back, Leaves(h, stack[0]), c.added, n);
  }

  /** One round of the second part of `add_data`: a new leaf of data goes to the end of the leg. */
  method AddLeafToTree(a: Arena, back: bool, stack: seq<Id>, s: nat, data: seq<byte>, extra: nat)
    returns (r: Id, rest: seq<byte>, aborted: bool)
    requires a.Ok() && AllSettled(a.cells, {}) && OwnedLeg(a.cells, a.held, back, stack, s)
    requires |stack| == a.cells[stack[0]].rep.height + 1 <= MAX_HEIGHT + 1 && data != []
    modifies a
    ensures |rest| < |data| && rest == Consume(back, data, |data| - |rest|)
    ensures aborted ==> |old(Leaves(a.cells, stack[0]))| + FlatsFor(|data|) > Pow6(MAX_DEPTH)
    ensures !aborted ==> a.Ok() && a.next >= old(a.next)
    ensures !aborted ==>
      Added(old(a.cells), old(a.held), back, stack[0], Near(back, data, |data| - |rest|), a.cells, a.held, r)
    ensures !aborted ==> StaysPacked(old(a.cells), back, stack[0], true, a.cells, r, rest != [])
    ensures !aborted ==>
      EdgesCounted(old(a.cells), old(a.next), back, stack[0], FlatsFor(|data|), a.cells, r, FlatsFor(|rest|))
  {
    hide Inv, RepOk, State, Finished, DataEdit, AllSettled, Outer, Near, Consume, Bytes, Join, Added, Unwound,
      StaysPacked, FormOf, Leaves, FlatsFor, Extended,
      OldOrNew;
    InvShape(a.cells, a.held);
    ghost var h, held, n := a.cells, a.held, a.next;
    ghost var c;
    var leaf;
    c, leaf, rest := AddLeaf(a, back, stack, s, data, extra);
    var delta := |data| - |rest|;
    ghost var bytes := Near(back, data, delta);
    NearLen(back, data, delta);
    EditFacts(h, held, n, c, back, stack, s, bytes, a.cells, a.held, |stack| - 1, Popped, leaf);
    ghost var h2, held2 := a.cells, a.held;
    InvShape(h2, held2);
    r, aborted := Unwind(a, c, back, stack, s, |stack| - 1, delta, leaf, Popped);
    if !aborted {
      DataAdded(h, held, n, c, a.cells, a.held, r, bytes);
      DataPacked(h, held, n, c, bytes, h2, held2, Popped, leaf, rest != [], a.cells, a.held, r);
      FinishedRoot(c, a.cells, a.held, r);
    }
  }

  lemma AddedFacts(h: Heap, held: multiset<Id>, back: bool, tree: Id, bytes: seq<byte>, h': Heap, held': multiset<Id>,
                   r: Id)
    requires Shape(h) && tree in h && Added(h, held, back, tree, bytes, h', held', r)
    ensures Inv(h', held') && Shape(h') && AllSettled(h', {}) && r in held' && r in h' && h'[r].rep.Btree?
    ensures PrivateLeg(h', back, r) && h'[r].rep.height <= MAX_HEIGHT
    ensures Bytes(h', r) == Join(back, Bytes(h, tree), bytes)
    ensures held' == held - multiset{tree} + multiset{r} && Others(h, h', held - multiset{tree})
  {
    hide Inv, AllSettled, Bytes, Join, RepOk, Others;
    InvShape(h', held');
  }

  /** Adding one part and then the next adds both. */
  lemma AddedTwice(h: Heap, held: multiset<Id>, back: bool, tree: Id, data: seq<byte>, m: nat, h1: Heap,
                   held1: multiset<Id>, r1: Id, n: nat, h2: Heap, held2: multiset<Id>, r2: Id)
    requires Shape(h) && tree in h && m + n <= |data| && Added(h, held, back, tree, Near(back, data, m), h1, held1, r1)
    requires Shape(h1) && r1 in h1 && |Consume(back, data, m)| == |data| - m
    requires Added(h1, held1, back, r1, Near(back, Consume(back, data, m), n), h2, held2, r2)
    ensures Added(h, held, back, tree, Near(back, data, m + n), h2, held2, r2)
    ensures Consume(back, Consume(back, data, m), n) == Consume(back, data, m + n)
  {
    hide Inv, AllSettled, Bytes, Join, RepOk, Others, Near, Consume, Added;
    AddedFacts(h, held, back, tree, Near(back, data, m), h1, held1, r1);
    AddedFacts(h1, held1, back, r1, Near(back, Consume(back, data, m), n), h2, held2, r2);
    NearNear(back, data, m, n);
    JoinAssoc(back, Bytes(h, tree), Near(back, data, m), Near(back, Consume(back, data, m), n));
    assert held - multiset{tree} + multiset{r1} - multiset{r1} == held - multiset{tree};
    OthersTrans(h, h1, h2, held - multiset{tree});
    assert Added(h, held, back, tree, Near(back, data, m + n), h2, held2, r2) by {
      AddedIf(h, held, back, tree, Near(back, data, m + n), h2, held2, r2);
    }
  }

  lemma AddedIf(h: Heap, held: multiset<Id>, back: bool, tree: Id, bytes: seq<byte>, h': Heap, held': multiset<Id>,
                r: Id)
    requires Shape(h) && tree in h && Inv(h', held') && Shape(h') && AllSettled(h', {}) && r in h' && h'[r].rep.Btree?
    requires PrivateLeg(h', back, r) && h'[r].rep.height <= MAX_HEIGHT
    requires Bytes(h', r) == Join(back, Bytes(h, tree), bytes)
    requires held' == held - multiset{tree} + multiset{r} && Others(h, h', held - multiset{tree})
    ensures Added(h, held, back, tree, bytes, h', held', r)
  {
    hide Inv, AllSettled, Bytes, Join, RepOk, Others;
  }

  /**
  Adds `data`, of any length, at the back or front of `tree`: first into the free slots of the
  outermost leaf, then as further leaves. After the first leaf the leg is private and stays so.
  */
  method AddData(a: Arena, back: bool, tree: Id, data: seq<byte>, extra: nat) returns (r: Id, aborted: bool)
    requires a.Ok() && AllSettled(a.cells, {}) && tree in a.held
    requires tree in a.cells && a.cells[tree].rep.Btree? && a.cells[tree].rep.height <= MAX_HEIGHT
    modifies a
    ensures aborted <==> |old(Leaves(a.cells, tree))| + FlatsFor(|data|) > Pow6(MAX_DEPTH)
    ensures !aborted ==>
      a.Ok() && a.next >= old(a.next) && r in a.cells && a.cells[r].rep.Btree? && a.cells[r].rep.height <= MAX_HEIGHT
    ensures !aborted ==> Outcome(old(a.cells), old(a.held) - multiset{tree}, a.cells, a.held, r,
                                 Join(back, old(Bytes(a.cells, tree)), data))
    ensures !aborted && data != [] ==> PrivateLeg(a.cells, back, r)
    ensures !aborted ==> StaysPacked(old(a.cells), back, tree, false, a.cells, r, false)
    ensures !aborted ==> Shape(a.cells) && |Leaves(a.cells, r)| == |old(Leaves(a.cells, tree))| + FlatsFor(|data|)
    ensures !aborted ==> Extended(back, old(Leaves(a.cells, tree)), Leaves(a.cells, r))
    ensures !aborted ==> OldOrNew(Leaves(a.cells, r), old(Leaves(a.cells, tree)), old(a.next))
  {
    hide Inv, RepOk, Outer, Near, Consume, Bytes, Join, AllSettled, Progress, Outcome, StaysPacked, EndsFull, Leaves,
      FlatsFor, Extended, OldOrNew;
    InvShape(a.cells, a.held);
    ghost var h, held, n0 := a.cells, a.held, a.next;
    r, aborted := tree, false;
    var rest := data;
    ProgressStart(h, held, back, tree, data);
    EdgesSelf(h, n0, back, tree, FlatsFor(|data|));
    StaysSelf(h, back, tree, false);
    if data != [] {
      var stack: seq<Id>, s: nat := BuildStack(a, back, tree, a.cells[tree].rep.height);
      LegRoom(h, held, back, stack, s);
      if |a.cells[stack[|stack| - 1]].rep.Out()| < MAX_CAPACITY {
        r, stack, rest, aborted := AddDataToTree(a, back, stack, s, data, extra);
        s := |stack|;
        if !aborted {
          ProgressFirst(h, held, back, tree, data, rest, a.cells, a.held, r);
        }
      }
      while rest != [] && !aborted
        invariant |rest| <= |data|
        invariant aborted ==> |Leaves(h, tree)| + FlatsFor(|data|) > Pow6(MAX_DEPTH)
        invariant !aborted ==> EdgesCounted(h, n0, back, tree, FlatsFor(|data|), a.cells, r, FlatsFor(|rest|))
        invariant !aborted ==> a.Ok() && a.next >= old(a.next)
        invariant !aborted ==> Progress(h, held, back, tree, data, rest, a.cells, a.held, r)
        invariant !aborted && rest != [] ==> OwnedLeg(a.cells, a.held, back, stack, s) && stack[0] == r
        invariant !aborted && rest != [] ==> |stack| == a.cells[r].rep.height + 1
        invariant !aborted ==> StaysPacked(h, back, tree, false, a.cells, r, rest != [])
        decreases |rest|
      {
        ghost var h1, r1 := a.cells, r;
        r, rest, aborted := AddLeafProgress(a, h, held, n0, back, tree, data, r, stack, s, rest, extra);
        if !aborted {
          StaysTwice(h, back, tree, false, h1, r1, true, a.cells, r, rest != []);
        }
        if !aborted && rest != [] {
          ProgressOwned(h, held, back, tree, data, rest, a.cells, a.held, r);
          stack := BuildOwnedStack(a, back, r, a.cells[r].rep.height);
          s := |stack|;
        }
      }
    }
    if !aborted {
      ProgressDone(h, held, back, tree, data, a.cells, a.held, r);
      FlatsForNext(0);
      WithinBound(a.cells, r);
    }
  }

  /** If the leaf at the end of the leg has no room, the leg ends in a full leaf. */
  lemma LegRoom(h: Heap, held: multiset<Id>, back: bool, stack: seq<Id>, s: nat)
    requires Inv(h, held) && OwnedLeg(h, held, back, stack, s) && |stack| == h[stack[0]].rep.height + 1
    ensures stack[|stack| - 1] in h && h[stack[|stack| - 1]].rep.Btree? && Shape(h)
    ensures |h[stack[|stack| - 1]].rep.Out()| >= MAX_CAPACITY ==>
      StaysPacked(h, back, stack[0], false, h, stack[0], true)
  {
    hide Inv, RepOk, EndsFull, StaysPacked;
    InvShape(h, held);
    NodeOk(h, stack[|stack| - 1]);
    LegEndsFull(h, back, stack);
    if |h[stack[|stack| - 1]].rep.Out()| >= MAX_CAPACITY {
      StaysSelf(h, back, stack[0], true);
    }
  }

  /** All but `rest` of `data` has been added; then the leg of the tree is private. */
  ghost predicate Progress(h: Heap, held: multiset<Id>, back: bool, tree: Id, data: seq<byte>, rest: seq<byte>,
                           h': Heap, held': multiset<Id>, r: Id)
    requires Shape(h) && tree in h
  {
    && Inv(h', held') && AllSettled(h', {}) && Shape(h') && r in held' && r in h' && h'[r].rep.Btree?
    && h'[r].rep.height <= MAX_HEIGHT
    && |rest| <= |data| && rest == Consume(back, data, |data| - |rest|)
    && if rest == data then h' == h && held' == held && r == tree
       else Added(h, held, back, tree, Near(back, data, |data| - |rest|), h', held', r)
  }

  lemma ProgressStart(h: Heap, held: multiset<Id>, back: bool, tree: Id, data: seq<byte>)
    requires Inv(h, held) && Shape(h) && AllSettled(h, {}) && tree in held && tree in h
    requires h[tree].rep.Btree? && h[tree].rep.height <= MAX_HEIGHT
    ensures Progress(h, held, back, tree, data, data, h, held, tree)
  {
    hide Inv, AllSettled, Added;
  }

  lemma ProgressFirst(h: Heap, held: multiset<Id>, back: bool, tree: Id, data: seq<byte>, rest: seq<byte>, h': Heap,
                      held': multiset<Id>, r: Id)
    requires Shape(h) && tree in h && |rest| < |data| && rest == Consume(back, data, |data| - |rest|)
    requires Added(h, held, back, tree, Near(back, data, |data| - |rest|), h', held', r)
    ensures Progress(h, held, back, tree, data, rest, h', held', r)
  {
    hide Inv, AllSettled, Added, Bytes, Near, Consume;
    AddedFacts(h, held, back, tree, Near(back, data, |data| - |rest|), h', held', r);
  }

  lemma ProgressOwned(h: Heap, held: multiset<Id>, back: bool, tree: Id, data: seq<byte>, rest: seq<byte>, h': Heap,
                      held': multiset<Id>, r: Id)
    requires Shape(h) && tree in h && |rest| < |data| && Progress(h, held, back, tree, data, rest, h', held', r)
    ensures Shape(h') && AllSettled(h', {}) && r in held' && PrivateLeg(h', back, r)
  {
    hide Inv, AllSettled, Added, Bytes, Near, Consume;
    AddedFacts(h, held, back, tree, Near(back, data, |data| - |rest|), h', held', r);
  }

  lemma ProgressDone(h: Heap, held: multiset<Id>, back: bool, tree: Id, data: seq<byte>, h': Heap, held': multiset<Id>,
                     r: Id)
    requires Inv(h, held) && Shape(h) && tree in held && tree in h
    requires Progress(h, held, back, tree, data, [], h', held', r)
    ensures r in h' && h'[r].rep.Btree? && h'[r].rep.height <= MAX_HEIGHT && Shape(h')
    ensures Outcome(h, held - multiset{tree}, h', held', r, Join(back, Bytes(h, tree), data))
    ensures data != [] ==> PrivateLeg(h', back, r)
  {
    hide Inv, AllSettled, Bytes, Others, PrivateLeg;
    if data == [] {
      assert held - multiset{tree} + multiset{tree} == held;
      OthersSelf(h, held, held - multiset{tree});
    } else {
      assert Near(back, data, |data|) == data;
    }
  }

  lemma ProgressNext(h: Heap, held: multiset<Id>, back: bool, tree: Id, data: seq<byte>, rest: seq<byte>, h1: Heap,
                     held1: multiset<Id>, r1: Id, rest': seq<byte>, h2: Heap, held2: multiset<Id>, r2: Id)
    requires Shape(h) && tree in h && Progress(h, held, back, tree, data, rest, h1, held1, r1)
    requires |rest'| < |rest| && rest' == Consume(back, rest, |rest| - |rest'|)
    requires Added(h1, held1, back, r1, Near(back, rest, |rest| - |rest'|), h2, held2, r2)
    ensures Progress(h, held, back, tree, data, rest', h2, held2, r2)
  {
    hide Inv, AllSettled, Added, Bytes, Near, Consume;
    if rest == data {
      ProgressFirst(h, held, back, tree, data, rest', h2, held2, r2);
    } else {
      AddedTwice(h, held, back, tree, data, |data| - |rest|, h1, held1, r1, |rest| - |rest'|, h2, held2, r2);
      ProgressFirst(h, held, back, tree, data, rest', h2, held2, r2);
    }
  }

  method AddLeafProgress(a: Arena, ghost h: Heap, ghost held: multiset<Id>, ghost n0: Id,
                         back: bool, ghost tree: Id, ghost data: seq<byte>, r0: Id, stack: seq<Id>, s: nat,
                         rest0: seq<byte>, extra: nat)
    returns (r: Id, rest: seq<byte>, aborted: bool)
    requires a.Ok() && OwnedLeg(a.cells, a.held, back, stack, s) && stack[0] == r0
    requires |stack| == a.cells[r0].rep.height + 1 && rest0 != [] && n0 <= a.next
    requires Shape(h) && tree in h && Progress(h, held, back, tree, data, rest0, a.cells, a.held, r0)
    requires EdgesCounted(h, n0, back, tree, FlatsFor(|data|), a.cells, r0, FlatsFor(|rest0|))
    modifies a
    ensures |rest| < |rest0| <= |data|
    ensures aborted ==> |Leaves(h, tree)| + FlatsFor(|data|) > Pow6(MAX_DEPTH)
    ensures !aborted ==> a.Ok() && a.next >= old(a.next)
    ensures !aborted ==> Progress(h, held, back, tree, data, rest, a.cells, a.held, r)
    ensures !aborted ==> StaysPacked(old(a.cells), back, r0, true, a.cells, r, rest != [])
    ensures !aborted ==> EdgesCounted(h, n0, back, tree, FlatsFor(|data|), a.cells, r, FlatsFor(|rest|))
  {
    hide Inv, AllSettled, Added, Bytes, Consume, Near, Outer, StaysPacked, Leaves, FlatsFor, Extended,
      OldOrNew;
    ghost var h1, held1, n1 := a.cells, a.held, a.next;
    r, rest, aborted := AddLeafToTree(a, back, stack, s, rest0, extra);
    if !aborted {
      EdgesTwice(h, n0, back, tree, FlatsFor(|data|), h1, n1, r0, FlatsFor(|rest0|), a.cells, r, FlatsFor(|rest|));
      ProgressNext(h, held, back, tree, data, rest0, h1, held1, r0, rest, a.cells, a.held, r);
    }
  }
}
