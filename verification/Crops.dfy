/**
Removing a suffix of a tree (`remove_suffix` of rep/btree.rs): nodes whose whole path is private
are cropped in place, shared ones are copied.
*/
module Crops {
  import opened Heap
  import opened Counts
  import opened Arenas
  import opened Substrings
  import opened Legs
  import opened Nodes
  import opened Edits
  import opened Rebuilds
  import opened Unwinding
  import opened Trees
  import opened Indexing
  import opened Copies
  import opened SubTrees

  // --- Cropping a node in place ------------------------------------------------------------------

  /** The node with its edges from slot `end` on dropped. */
  function CroppedRep(rep: Rep, end: nat, length: nat): (r: Rep)
    requires IsNode(rep) && rep.begin <= end <= rep.end
    ensures NodeWith(r, rep.height, length, rep.slots[rep.begin..end])
  {
    rep.(end := end, length := length)
  }

  /** `x` has been cropped and what nothing else kept alive has been freed. */
  ghost predicate Cropped(h: Heap, x: Id, end: nat, length: nat, h': Heap)
    requires x in h && IsNode(h[x].rep) && h[x].rep.begin <= end <= h[x].rep.end
  {
    var h1 := h[x := Cell(h[x].rc, CroppedRep(h[x].rep, end, length))];
    Shrunk(h1, h') && SameAbove(h1, h[x].rep.Rank(), h')
  }

  /** Crops node `x` and gives up the edges it loses. */
  method CropNode(a: Arena, x: Id, end: nat, length: nat)
    requires a.Ok() && x in a.cells && IsNode(a.cells[x].rep) && a.cells[x].rep.begin <= end <= a.cells[x].rep.end
    modifies a
    ensures a.Ok() && a.next == old(a.next) && a.held == old(a.held)
    ensures Cropped(old(a.cells), x, end, length, a.cells)
  {
    hide Inv, RepOk;
    InvShape(a.cells, a.held);
    NodeOk(a.cells, x);
    var rep := a.cells[x].rep;
    var lost: seq<Id> := rep.slots[end..rep.end];
    ghost var kept := rep.slots[rep.begin..end];
    assert rep.Out() == kept + lost;
    EdgesBelow(a.cells, x);
    CropOk(a.cells, rep, end, length);
    CropBag(a.held, kept, lost);
    forall e | e in lost ensures e in a.cells && e != x && a.cells[e].rep.Rank() < rep.Rank() {
      assert e in rep.Out();
    }
    WriteNode(a, x, Cell(a.cells[x].rc, CroppedRep(rep, end, length)));
    UnrefEdges(a, lost, rep.Rank());
    CropHeld(old(a.held), multiset(lost));
  }

  lemma CropHeld(held: multiset<Id>, lost: multiset<Id>)
    ensures held + lost - lost == held
  {
  }

  lemma CropBag(held: multiset<Id>, kept: seq<Id>, lost: seq<Id>)
    ensures multiset(kept) <= held + multiset(kept + lost)
    ensures held + multiset(kept + lost) - multiset(kept) == held + multiset(lost)
  {
    assert multiset(kept + lost) == multiset(kept) + multiset(lost);
  }

  lemma CropOk(h: Heap, rep: Rep, end: nat, length: nat)
    requires IsNode(rep) && rep.begin <= end <= rep.end && RepOk(h, rep)
    ensures RepOk(h, CroppedRep(rep, end, length))
  {
    var r := CroppedRep(rep, end, length);
    forall e | e in r.Out() ensures e in rep.Out() {
      var i :| 0 <= i < |r.Out()| && r.Out()[i] == e;
      assert rep.Out()[i] == e;
    }
  }

  /** A crop at the end of an owned leg changes nothing else of the leg. */
  lemma CroppedLeg(h: Heap, held: multiset<Id>, leg: seq<Id>, end: nat, length: nat, h': Heap)
    requires Inv(h, held) && OwnedLeg(h, held, true, leg, |leg|) && Inv(h', held)
    requires
      var x := leg[|leg| - 1];
      IsNode(h[x].rep) && h[x].rep.begin <= end <= h[x].rep.end && Cropped(h, x, end, length, h')
    ensures OwnedLeg(h', held, true, leg, |leg|)
    ensures leg[|leg| - 1] in h' && forall i :: 0 <= i < |leg| - 1 ==> leg[i] in h' && h'[leg[i]] == h[leg[i]]
    ensures h'[leg[|leg| - 1]] == Cell(1, CroppedRep(h[leg[|leg| - 1]].rep, end, length))
  {
    hide Inv, Outer, CroppedRep;
    InvShape(h', held);
    var d := |leg| - 1;
    var x := leg[d];
    forall i | 0 <= i < d ensures leg[i] in h' && h'[leg[i]] == h[leg[i]] {
      LegDistinct(h, true, leg, i, d);
      assert h[leg[i]].rep.height == h[leg[0]].rep.height - i;
      assert h[x].rep.height == h[leg[0]].rep.height - d;
    }
    if d == 0 {
      HeldIn(h', held, x);
    } else {
      InnerIn(true, h[leg[d - 1]].rep.Out());
      assert leg[d - 1 + 1] == x;
      EdgeIn(h', leg[d - 1], x);
    }
    CountsPositive(h', held);
    CropLegSame(h, h', leg);
  }

  lemma CropLegSame(h: Heap, h': Heap, leg: seq<Id>)
    requires Leg(h, true, leg) && leg[|leg| - 1] in h' && h'[leg[|leg| - 1]].rep.Btree?
    requires h'[leg[|leg| - 1]].rep.height == h[leg[|leg| - 1]].rep.height
    requires forall i :: 0 <= i < |leg| - 1 ==> leg[i] in h' && h'[leg[i]] == h[leg[i]]
    ensures Leg(h', true, leg)
  {
    hide Outer;
  }

  /** What a crop takes from the top of the leg. */
  lemma CroppedBytes(h: Heap, held: multiset<Id>, leg: seq<Id>, end: nat, length: nat, h': Heap)
    requires Inv(h, held) && OwnedLeg(h, held, true, leg, |leg|) && Inv(h', held) && Shape(h) && Shape(h')
    requires
      var x := leg[|leg| - 1];
      IsNode(h[x].rep) && h[x].rep.begin <= end <= h[x].rep.end && Cropped(h, x, end, length, h')
    ensures
      var node := h[leg[|leg| - 1]].rep;
      && AllEdges(h, node.height, node.slots[end..node.end]) && leg[0] in h'
      && Bytes(h, leg[0]) == Bytes(h', leg[0]) + BytesOf(h, node.height, node.slots[end..node.end])
    ensures Others(h, h', held - multiset{leg[0]})
  {
    hide Inv, Outer, Inner, RepOk, Bytes, BytesOf, CroppedRep;
    CroppedLeg(h, held, leg, end, length, h');
    var o := Ids(leg);
    assert leg[..|leg|] == leg;
    OwnedIsClosed(h, held, true, leg, |leg|);
    assert Agree(h, h', o) by { CroppedAgree(h, held, leg, end, length, h'); }
    CroppedLeaves(h, held, leg, end, length, h');
    forall x | x in held - multiset{leg[0]}
      ensures x in h && x in h' && Same(h[x], h'[x]) && Bytes(h, x) == Bytes(h', x)
    {
      assert x in held && x !in o;
      HeldIn(h, held, x);
      HeldIn(h', held, x);
      BytesFrame(h, h', o, x);
    }
  }

  lemma CroppedAgree(h: Heap, held: multiset<Id>, leg: seq<Id>, end: nat, length: nat, h': Heap)
    requires Leg(h, true, leg)
    requires
      var x := leg[|leg| - 1];
      IsNode(h[x].rep) && h[x].rep.begin <= end <= h[x].rep.end && Cropped(h, x, end, length, h')
    ensures Agree(h, h', Ids(leg)) && Agree(h', h, Ids(leg))
    ensures forall y :: y in h' ==> y in h && h[y].rep.Level() == h'[y].rep.Level()
  {
    assert leg[|leg| - 1] in Ids(leg);
  }

  lemma CroppedLeaves(h: Heap, held: multiset<Id>, leg: seq<Id>, end: nat, length: nat, h': Heap)
    requires Inv(h, held) && OwnedLeg(h, held, true, leg, |leg|) && Inv(h', held) && Shape(h) && Shape(h')
    requires Agree(h, h', Ids(leg)) && Closed(h, Ids(leg))
    requires
      var x := leg[|leg| - 1];
      IsNode(h[x].rep) && h[x].rep.begin <= end <= h[x].rep.end && Cropped(h, x, end, length, h')
    ensures
      var node := h[leg[|leg| - 1]].rep;
      && AllEdges(h, node.height, node.slots[end..node.end]) && leg[0] in h'
      && Bytes(h, leg[0]) == Bytes(h', leg[0]) + BytesOf(h, node.height, node.slots[end..node.end])
  {
    hide Inv, Outer, Inner, RepOk, CroppedRep, Cropped, Leaves, LeavesOf;
    CroppedLeg(h, held, leg, end, length, h');
    CroppedAgree(h, held, leg, end, length, h');
    var d := |leg| - 1;
    var node := h[leg[d]].rep;
    var k, lost := node.height, node.slots[end..node.end];
    assert leg[..d + 1] == leg;
    OwnedIsClosed(h', held, true, leg, d + 1);
    forall e | e in node.Out() ensures e !in Ids(leg) {
      LegAvoids(h, leg, e);
    }
    CroppedNode(h, h', Ids(leg), leg[d], end);
    OwnedGrows(h', held, h, true, leg, d, LeavesOf(h, k, lost));
    CatAppend(h, Leaves(h', leg[0]), LeavesOf(h, k, lost));
    LeavesKeptBytes(h, h', Ids(leg), leg[0]);
  }

  lemma CroppedNode(h: Heap, h': Heap, o: set<Id>, x: Id, end: nat)
    requires Shape(h) && Shape(h') && Closed(h', o) && Agree(h', h, o) && x in h && x in h'
    requires IsNode(h[x].rep) && h[x].rep.begin <= end <= h[x].rep.end && h'[x].rep.Btree?
    requires h'[x].rep.height == h[x].rep.height && h'[x].rep.Out() == h[x].rep.slots[h[x].rep.begin..end]
    requires forall e :: e in h[x].rep.Out() ==> e !in o
    ensures
      var lost := h[x].rep.slots[end..h[x].rep.end];
      AllEdges(h, h[x].rep.height, lost) && Leaves(h, x) == Leaves(h', x) + LeavesOf(h, h[x].rep.height, lost)
  {
    hide RepOk, Leaves, LeavesOf;
    var node := h[x].rep;
    var k, kept, lost := node.height, node.slots[node.begin..end], node.slots[end..node.end];
    assert node.Out() == kept + lost;
    LeavesOfNode(h, x);
    LeavesOfNode(h', x);
    PartsAllEdges(h, k, kept, lost);
    LeavesOfAppend(h, k, kept, lost);
    LeavesOfFrame(h', h, o, k, kept);
  }

  /** Edges of the last node of a leg are below the leg. */
  lemma LegAvoids(h: Heap, leg: seq<Id>, e: Id)
    requires Shape(h) && Leg(h, true, leg) && e in h[leg[|leg| - 1]].rep.Out()
    ensures e !in Ids(leg)
  {
    forall i | 0 <= i < |leg| ensures leg[i] != e {
      LegAboveEdges(h, true, leg, leg[|leg| - 1], i);
    }
  }

  lemma LeavesKeptBytes(h: Heap, h': Heap, o: set<Id>, x: Id)
    requires Shape(h) && Shape(h') && Closed(h, o) && Agree(h, h', o) && x in h'
    requires forall y :: y in h' ==> y in h && h[y].rep.Level() == h'[y].rep.Level()
    requires forall y :: y in o && y in h ==> h[y].rep.Btree?
    ensures Cat(h, Leaves(h', x)) == Bytes(h', x)
  {
    LeavesAreData(h', x);
    forall e | e in Leaves(h', x) ensures IsEdge(h, 0, e) && e !in o {
      assert IsEdge(h', 0, e);
    }
    CatFrame(h, h', o, Leaves(h', x));
  }

  // --- The state between two rounds ----------------------------------------------------------------

  /** Node `x` stores the length it would have if only `n` bytes of its last edge counted. */
  ghost predicate OverLong(h: Heap, x: Id, n: nat)
    requires x in h
  {
    && h[x].rep.Btree? && h[x].rep.Out() != []
    && Outer(true, h[x].rep.Out()) in h && 0 < n <= h[Outer(true, h[x].rep.Out())].rep.Len()
    && h[x].rep.length == SumLen(h, Inner(true, h[x].rep.Out())) + n
  }

  /**
  The leg `leg` is private; all of it but its last node, which is over-long, has its final length.
  Without what is too much, the tree is `want`. The handles of `rest` are as in `h0`.
  */
  ghost predicate Cropping(h0: Heap, rest: multiset<Id>, want: seq<byte>, h: Heap, held: multiset<Id>, leg: seq<Id>,
                           n: nat)
    requires Shape(h0)
  {
    && Inv(h, held) && Shape(h) && leg != [] && held == rest + multiset{leg[0]}
    && OwnedLeg(h, held, true, leg, |leg|) && AllSettled(h, {leg[|leg| - 1]}) && OverLong(h, leg[|leg| - 1], n)
    && Others(h0, h, rest)
    && n <= |Bytes(h, Outer(true, h[leg[|leg| - 1]].rep.Out()))|
    && Bytes(h, leg[0]) == want + Consume(true, Bytes(h, Outer(true, h[leg[|leg| - 1]].rep.Out())), n)
  }

  /** With the last edge in full, the tree is finished. */
  lemma CropDone(h0: Heap, rest: multiset<Id>, want: seq<byte>, h: Heap, held: multiset<Id>, leg: seq<Id>, n: nat)
    requires Shape(h0) && Cropping(h0, rest, want, h, held, leg, n)
    requires n == h[Outer(true, h[leg[|leg| - 1]].rep.Out())].rep.Len()
    ensures Outcome(h0, rest, h, held, leg[0], want)
  {
    hide Inv, Inner, Outer, Join, Bytes;
    var x := leg[|leg| - 1];
    var es := h[x].rep.Out();
    SplitOuter(true, es);
    SumLenJoin(h, true, Inner(true, es), [Outer(true, es)]);
    assert SumLen(h, [Outer(true, es)]) == h[Outer(true, es)].rep.Len() + SumLen(h, []);
    JustSettled(h, x);
    LastLen(h, x);
    assert want + [] == want;
  }

  lemma LastLen(h: Heap, x: Id)
    requires Shape(h) && AllSettled(h, {x}) && x in h && h[x].rep.Btree? && h[x].rep.Out() != []
    ensures SettledTo(h, {x}, h[x].rep.height)
    ensures
      var e := Outer(true, h[x].rep.Out());
      IsEdge(h, h[x].rep.height, e) && h[e].rep.Len() == |Bytes(h, e)|
  {
    hide Outer, Bytes;
    InnerIn(true, h[x].rep.Out());
    NodeOk(h, x);
    LenIsBytesTo(h, {x}, h[x].rep.height, Outer(true, h[x].rep.Out()));
  }

  /** The window of a cropped node. */
  lemma CroppedWindow(rep: Rep, index: nat, length: nat)
    requires IsNode(rep) && rep.begin <= index < rep.end
    ensures
      var out := CroppedRep(rep, index + 1, length).Out();
      out != [] && Outer(true, out) == rep.slots[index] && Inner(true, out) == rep.slots[rep.begin..index]
  {
  }

  lemma CropOverLong(h: Heap, h': Heap, x: Id, index: nat, m: nat, n: nat)
    requires Shape(h) && Shape(h') && x in h && IsNode(h[x].rep) && h[x].rep.begin <= index < h[x].rep.end
    requires x in h' && h'[x].rep == CroppedRep(h[x].rep, index + 1, n)
    requires forall y :: y in h' && y != x ==> y in h && Same(h[y], h'[y])
    requires h[x].rep.slots[index] in h && 0 < m <= h[h[x].rep.slots[index]].rep.Len()
    requires Span(h, h[x].rep, h[x].rep.begin, index) + m == n
    ensures OverLong(h', x, m)
  {
    hide CroppedRep, Inner, Outer, RepOk;
    CroppedWindow(h[x].rep, index, n);
    InnerIn(true, h'[x].rep.Out());
    EdgesBelow(h', x);
    SumLenFrame(h, h', h[x].rep.slots[h[x].rep.begin..index]);
  }

  /** Which part of a node is wanted, and what is lost with the crop. */
  lemma CropParts(h: Heap, except: set<Id>, k0: nat, x: Id, index: nat, m: nat, n: nat)
    requires Shape(h) && SettledTo(h, except, k0) && x in h && IsNode(h[x].rep) && h[x].rep.Level() <= k0
    requires h[x].rep.begin <= index < h[x].rep.end
    requires h[x].rep.slots[index] in h && m <= h[h[x].rep.slots[index]].rep.Len()
    requires Span(h, h[x].rep, h[x].rep.begin, index) + m == n
    ensures
      var node := h[x].rep;
      var lost := node.slots[index + 1..node.end];
      && AllEdges(h, node.height, lost) && n <= |Bytes(h, x)| && m <= |Bytes(h, node.slots[index])|
      && Consume(true, Bytes(h, x), n) == Consume(true, Bytes(h, node.slots[index]), m) + BytesOf(h, node.height, lost)
  {
    hide RepOk, Bytes, BytesOf, SettledTo;
    SlotBytesTo(h, except, k0, x, index);
    var node := h[x].rep;
    ConsumeMiddle(BytesOf(h, node.height, node.slots[node.begin..index]), Bytes(h, node.slots[index]),
                  BytesOf(h, node.height, node.slots[index + 1..node.end]), m);
  }

  lemma ConsumeMiddle(a: seq<byte>, b: seq<byte>, c: seq<byte>, m: nat)
    requires m <= |b|
    ensures Consume(true, a + b + c, |a| + m) == Consume(true, b, m) + c
  {
  }

  lemma Cancelled(want: seq<byte>, tail: seq<byte>, lost: seq<byte>, top: seq<byte>)
    requires want + (tail + lost) == top + lost
    ensures top == want + tail
  {
    assert (want + tail) + lost == top + lost;
    assert top == (top + lost)[..|top|];
    assert want + tail == ((want + tail) + lost)[..|want + tail|];
  }

  lemma StepSettled(h: Heap, held: multiset<Id>, leg: seq<Id>, n: nat, edge: Id, index: nat, h': Heap)
    requires Inv(h, held) && Shape(h) && Shape(h') && OwnedLeg(h, held, true, leg + [edge], |leg| + 1) && leg != []
    requires leg[|leg| - 1] in h && AllSettled(h, {leg[|leg| - 1]}) && OverLong(h, leg[|leg| - 1], n)
    requires edge in h && edge in h' && h'[edge].rep.Btree? && h'[edge].rep.Len() == n
    requires forall y :: y in h' && y != edge ==> y in h && Same(h[y], h'[y])
    ensures AllSettled(h', {edge})
  {
    hide Inv, Outer, Inner, RepOk, Settled, Join;
    var d := |leg| - 1;
    var t := leg[d];
    assert (leg + [edge])[d] == t && (leg + [edge])[d + 1] == edge;
    forall y | y in h' && y != edge ensures Settled(h', y) {
      if y == t {
        StepParent(h, held, leg, n, edge, h');
      } else {
        if edge in h[y].rep.Out() {
          OwnedHasOneParent(h, held, true, leg + [edge], |leg| + 1, d + 1, y);
        }
        assert Settled(h, y);
        SettledKept(h, h', y);
      }
    }
  }

  lemma StepParent(h: Heap, held: multiset<Id>, leg: seq<Id>, n: nat, edge: Id, h': Heap)
    requires Inv(h, held) && Shape(h) && Shape(h') && OwnedLeg(h, held, true, leg + [edge], |leg| + 1) && leg != []
    requires leg[|leg| - 1] in h && OverLong(h, leg[|leg| - 1], n)
    requires edge in h && edge in h' && h'[edge].rep.Len() == n
    requires forall y :: y in h' && y != edge ==> y in h && Same(h[y], h'[y])
    ensures leg[|leg| - 1] in h' ==> Settled(h', leg[|leg| - 1])
  {
    hide Inv, Outer, Inner, RepOk, Settled, Join;
    var d := |leg| - 1;
    var t := leg[d];
    assert (leg + [edge])[d] == t && (leg + [edge])[d + 1] == edge;
    if t in h' {
      var es := h[t].rep.Out();
      OwnedIsEdgeOnce(h, held, true, leg + [edge], |leg| + 1, d + 1);
      SplitOuter(true, es);
      InnerIn(true, es);
      EdgesBelow(h, t);
      EdgesBelow(h', t);
      SumLenFrame(h, h', Inner(true, es));
      SumLenJoin(h', true, Inner(true, es), [edge]);
      assert SumLen(h', [edge]) == h'[edge].rep.Len() + SumLen(h', []);
      JustSettled(h', t);
    }
  }

  /** The last edge of an over-long node. */
  lemma CropEdge(h0: Heap, rest: multiset<Id>, want: seq<byte>, h: Heap, held: multiset<Id>, leg: seq<Id>, n: nat)
    requires Shape(h0) && Cropping(h0, rest, want, h, held, leg, n)
    ensures
      var t := leg[|leg| - 1];
      var edge := Outer(true, h[t].rep.Out());
      && leg[0] in h && t in h && IsNode(h[t].rep) && h[t].rep.Out() != [] && edge in h
      && IsEdge(h, h[t].rep.height, edge) && 0 < n <= h[edge].rep.Len()
      && SettledTo(h, {t}, h[t].rep.height) && h[edge].rep.Len() == |Bytes(h, edge)|
      && (h[edge].rep.Btree? ==> IsSettledNode(h, h[edge].rep) && Leg(h, true, leg + [edge]))
  {
    hide Inv, Outer, Inner, RepOk, Bytes;
    var t := leg[|leg| - 1];
    var edge := Outer(true, h[t].rep.Out());
    NodeOk(h, t);
    LastLen(h, t);
    if h[edge].rep.Btree? {
      SettledNode(h, {t}, h[t].rep.height, edge);
      LegExtends(h, true, leg, edge);
    }
  }

  lemma CropStep(h0: Heap, rest: multiset<Id>, want: seq<byte>, h: Heap, held: multiset<Id>, leg: seq<Id>, n: nat,
                 edge: Id, index: nat, m: nat, h': Heap)
    requires Shape(h0) && Cropping(h0, rest, want, h, held, leg, n) && edge == Outer(true, h[leg[|leg| - 1]].rep.Out())
    requires IsNode(h[edge].rep) && h[edge].rc == 1 && h[edge].rep.begin <= index < h[edge].rep.end
    requires h[edge].rep.slots[index] in h && 0 < m <= h[h[edge].rep.slots[index]].rep.Len()
    requires Span(h, h[edge].rep, h[edge].rep.begin, index) + m == n
    requires Inv(h', held) && Cropped(h, edge, index + 1, n, h')
    ensures Cropping(h0, rest, want, h', held, leg + [edge], m)
  {
    hide Inv, Outer, Inner, RepOk, Bytes, Cropped, CroppedRep, AllSettled, Consume, Leg, Others, BytesOf;
    InvShape(h', held);
    CropEdge(h0, rest, want, h, held, leg, n);
    var leg' := leg + [edge];
    assert leg'[|leg'| - 1] == edge && leg'[0] == leg[0] && forall i :: 0 <= i < |leg| ==> leg'[i] == leg[i];
    var t := leg[|leg| - 1];
    CroppedLeg(h, held, leg', index + 1, n, h');
    CroppedOthers(h, edge, index + 1, n, h');
    CroppedWindow(h[edge].rep, index, n);
    CropOverLong(h, h', edge, index, m, n);
    StepSettled(h, held, leg, n, edge, index, h');
    CroppedBytes(h, held, leg', index + 1, n, h');
    assert held - multiset{leg[0]} == rest;
    OthersTrans(h0, h, h', rest);
    CropParts(h, {t}, h[t].rep.height, edge, index, m, n);
    var e := h[edge].rep.slots[index];
    EdgeKept(h, held, leg', index, n, h', e);
    Cancelled(want, Consume(true, Bytes(h, e), m),
      BytesOf(h, h[edge].rep.height, h[edge].rep.slots[index + 1..h[edge].rep.end]),
              Bytes(h', leg[0]));
  }

  lemma CroppedOthers(h: Heap, x: Id, end: nat, length: nat, h': Heap)
    requires x in h && IsNode(h[x].rep) && h[x].rep.begin <= end <= h[x].rep.end && Cropped(h, x, end, length, h')
    ensures forall y :: y in h' && y != x ==> y in h && Same(h[y], h'[y])
  {
  }

  /** The edges that a cropped node keeps are as they were. */
  lemma EdgeKept(h: Heap, held: multiset<Id>, leg: seq<Id>, index: nat, length: nat, h': Heap, e: Id)
    requires Inv(h, held) && OwnedLeg(h, held, true, leg, |leg|) && Inv(h', held) && Shape(h) && Shape(h')
    requires
      var x := leg[|leg| - 1];
      && IsNode(h[x].rep) && h[x].rep.begin <= index < h[x].rep.end && Cropped(h, x, index + 1, length, h')
      && e == h[x].rep.slots[index]
    ensures e in h && e in h' && Bytes(h', e) == Bytes(h, e)
  {
    hide Inv, Outer, Inner, RepOk, Bytes, CroppedRep, Cropped, Leg;
    LegEnd(h, leg);
    CroppedLeg(h, held, leg, index + 1, length, h');
    CroppedAgree(h, held, leg, index + 1, length, h');
    var x := leg[|leg| - 1];
    SlotIn(h, x, index);
    assert e in h' by {
      CroppedWindow(h[x].rep, index, length);
      InnerIn(true, h'[x].rep.Out());
      EdgeIn(h', x, e);
    }
    LegAvoids(h, leg, e);
    assert leg[..|leg|] == leg;
    OwnedIsClosed(h, held, true, leg, |leg|);
    BytesFrame(h, h', Ids(leg), e);
  }

  lemma LegEnd(h: Heap, leg: seq<Id>)
    requires Leg(h, true, leg)
    ensures leg != [] && leg[|leg| - 1] in h && h[leg[|leg| - 1]].rep.Btree?
  {
  }

  lemma SlotIn(h: Heap, x: Id, index: nat)
    requires Shape(h) && x in h && IsNode(h[x].rep) && h[x].rep.begin <= index < h[x].rep.end
    ensures h[x].rep.slots[index] in h[x].rep.Out() && h[x].rep.slots[index] in h
  {
    assert h[x].rep.Out()[index - h[x].rep.begin] == h[x].rep.slots[index];
    EdgeIn(h, x, h[x].rep.slots[index]);
  }

  /** One round in place: the private last edge is cropped itself. */
  method CropDown(a: Arena, ghost h0: Heap, ghost rest: multiset<Id>, ghost want: seq<byte>, ghost leg: seq<Id>,
                  edge: Id, n: nat)
    returns (index: nat, m: nat)
    requires a.Ok() && Shape(h0) && Cropping(h0, rest, want, a.cells, a.held, leg, n)
    requires leg != [] && edge == Outer(true, a.cells[leg[|leg| - 1]].rep.Out()) && edge in a.cells
    requires a.cells[edge].rep.Btree?
    requires a.cells[edge].rc == 1
    modifies a
    ensures a.Ok() && a.next == old(a.next) && Cropping(h0, rest, want, a.cells, a.held, leg + [edge], m)
    ensures edge in a.cells && index < MAX_CAPACITY == |a.cells[edge].rep.slots|
    ensures a.cells[edge].rep.Out() != [] && a.cells[edge].rep.slots[index] == Outer(true, a.cells[edge].rep.Out())
    ensures a.cells[edge].rep.Level() == old(a.cells)[edge].rep.Level() && SameForm(old(a.cells), a.cells, leg[0])
    ensures NoNewData(old(a.cells), a.cells)
  {
    hide Inv, Outer, Inner, RepOk, Bytes, Cropping, Cropped, CroppedRep;
    ghost var h := a.cells;
    CropEdge(h0, rest, want, a.cells, a.held, leg, n);
    index, m := IndexOfLength(a.cells, a.cells[edge].rep, n);
    CropNode(a, edge, index + 1, n);
    CropStep(h0, rest, want, h, a.held, leg, n, edge, index, m, a.cells);
    CropStepLeg(h0, rest, want, h, a.held, leg, n, edge, index, a.cells);
    CroppedWindow(h[edge].rep, index, n);
    CroppedSlots(h[edge].rep, index, n);
    CropEdge(h0, rest, want, a.cells, a.held, leg + [edge], m);
    LegDistinct(h, true, leg + [edge], 0, |leg|);
    CroppedLevel(h, edge, index + 1, n, a.cells, leg[0]);
  }

  lemma CroppedLevel(h: Heap, x: Id, end: nat, length: nat, h': Heap, y: Id)
    requires x in h && IsNode(h[x].rep) && h[x].rep.begin <= end <= h[x].rep.end && Cropped(h, x, end, length, h')
    requires y in h' && y != x
    ensures SameForm(h, h', y) && NoNewData(h, h')
  {
  }

  lemma CroppedSlots(rep: Rep, index: nat, length: nat)
    requires IsNode(rep) && rep.begin <= index < rep.end
    ensures CroppedRep(rep, index + 1, length).slots == rep.slots
  {
  }

  lemma CropStepLeg(h0: Heap, rest: multiset<Id>, want: seq<byte>, h: Heap, held: multiset<Id>, leg: seq<Id>, n: nat,
                    edge: Id, index: nat, h': Heap)
    requires Shape(h0) && Cropping(h0, rest, want, h, held, leg, n) && edge == Outer(true, h[leg[|leg| - 1]].rep.Out())
    requires IsNode(h[edge].rep) && h[edge].rc == 1 && h[edge].rep.begin <= index < h[edge].rep.end
    requires Inv(h', held) && Cropped(h, edge, index + 1, n, h')
    ensures edge in h' && h'[edge].rep == CroppedRep(h[edge].rep, index + 1, n)
  {
    hide Inv, Outer, Inner, RepOk, Bytes, Cropped, CroppedRep, AllSettled, Consume, Leg, Others;
    CropEdge(h0, rest, want, h, held, leg, n);
    var leg' := leg + [edge];
    assert leg'[|leg'| - 1] == edge && leg'[0] == leg[0] && forall i :: 0 <= i < |leg| ==> leg'[i] == leg[i];
    CroppedLeg(h, held, leg', index + 1, n, h');
  }

  // --- Replacing the last edge ------------------------------------------------------------------------

  /** A leg for its own sake, with no regard to where it came from. */
  ghost function JustLeg(rest: multiset<Id>): Start {
    Start(map[], 0, rest, true, {}, 0)
  }

  /** The last node of the leg lacks `n` bytes; `e` is held outside the tree. */
  ghost predicate Lacking(h0: Heap, rest: multiset<Id>, front: seq<byte>, h: Heap, held: multiset<Id>, leg: seq<Id>,
                          n: nat, e: Id)
    requires Shape(h0)
  {
    && Copying(JustLeg(rest), h, held, leg, n, [e], {}) && Shape(h) && leg[0] in h && e in h
    && h[e].rep.Level() == h[leg[|leg| - 1]].rep.height && Others(h0, h, rest) && Bytes(h, leg[0]) == front
  }

  function WithoutLast(rep: Rep): (r: Rep)
    requires IsNode(rep) && rep.Out() != []
    ensures NodeWith(r, rep.height, rep.length, Inner(true, rep.Out()))
    ensures r.end + 1 == rep.end
  {
    rep.(end := rep.end - 1)
  }

  /** Takes the last edge out of the last node of the leg. */
  method Detach(a: Arena, ghost h0: Heap, ghost rest: multiset<Id>, ghost want: seq<byte>, ghost leg: seq<Id>, t: Id,
                edge: Id, n: nat)
    returns (ghost front: seq<byte>)
    requires a.Ok() && Shape(h0) && Cropping(h0, rest, want, a.cells, a.held, leg, n)
    requires leg != [] && t == leg[|leg| - 1] && t in a.cells && edge == Outer(true, a.cells[t].rep.Out())
    requires edge in a.cells
    modifies a
    ensures a.Ok() && a.next == old(a.next) && Lacking(h0, rest, front, a.cells, a.held, leg, n, edge)
    ensures n <= a.cells[edge].rep.Len() == |Bytes(a.cells, edge)|
    ensures want == front + Near(true, Bytes(a.cells, edge), n)
    ensures a.cells[edge] == old(a.cells)[edge] && a.cells[t].rep.end < MAX_CAPACITY
    ensures a.held == old(a.held) + multiset{edge}
    ensures Exchanges(old(a.cells), t, -1, a.cells)
  {
    hide Inv, Outer, Inner, RepOk, Bytes, Cropping, Lacking;
    ghost var h, held := a.cells, a.held;
    CropEdge(h0, rest, want, h, held, leg, n);
    InvShape(h, held);
    var rep := WithoutLast(a.cells[t].rep);
    DetachOk(h, t, edge);
    DetachBag(held, Inner(true, h[t].rep.Out()), edge);
    WriteNode(a, t, Cell(a.cells[t].rc, rep));
    Detached(h0, rest, want, h, held, leg, n, edge, a.cells, a.held);
    front := Bytes(a.cells, leg[0]);
  }

  lemma DetachOk(h: Heap, t: Id, edge: Id)
    requires Shape(h) && t in h && IsNode(h[t].rep) && h[t].rep.Out() != [] && edge == Outer(true, h[t].rep.Out())
    ensures RepOk(h, WithoutLast(h[t].rep)) && edge != t
    ensures multiset(h[t].rep.Out()) == multiset(Inner(true, h[t].rep.Out())) + multiset{edge}
  {
    NodeOk(h, t);
    SplitOuter(true, h[t].rep.Out());
    InnerIn(true, h[t].rep.Out());
    EdgesBelow(h, t);
  }

  lemma DetachBag(held: multiset<Id>, inner: seq<Id>, edge: Id)
    ensures multiset(inner) <= held + (multiset(inner) + multiset{edge})
    ensures held + (multiset(inner) + multiset{edge}) - multiset(inner) == held + multiset{edge}
  {
  }

  lemma Detached(h0: Heap, rest: multiset<Id>, want: seq<byte>, h: Heap, held: multiset<Id>, leg: seq<Id>, n: nat,
                 edge: Id, h1: Heap, held1: multiset<Id>)
    requires Shape(h0) && Cropping(h0, rest, want, h, held, leg, n) && edge == Outer(true, h[leg[|leg| - 1]].rep.Out())
    requires edge in h && IsNode(h[leg[|leg| - 1]].rep) && edge != leg[|leg| - 1]
    requires
      var t := leg[|leg| - 1];
      h1 == h[t := Cell(h[t].rc, WithoutLast(h[t].rep))]
    requires Inv(h1, held1) && held1 == held + multiset{edge}
    ensures Shape(h1) && leg[0] in h1 && Lacking(h0, rest, Bytes(h1, leg[0]), h1, held1, leg, n, edge)
    ensures n <= h1[edge].rep.Len() == |Bytes(h1, edge)| && want == Bytes(h1, leg[0]) + Near(true, Bytes(h1, edge), n)
  {
    hide Inv, Outer, Inner, RepOk, Bytes, Consume, WithoutLast, Others, BytesOf;
    InvShape(h1, held1);
    var t, c := leg[|leg| - 1], JustLeg(rest);
    CropEdge(h0, rest, want, h, held, leg, n);
    DetachedLeg(h0, rest, want, h, held, leg, n, edge, h1, held1);
    DetachedBack(h, leg, edge, h1);
    AttachedBytes(c, h1, held1, leg, n, edge, {}, h);
    DetachedOthers(h, held, leg, edge, h1, held1);
    assert held - multiset{leg[0]} == rest;
    OthersTrans(h0, h, h1, rest);
    DetachedWant(want, Bytes(h1, leg[0]), Bytes(h, edge), n);
  }

  lemma DetachedWant(want: seq<byte>, front: seq<byte>, edge: seq<byte>, n: nat)
    requires n <= |edge| && front + edge == want + Consume(true, edge, n)
    ensures want == front + Near(true, edge, n)
  {
    assert front + edge == (front + edge[..n]) + edge[n..];
    var a, b := front + edge[..n], edge[n..];
    assert a == (a + b)[..|a + b| - |b|] && want == (want + b)[..|want + b| - |b|];
  }

  /** The leg with its edge back in place is what it was. */
  lemma DetachedBack(h: Heap, leg: seq<Id>, edge: Id, h1: Heap)
    requires leg != [] && leg[|leg| - 1] in h && IsNode(h[leg[|leg| - 1]].rep) && h[leg[|leg| - 1]].rep.Out() != []
    requires edge == Outer(true, h[leg[|leg| - 1]].rep.Out()) && edge in h && edge != leg[|leg| - 1]
    requires h[edge].rep.Level() == h[leg[|leg| - 1]].rep.height
    requires
      var t := leg[|leg| - 1];
      h1 == h[t := Cell(h[t].rc, WithoutLast(h[t].rep))]
    ensures forall rest :: Attached(JustLeg(rest), h1, leg, edge, h)
  {
    var t := leg[|leg| - 1];
    SplitOuter(true, h[t].rep.Out());
    assert h == h1[t := h[t]];
  }

  lemma DetachedLeg(h0: Heap, rest: multiset<Id>, want: seq<byte>, h: Heap, held: multiset<Id>, leg: seq<Id>, n: nat,
                    edge: Id, h1: Heap, held1: multiset<Id>)
    requires Shape(h0) && Cropping(h0, rest, want, h, held, leg, n) && edge == Outer(true, h[leg[|leg| - 1]].rep.Out())
    requires edge in h && IsNode(h[leg[|leg| - 1]].rep) && edge != leg[|leg| - 1] && Shape(h1)
    requires
      var t := leg[|leg| - 1];
      h1 == h[t := Cell(h[t].rc, WithoutLast(h[t].rep))]
    requires Inv(h1, held1) && held1 == held + multiset{edge}
    ensures Copying(JustLeg(rest), h1, held1, leg, n, [edge], {})
  {
    hide Inv, Outer, Inner, RepOk, Bytes, Consume, WithoutLast, Settled, Others;
    var t := leg[|leg| - 1];
    CropEdge(h0, rest, want, h, held, leg, n);
    forall i | 0 <= i < |leg| - 1 ensures leg[i] in h1 && h1[leg[i]] == h[leg[i]] {
      LegDistinct(h, true, leg, i, |leg| - 1);
    }
    CropLegSame(h, h1, leg);
    forall x | x in h1 && x != t ensures Settled(h1, x) {
      SettledKept(h, h1, x);
    }
    InnerIn(true, h[t].rep.Out());
    EdgesBelow(h, t);
    SumLenFrame(h, h1, Inner(true, h[t].rep.Out()));
    assert held1 == rest + multiset{leg[0]} + multiset([edge]);
    assert {t} + {} + {} == {t};
  }

  lemma DetachedOthers(h: Heap, held: multiset<Id>, leg: seq<Id>, edge: Id, h1: Heap, held1: multiset<Id>)
    requires Inv(h, held) && Shape(h) && Shape(h1) && OwnedLeg(h, held, true, leg, |leg|) && leg[|leg| - 1] in h1
    requires h1 == h[leg[|leg| - 1] := h1[leg[|leg| - 1]]] && edge in h[leg[|leg| - 1]].rep.Out()
    ensures Others(h, h1, held - multiset{leg[0]}) && edge in h && edge in h1 && Bytes(h1, edge) == Bytes(h, edge)
  {
    hide Inv, Outer, Inner, RepOk, Bytes;
    var o := Ids(leg);
    assert leg[..|leg|] == leg;
    OwnedIsClosed(h, held, true, leg, |leg|);
    assert leg[|leg| - 1] in o;
    assert Agree(h, h1, o);
    forall x | x in held - multiset{leg[0]}
      ensures x in h && x in h1 && Same(h[x], h1[x]) && Bytes(h, x) == Bytes(h1, x)
    {
      assert x in held && x !in o;
      HeldIn(h, held, x);
      BytesFrame(h, h1, o, x);
    }
    LegAvoids(h, leg, edge);
    EdgeIn(h, leg[|leg| - 1], edge);
    BytesFrame(h, h1, o, edge);
  }

  /** Exchanging the handle `e` for `r` leaves the leg alone. */
  lemma LackingKept(h0: Heap, rest: multiset<Id>, front: seq<byte>, h: Heap, held: multiset<Id>, leg: seq<Id>, n: nat,
                    e: Id, o: set<Id>, r: Id, h': Heap, held': multiset<Id>)
    requires Shape(h0) && Lacking(h0, rest, front, h, held, leg, n, e)
    requires Inv(h', held') && held' == held - multiset{e} + multiset{r} && r in h'
    requires h'[r].rep.Level() == h[e].rep.Level()
    requires Closed(h, o) && Agree(h, h', o)
    requires forall x :: x in o ==> x !in rest && x in h && h[x].rep.Level() <= h[e].rep.Level()
    requires forall i :: 0 <= i < |leg| ==> leg[i] in h' && h'[leg[i]] == h[leg[i]]
    requires AllSettled(h', {leg[|leg| - 1]})
    ensures Lacking(h0, rest, front, h', held', leg, n, r)
  {
    hide Inv, Outer, Inner, RepOk, Bytes, AllSettled, Copying, Others;
    InvShape(h', held');
    LackingTop(h, held, rest, leg, n, e);
    LackingHeld(rest, leg[0], e, r, held, held');
    LackingCopying(h, held, rest, leg, n, e, o, r, h', held');
    BytesFrame(h, h', o, leg[0]);
    OthersIn(h0, h, rest);
    OthersFrame(h, h', held', o, rest);
    OthersTrans(h0, h, h', rest);
  }

  lemma LackingTop(h: Heap, held: multiset<Id>, rest: multiset<Id>, leg: seq<Id>, n: nat, e: Id)
    requires Copying(JustLeg(rest), h, held, leg, n, [e], {}) && e in h
    requires h[e].rep.Level() == h[leg[|leg| - 1]].rep.height
    ensures leg != [] && held == rest + multiset{leg[0]} + multiset([e]) && Leg(h, true, leg) && leg[0] in h
    ensures forall i :: 0 <= i < |leg| ==> h[leg[i]].rep.Level() > h[e].rep.Level()
  {
    hide Inv, AllSettled, ShortBy, Outer;
    LackingLeg(h, held, leg, e);
  }

  lemma LackingCopying(h: Heap, held: multiset<Id>, rest: multiset<Id>, leg: seq<Id>, n: nat, e: Id, o: set<Id>, r: Id,
                       h': Heap, held': multiset<Id>)
    requires Copying(JustLeg(rest), h, held, leg, n, [e], {}) && Shape(h) && Shape(h') && Inv(h', held')
    requires held' == rest + multiset{leg[0]} + multiset([r])
    requires Closed(h, o) && Agree(h, h', o) && forall i :: 0 <= i < |leg| ==> leg[i] !in o
    requires forall i :: 0 <= i < |leg| ==> leg[i] in h' && h'[leg[i]] == h[leg[i]]
    requires AllSettled(h', {leg[|leg| - 1]})
    ensures Copying(JustLeg(rest), h', held', leg, n, [r], {})
  {
    hide Inv, Outer, Inner, RepOk, AllSettled;
    var t := leg[|leg| - 1];
    LegSame(h, h', true, leg);
    assert {t} + {} + {} == {t};
    EdgesBelow(h, t);
    EdgesBelow(h', t);
    SumLenFrame(h, h', h[t].rep.Out());
  }

  lemma LackingLeg(h: Heap, held: multiset<Id>, leg: seq<Id>, e: Id)
    requires Leg(h, true, leg) && e in h && h[e].rep.Level() == h[leg[|leg| - 1]].rep.height
    ensures forall i :: 0 <= i < |leg| ==> h[leg[i]].rep.Level() > h[e].rep.Level()
  {
    hide Outer;
    assert h[leg[|leg| - 1]].rep.height == h[leg[0]].rep.height - (|leg| - 1);
    forall i | 0 <= i < |leg| ensures h[leg[i]].rep.Level() > h[e].rep.Level() {
      assert h[leg[i]].rep.height == h[leg[0]].rep.height - i;
    }
  }

  lemma LackingHeld(rest: multiset<Id>, top: Id, e: Id, r: Id, held: multiset<Id>, held': multiset<Id>)
    requires held == rest + multiset{top} + multiset([e]) && held' == held - multiset{e} + multiset{r}
    ensures held' == rest + multiset{top} + multiset([r]) && rest <= held' && top in held'
  {
  }

  /** The data edge `edge` has been resized to `r`. */
  lemma LackingData(h0: Heap, rest: multiset<Id>, front: seq<byte>, h: Heap, held: multiset<Id>, n1: Id, leg: seq<Id>,
                    n: nat, edge: Id, isMutable: bool, r: Id, h': Heap, held': multiset<Id>)
    requires Shape(h0) && Lacking(h0, rest, front, h, held, leg, n, edge) && !h[edge].rep.Btree?
    requires isMutable ==> h[edge].rc == 1
    requires Inv(h', held') && held' == held - multiset{edge} + multiset{r} && r in h' && !h'[r].rep.Btree?
    requires Kept(h, n1, if isMutable then {edge} else {}, h') && (forall x :: x in h ==> x < n1)
    requires SameAbove(h, 1, h') && forall x :: x in h' && h'[x].rep.Btree? ==> x in h && h[x].rep.Btree?
    ensures Lacking(h0, rest, front, h', held', leg, n, r)
  {
    hide Inv, Outer, Inner, RepOk, Bytes, AllSettled, Others;
    var o := if isMutable then {edge} else {};
    assert edge in held;
    if isMutable {
      HeldIsNoEdge(h, held, edge);
      LastHandle(h, held, rest, leg[0], edge);
    }
    InvShape(h', held');
    ResizedSettled(h, held, edge, isMutable, h', n1, {leg[|leg| - 1]});
    LackingKept(h0, rest, front, h, held, leg, n, edge, o, r, h', held');
  }

  lemma LastHandle(h: Heap, held: multiset<Id>, rest: multiset<Id>, top: Id, edge: Id)
    requires Inv(h, held) && held == rest + multiset{top} + multiset([edge]) && edge in h && h[edge].rc == 1
    ensures edge !in rest
  {
    hide EdgeBag;
    LastIsHandle(h, EdgeBag(h), held, edge);
  }

  /** The shared node `edge` has been copied in part to `r`, and given up. */
  lemma LackingCopy(h0: Heap, rest: multiset<Id>, front: seq<byte>, h: Heap, held: multiset<Id>, n1: Id, leg: seq<Id>,
                    n: nat, edge: Id, r: Id, h1: Heap, held1: multiset<Id>, h': Heap, held': multiset<Id>)
    requires Shape(h0) && Lacking(h0, rest, front, h, held, leg, n, edge)
    requires Fresh(h, n1, held, {leg[|leg| - 1]}, h1, held1, r) && SameAbove(h, h[edge].rep.Rank(), h1)
    requires h1[r].rep.Level() == h[edge].rep.Level() && h[edge].rep.Btree?
    requires Inv(h', held') && held' == held1 - multiset{edge} && Shrunk(h1, h')
    requires SameAbove(h1, h[edge].rep.Rank(), h')
    ensures r in h' && Lacking(h0, rest, front, h', held', leg, n, r)
  {
    hide Inv, Outer, Inner, RepOk, Bytes, Settled, Others, Copying;
    InvShape(h1, held1);
    InvShape(h', held');
    LackingTop(h, held, rest, leg, n, edge);
    CopyHeldSwapped(held, edge, r, leg[0], rest);
    forall x | x in h' && x != leg[|leg| - 1] ensures Settled(h', x) {
      SettledKept(h1, h', x);
    }
    LackingKept(h0, rest, front, h, held, leg, n, edge, {}, r, h', held');
  }

  lemma CopyHeldSwapped(held: multiset<Id>, edge: Id, r: Id, top: Id, rest: multiset<Id>)
    requires held == rest + multiset{top} + multiset([edge])
    ensures held + multiset{r} - multiset{edge} == held - multiset{edge} + multiset{r}
    ensures r in held + multiset{r} - multiset{edge}
  {
  }

  /** Puts `r`, of the right length, in the place of the edge taken out. */
  method Reattach(a: Arena, ghost h0: Heap, ghost rest: multiset<Id>, ghost front: seq<byte>, ghost leg: seq<Id>, t: Id,
                  n: nat, r: Id)
    requires a.Ok() && Shape(h0) && Lacking(h0, rest, front, a.cells, a.held, leg, n, r)
    requires leg != [] && t == leg[|leg| - 1] && t in a.cells && a.cells[t].rep.Btree?
    requires a.cells[t].rep.end < MAX_CAPACITY
    requires r in a.cells && a.cells[r].rep.Len() == n && Shape(a.cells)
    modifies a
    ensures a.Ok() && a.next == old(a.next)
    ensures Outcome(h0, rest, a.cells, a.held, leg[0], front + old(Bytes(a.cells, r)))
    ensures Exchanges(old(a.cells), t, 1, a.cells)
  {
    hide Inv, Outer, Inner, RepOk, Bytes, Copying, Outcome, Others;
    ghost var h, held, c := a.cells, a.held, JustLeg(rest);
    assert r in held by { LackingTop(h, held, rest, leg, n, r); }
    WriteEdge(a, true, t, r);
    Reattached(h0, rest, front, h, held, leg, n, r, a.cells, a.held);
  }

  lemma Reattached(h0: Heap, rest: multiset<Id>, front: seq<byte>, h: Heap, held: multiset<Id>, leg: seq<Id>, n: nat,
                   r: Id, h': Heap, held': multiset<Id>)
    requires Shape(h0) && Lacking(h0, rest, front, h, held, leg, n, r) && h[r].rep.Len() == n
    requires Attached(JustLeg(rest), h, leg, r, h') && Inv(h', held') && held' == held - multiset{r}
    ensures Outcome(h0, rest, h', held', leg[0], front + Bytes(h, r))
  {
    hide Inv, Outer, Inner, RepOk, Bytes, Others, Attached, AllSettled, ShortBy;
    InvShape(h', held');
    var c := JustLeg(rest);
    AttachedLeg(c, h, held, leg, n, r, {}, h', held');
    AttachedSettled(c, h, held, leg, n, r, {}, h');
    AttachedBytes(c, h, held, leg, n, r, {}, h');
    assert {} + c.except == {};
    AttachedOthers(c, h, held, leg, r, h', held');
    assert rest <= held - multiset{leg[0]};
    assert Others(h, h', rest) by { OthersFewer(h, h', held - multiset{leg[0]}, rest); }
    OthersTrans(h0, h, h', rest);
  }

  lemma OthersFewer(h: Heap, h': Heap, many: multiset<Id>, few: multiset<Id>)
    requires Shape(h) && Shape(h') && Others(h, h', many) && few <= many
    ensures Others(h, h', few)
  {
    hide Bytes;
    forall x | x in few ensures x in many {
    }
  }

  lemma AttachedOthers(c: Start, h: Heap, held: multiset<Id>, leg: seq<Id>, r: Id, h': Heap, held': multiset<Id>)
    requires Inv(h, held) && Shape(h) && Shape(h') && OwnedLeg(h, held, c.back, leg, |leg|)
    requires Attached(c, h, leg, r, h')
    ensures Others(h, h', held - multiset{leg[0]})
  {
    hide Inv, Outer, Inner, RepOk, Bytes, Join;
    var o := Ids(leg);
    assert leg[..|leg|] == leg;
    OwnedIsClosed(h, held, c.back, leg, |leg|);
    assert leg[|leg| - 1] in o;
    assert Agree(h, h', o);
    forall x | x in held - multiset{leg[0]}
      ensures x in h && x in h' && Same(h[x], h'[x]) && Bytes(h, x) == Bytes(h', x)
    {
      assert x in held && x !in o;
      HeldIn(h, held, x);
      BytesFrame(h, h', o, x);
    }
  }

  /** As high as before, and with as many edges. */
  ghost predicate SameForm(h: Heap, h': Heap, x: Id) {
    x in h && x in h' && h'[x].rep.Level() == h[x].rep.Level() && |h'[x].rep.Out()| == |h[x].rep.Out()|
  }

  /** The last round at the level of data edges. */
  method CropData(a: Arena, ghost h0: Heap, ghost rest: multiset<Id>, ghost want: seq<byte>, ghost leg: seq<Id>, t: Id,
                  edge: Id, n: nat)
    requires a.Ok() && Shape(h0) && Cropping(h0, rest, want, a.cells, a.held, leg, n)
    requires leg != [] && t == leg[|leg| - 1] && t in a.cells && edge == Outer(true, a.cells[t].rep.Out())
    requires edge in a.cells
    requires !a.cells[edge].rep.Btree? && 0 < n
    modifies a
    ensures a.Ok() && a.next >= old(a.next) && Outcome(h0, rest, a.cells, a.held, leg[0], want)
    ensures SameForm(old(a.cells), a.cells, leg[0]) && NoNewData(old(a.cells), a.cells)
  {
    hide Inv, Outer, Inner, RepOk, Bytes, Cropping, Lacking, Outcome, DataBytes, Near, Slice, LevelsKept, Kept,
      SameAbove, Exchanges, NoNewData;
    var isMutable := a.cells[edge].rc == 1;
    CropEdge(h0, rest, want, a.cells, a.held, leg, n);
    ghost var front := Detach(a, h0, rest, want, leg, t, edge, n);
    ghost var h, held, n1 := a.cells, a.held, a.next;
    InvShape(h, held);
    BytesOfData(h, edge);
    PartBytes(true, Bytes(h, edge), n);
    LackingTopOf(h0, rest, front, h, held, leg, n, edge);
    var r := ResizeEdge(a, edge, n, isMutable);
    ghost var h2 := a.cells;
    InvShape(h2, a.held);
    LackingData(h0, rest, front, h, held, n1, leg, n, edge, isMutable, r, h2, a.held);
    BytesOfData(h2, r);
    SameAt(h, 1, h2, t);
    SameAt(h, 1, h2, leg[0]);
    Reattach(a, h0, rest, front, leg, t, n, r);
    FormAt(old(a.cells), h, h2, a.cells, t, leg[0]);
  }

  lemma SameAt(h: Heap, rank: nat, h': Heap, x: Id)
    requires SameAbove(h, rank, h') && x in h && h[x].rep.Rank() > rank
    ensures x in h' && h'[x] == h[x]
  {
  }

  /** Node `t` has lost (`k` is -1) or got back (1) an edge. */
  ghost predicate Exchanges(h: Heap, t: Id, k: int, h': Heap) {
    && t in h && t in h' && h[t].rep.Btree? && h'[t].rep.Btree? && h' == h[t := h'[t]]
    && h'[t].rep.Level() == h[t].rep.Level() && |h'[t].rep.Out()| == |h[t].rep.Out()| + k
  }

  lemma FormAt(h: Heap, h1: Heap, h2: Heap, h3: Heap, t: Id, x: Id)
    requires Exchanges(h, t, -1, h1) && Exchanges(h2, t, 1, h3) && NoNewData(h1, h2)
    requires x in h && x in h1 && x in h2 && h1[x] == h2[x] && t in h1 && t in h2 && h1[t] == h2[t]
    ensures SameForm(h, h3, x) && NoNewData(h, h3)
  {
  }

  lemma LackingTopOf(h0: Heap, rest: multiset<Id>, front: seq<byte>, h: Heap, held: multiset<Id>, leg: seq<Id>, n: nat,
                     e: Id)
    requires Shape(h0) && Lacking(h0, rest, front, h, held, leg, n, e)
    ensures leg != [] && e in held && leg[0] in h && leg[|leg| - 1] in h && h[leg[0]].rep.Btree?
    ensures h[leg[|leg| - 1]].rep.Btree?
    ensures h[leg[0]].rep.Rank() > h[e].rep.Rank() && h[leg[|leg| - 1]].rep.Rank() > h[e].rep.Rank()
    ensures SettledTo(h, {leg[|leg| - 1]}, h[e].rep.Level())
  {
    hide Inv, Bytes, ShortBy, Outer;
    LackingLeg(h, held, leg, e);
    assert {leg[|leg| - 1]} + {} + {} == {leg[|leg| - 1]};
  }

  /** The last round where the rest of the tree is shared. */
  method CropCopy(a: Arena, ghost h0: Heap, ghost rest: multiset<Id>, ghost want: seq<byte>, ghost leg: seq<Id>, t: Id,
                  edge: Id, n: nat)
    requires a.Ok() && Shape(h0) && Cropping(h0, rest, want, a.cells, a.held, leg, n)
    requires leg != [] && t == leg[|leg| - 1] && t in a.cells && edge == Outer(true, a.cells[t].rep.Out())
    requires edge in a.cells
    requires a.cells[edge].rep.Btree? && 0 < n
    modifies a
    ensures a.Ok() && a.next >= old(a.next) && Outcome(h0, rest, a.cells, a.held, leg[0], want)
    ensures SameForm(old(a.cells), a.cells, leg[0]) && NoNewData(old(a.cells), a.cells)
  {
    hide Inv, Outer, Inner, RepOk, Bytes, Cropping, Lacking, Outcome, Near, LevelsKept, SameAbove, Fresh,
      OnlyUnreachableGone, Exchanges, NoNewData;
    CropEdge(h0, rest, want, a.cells, a.held, leg, n);
    ghost var front := Detach(a, h0, rest, want, leg, t, edge, n);
    ghost var h, held, n1 := a.cells, a.held, a.next;
    InvShape(h, held);
    LackingTopOf(h0, rest, front, h, held, leg, n, edge);
    var r := CopyEnd(a, {t}, true, edge, n, false);
    ghost var h1, held1 := a.cells, a.held;
    FreshFacts(h, n1, held, {t}, h1, held1, r, edge);
    SameAt(h, h[edge].rep.Rank(), h1, t);
    SameAt(h, h[edge].rep.Rank(), h1, leg[0]);
    Unref(a, edge);
    ghost var h2 := a.cells;
    InvShape(h2, a.held);
    LackingCopy(h0, rest, front, h, held, n1, leg, n, edge, r, h1, held1, h2, a.held);
    BytesFrame(h1, h2, {}, r);
    NearLen(true, Bytes(h, edge), n);
    CopyLen(h1, t, r);
    SameAt(h1, h[edge].rep.Rank(), h2, t);
    SameAt(h1, h[edge].rep.Rank(), h2, leg[0]);
    Reattach(a, h0, rest, front, leg, t, n, r);
    NoNewDataTrans(h, h1, h2);
    FormAt(old(a.cells), h, h2, a.cells, t, leg[0]);
  }

  lemma FreshFacts(h0: Heap, n0: Id, held0: multiset<Id>, except: set<Id>, h: Heap, held: multiset<Id>, r: Id, x: Id)
    requires Fresh(h0, n0, held0, except, h, held, r) && x in held0
    ensures NoNewData(h0, h)
    ensures Shape(h) && AllSettled(h, except) && r in h && x in held && (x in h0 ==> x in h && h[x].rep == h0[x].rep)
  {
    hide Inv, AllSettled;
    InvShape(h, held);
  }

  lemma CopyLen(h: Heap, t: Id, r: Id)
    requires Shape(h) && AllSettled(h, {t}) && r in h && (t in h ==> h[t].rep.Level() > h[r].rep.Level())
    ensures h[r].rep.Len() == |Bytes(h, r)|
  {
    LenIsBytesTo(h, {t}, h[r].rep.Level(), r);
  }

  // --- The upper nodes ------------------------------------------------------------------------------

  /** The first `length` bytes of `x` are wanted; the handles of `rest` are as in `h0`. */
  ghost predicate Prefixed(h0: Heap, rest: multiset<Id>, want: seq<byte>, h: Heap, held: multiset<Id>, x: Id,
                           length: nat)
    requires Shape(h0)
  {
    && Inv(h, held) && Shape(h) && AllSettled(h, {}) && held == rest + multiset{x} && x in h
    && Others(h0, h, rest) && 0 < length <= h[x].rep.Len() == |Bytes(h, x)| && want == Near(true, Bytes(h, x), length)
  }

  /** Exchanges the handle `tree` for one on its first edge. */
  method ExtractFront(a: Arena, tree: Id) returns (front: Id)
    requires a.Ok() && AllSettled(a.cells, {}) && tree in a.held && a.cells[tree].rep.Btree?
    modifies a
    ensures a.Ok() && AllSettled(a.cells, {}) && a.next == old(a.next)
    ensures old(a.cells)[tree].rep.Out() != [] && front == old(a.cells)[tree].rep.Out()[0]
    ensures a.held == old(a.held) - multiset{tree} + multiset{front}
    ensures forall x :: x in a.cells ==> x in old(a.cells) && Same(old(a.cells)[x], a.cells[x])
  {
    hide Inv, RepOk, Settled, OnlyUnreachableGone;
    HeldIn(a.cells, a.held, tree);
    SettledNode(a.cells, {}, a.cells[tree].rep.Level(), tree);
    var es := a.cells[tree].rep.Out();
    front := es[0];
    EdgesBelow(a.cells, tree);
    ghost var h, held := a.cells, a.held;
    if a.cells[tree].rc == 1 {
      Delete(a, tree);
      FrontBag(held, tree, es);
      UnrefEdges(a, es[1..], h[tree].rep.Rank());
    } else {
      Ref(a, front);
      SwapHeld(held, tree, front);
      Unref(a, tree);
    }
    InvShape(a.cells, a.held);
    StillSettled(h, a.cells);
  }

  lemma FrontBag(held: multiset<Id>, tree: Id, es: seq<Id>)
    requires es != []
    ensures multiset(es[1..]) <= held - multiset{tree} + multiset(es)
    ensures held - multiset{tree} + multiset(es) - multiset(es[1..]) == held - multiset{tree} + multiset{es[0]}
  {
    assert es == [es[0]] + es[1..];
  }

  /** If the wanted bytes lie in the first edge, it is all that is needed. */
  lemma PrefixedFront(h0: Heap, rest: multiset<Id>, want: seq<byte>, h: Heap, held: multiset<Id>, x: Id, length: nat,
                      front: Id, h': Heap, held': multiset<Id>)
    requires Shape(h0) && Prefixed(h0, rest, want, h, held, x, length) && h[x].rep.Btree? && h[x].rep.Out() != []
    requires front == h[x].rep.Out()[0] && front in h && length <= h[front].rep.Len()
    requires Inv(h', held') && AllSettled(h', {}) && held' == held - multiset{x} + multiset{front}
    requires forall y :: y in h' ==> y in h && Same(h[y], h'[y])
    ensures front in h' && Prefixed(h0, rest, want, h', held', front, length) && h'[front].rep == h[front].rep
    ensures h[front].rep.Level() == h[x].rep.height
  {
    hide Inv, RepOk, AllSettled, Bytes;
    InvShape(h', held');
    NearOuter(h, {}, h[x].rep.Level(), true, x, length) by {
      assert AllSettled(h, {}) ==> SettledTo(h, {}, h[x].rep.Level());
    }
    assert held' == rest + multiset{front};
    assert front in held';
    BytesFrame(h, h', {}, front);
    forall y | y in rest ensures y in h && y in h' && Same(h[y], h'[y]) && Bytes(h, y) == Bytes(h', y) {
      assert y in held';
      BytesFrame(h, h', {}, y);
    }
    OthersTrans(h0, h, h', rest);
  }

  /** The top node is private and has been cropped in place. */
  lemma TopCropped(h0: Heap, rest: multiset<Id>, want: seq<byte>, h: Heap, held: multiset<Id>, x: Id, length: nat,
                   index: nat, m: nat, h': Heap)
    requires Shape(h0) && Prefixed(h0, rest, want, h, held, x, length) && IsNode(h[x].rep) && h[x].rc == 1
    requires h[x].rep.begin <= index < h[x].rep.end && h[x].rep.slots[index] in h
    requires 0 < m <= h[h[x].rep.slots[index]].rep.Len()
    requires Span(h, h[x].rep, h[x].rep.begin, index) + m == length
    requires Inv(h', held) && Cropped(h, x, index + 1, length, h')
    ensures Cropping(h0, rest, want, h', held, [x], m) && x in h'
    ensures h'[x].rep == CroppedRep(h[x].rep, index + 1, length)
  {
    hide Inv, RepOk, Bytes, Cropped, CroppedRep, Others, Inner, Outer, BytesOf, Near, Consume, AllSettled;
    InvShape(h', held);
    assert OwnedLeg(h, held, true, [x], 1);
    CroppedLeg(h, held, [x], index + 1, length, h');
    CroppedOthers(h, x, index + 1, length, h');
    CroppedWindow(h[x].rep, index, length);
    CropOverLong(h, h', x, index, m, length);
    TopSettled(h, held, x, h');
    CroppedBytes(h, held, [x], index + 1, length, h');
    assert held - multiset{x} == rest;
    OthersTrans(h0, h, h', rest);
    AllToSettled(h, h[x].rep.Level());
    CropParts(h, {}, h[x].rep.Level(), x, index, m, length);
    var e := h[x].rep.slots[index];
    EdgeKept(h, held, [x], index, length, h', e);
    NearConsume(true, Bytes(h, x), length);
    Cancelled(want, Consume(true, Bytes(h, e), m), BytesOf(h, h[x].rep.height, h[x].rep.slots[index + 1..h[x].rep.end]),
              Bytes(h', x));
  }

  lemma AllToSettled(h: Heap, k: nat)
    requires AllSettled(h, {})
    ensures SettledTo(h, {}, k)
  {
  }

  lemma TopSettled(h: Heap, held: multiset<Id>, x: Id, h': Heap)
    requires Inv(h, held) && Shape(h) && Shape(h') && AllSettled(h, {}) && x in held && x in h && h[x].rc == 1
    requires forall y :: y in h' && y != x ==> y in h && Same(h[y], h'[y])
    ensures AllSettled(h', {x})
  {
    hide Inv, RepOk, Settled;
    HeldIsNoEdge(h, held, x);
    forall y | y in h' && y != x ensures Settled(h', y) {
      SettledKept(h, h', y);
    }
  }

  /** The top node was shared; `r` is a cropped copy of it. */
  lemma TopCopied(h0: Heap, rest: multiset<Id>, want: seq<byte>, h: Heap, held: multiset<Id>, x: Id, length: nat,
                  index: nat, m: nat, r: Id, h1: Heap, h': Heap, held': multiset<Id>)
    requires Shape(h0) && Prefixed(h0, rest, want, h, held, x, length) && IsNode(h[x].rep)
    requires h[x].rep.begin <= index < h[x].rep.end && h[x].rep.slots[index] in h
    requires 0 < m <= h[h[x].rep.slots[index]].rep.Len()
    requires Span(h, h[x].rep, h[x].rep.begin, index) + m == length
    requires CopyOf(h, CroppedRep(h[x].rep, index + 1, length).Out(), r, h1)
    requires r in h1 && h1[r].rep == CroppedRep(h[x].rep, index + 1, length)
    requires Inv(h', held') && held' == held + multiset{r} - multiset{x} && Shrunk(h1, h')
    ensures Cropping(h0, rest, want, h', held', [r], m) && r in h'
    ensures h'[r].rep == CroppedRep(h[x].rep, index + 1, length)
  {
    hide Inv, RepOk, Bytes, CroppedRep, Others, Inner, Outer, BytesOf, Near, Consume, AllSettled,
      CopyOf, Shrunk;
    InvShape(h', held');
    assert held' == rest + multiset{r} && r in held';
    CopyOwned(h, CroppedRep(h[x].rep, index + 1, length).Out(), r, h1, h', held');
    CroppedWindow(h[x].rep, index, length);
    CopyOverLong(h, h', x, index, m, length, r);
    TopCopiedSettled(h, h', r);
    TopCopiedOthers(h0, rest, h, h', held', r);
    TopCopiedBytes(h, h', x, index, m, length, r);
  }

  lemma CopyOwned(h: Heap, es: seq<Id>, r: Id, h1: Heap, h': Heap, held': multiset<Id>)
    requires CopyOf(h, es, r, h1) && Shrunk(h1, h') && Inv(h', held') && r in held' && r in h1 && h1[r].rep.Btree?
    ensures r in h' && h'[r].rep == h1[r].rep && r !in h && OwnedLeg(h', held', true, [r], 1)
    ensures forall y :: y in h' && y != r ==> y in h && Same(h[y], h'[y])
  {
    hide Inv;
    InvShape(h', held');
    CountsPositive(h', held');
    HeldIn(h', held', r);
  }

  lemma TopCopiedSettled(h: Heap, h': Heap, r: Id)
    requires Shape(h) && Shape(h') && AllSettled(h, {}) && r !in h
    requires forall y :: y in h' && y != r ==> y in h && Same(h[y], h'[y])
    ensures AllSettled(h', {r})
  {
    hide RepOk, Settled;
    forall y | y in h' && y != r ensures Settled(h', y) {
      SettledKept(h, h', y);
    }
  }

  lemma CopyOverLong(h: Heap, h': Heap, x: Id, index: nat, m: nat, n: nat, r: Id)
    requires Shape(h) && Shape(h') && x in h && IsNode(h[x].rep) && h[x].rep.begin <= index < h[x].rep.end
    requires r in h' && h'[r].rep == CroppedRep(h[x].rep, index + 1, n) && r !in h
    requires forall y :: y in h' && y != r ==> y in h && Same(h[y], h'[y])
    requires h[x].rep.slots[index] in h && 0 < m <= h[h[x].rep.slots[index]].rep.Len()
    requires Span(h, h[x].rep, h[x].rep.begin, index) + m == n
    ensures OverLong(h', r, m)
  {
    hide CroppedRep, Inner, Outer, RepOk;
    CroppedWindow(h[x].rep, index, n);
    InnerIn(true, h'[r].rep.Out());
    EdgesBelow(h', r);
    SumLenFrame(h, h', h[x].rep.slots[h[x].rep.begin..index]);
  }

  lemma TopCopiedOthers(h0: Heap, rest: multiset<Id>, h: Heap, h': Heap, held': multiset<Id>, r: Id)
    requires Shape(h0) && Shape(h) && Shape(h') && Others(h0, h, rest) && Inv(h', held') && held' == rest + multiset{r}
    requires r !in h && forall y :: y in h' && y != r ==> y in h && Same(h[y], h'[y])
    ensures Others(h0, h', rest)
  {
    hide Inv, RepOk, Bytes;
    InvShape(h', held');
    forall y | y in rest ensures y in h && y in h' && Same(h[y], h'[y]) && Bytes(h, y) == Bytes(h', y) {
      assert y in held' && y in h;
      BytesFrame(h, h', {}, y);
    }
    OthersTrans(h0, h, h', rest);
  }

  lemma TopCopiedBytes(h: Heap, h': Heap, x: Id, index: nat, m: nat, n: nat, r: Id)
    requires Shape(h) && Shape(h') && AllSettled(h, {}) && x in h && IsNode(h[x].rep)
    requires h[x].rep.begin <= index < h[x].rep.end
    requires r in h' && h'[r].rep == CroppedRep(h[x].rep, index + 1, n) && r !in h
    requires forall y :: y in h' && y != r ==> y in h && Same(h[y], h'[y])
    requires h[x].rep.slots[index] in h && 0 < m <= h[h[x].rep.slots[index]].rep.Len()
    requires Span(h, h[x].rep, h[x].rep.begin, index) + m == n
    ensures
      var e := h[x].rep.slots[index];
      && e in h' && m <= |Bytes(h', e)| && n <= |Bytes(h, x)|
      && Bytes(h', r) == Near(true, Bytes(h, x), n) + Consume(true, Bytes(h', e), m)
  {
    hide RepOk, Bytes, CroppedRep, BytesOf, Near, Consume, AllSettled, Inner, Outer;
    var node := h[x].rep;
    var k, before, e := node.height, node.slots[node.begin..index], node.slots[index];
    SlotBytes(h, x, index);
    NodeBytes(h', r);
    assert node.slots[node.begin..index + 1] == before + [e];
    PartsAllEdges(h', k, before, [e]);
    assert e in [e] && IsEdge(h', k, e);
    BytesOfAppend(h', k, before, [e]);
    BytesOfOne(h', k, e);
    BytesFrame(h, h', {}, e);
    BytesOfFrame(h, h', {}, k, before);
    NearMiddle(BytesOf(h, k, before), Bytes(h, e), BytesOf(h, k, node.slots[index + 1..node.end]), m);
  }

  lemma NearMiddle(a: seq<byte>, b: seq<byte>, c: seq<byte>, m: nat)
    requires m <= |b|
    ensures a + b == Near(true, a + b + c, |a| + m) + Consume(true, b, m)
  {
  }

  /** Keeps the edges before slot `index + 1` of the handle `tree`: in place if it is private. */
  method ConsumeBeginTo(a: Arena, ghost h0: Heap, ghost rest: multiset<Id>, ghost want: seq<byte>, tree: Id,
                        index: nat, ghost m: nat, length: nat) returns (top: Id)
    requires a.Ok() && Shape(h0) && Prefixed(h0, rest, want, a.cells, a.held, tree, length)
    requires tree in a.cells && IsNode(a.cells[tree].rep) && a.cells[tree].rep.begin <= index < a.cells[tree].rep.end
    requires a.cells[tree].rep.slots[index] in a.cells && 0 < m <= a.cells[a.cells[tree].rep.slots[index]].rep.Len()
    requires Span(a.cells, a.cells[tree].rep, a.cells[tree].rep.begin, index) + m == length
    modifies a
    ensures a.Ok() && a.next >= old(a.next) && Cropping(h0, rest, want, a.cells, a.held, [top], m)
    ensures top in a.cells && a.cells[top].rep == CroppedRep(old(a.cells)[tree].rep, index + 1, length)
    ensures NoNewData(old(a.cells), a.cells)
  {
    hide Inv, RepOk, CroppedRep, Cropped, Span, Prefixed, Cropping, OnlyUnreachableGone, NoNewData;
    InvShape(a.cells, a.held);
    ghost var h, held := a.cells, a.held;
    PrefixedParts(h0, rest, want, h, held, tree, length);
    if a.cells[tree].rc == 1 {
      top := tree;
      CropNode(a, tree, index + 1, length);
      TopCropped(h0, rest, want, h, held, tree, length, index, m, a.cells);
      CroppedData(h, tree, index + 1, length, a.cells);
    } else {
      NodeOk(a.cells, tree);
      CropOk(a.cells, a.cells[tree].rep, index + 1, length);
      CropEdges(a.cells, CroppedRep(a.cells[tree].rep, index + 1, length));
      top := CopyNode(a, CroppedRep(a.cells[tree].rep, index + 1, length));
      ghost var h1 := a.cells;
      Unref(a, tree);
      CopiedData(h, CroppedRep(h[tree].rep, index + 1, length).Out(), top, h1, a.cells);
      TopCopied(h0, rest, want, h, held, tree, length, index, m, top, h1, a.cells, a.held);
    }
  }

  lemma CroppedData(h: Heap, x: Id, end: nat, length: nat, h': Heap)
    requires x in h && IsNode(h[x].rep) && h[x].rep.begin <= end <= h[x].rep.end && Cropped(h, x, end, length, h')
    ensures NoNewData(h, h')
  {
  }

  lemma CropEdges(h: Heap, rep: Rep)
    requires RepOk(h, rep) && rep.Btree?
    ensures AllEdges(h, rep.height, rep.Out())
  {
  }

  lemma PrefixedParts(h0: Heap, rest: multiset<Id>, want: seq<byte>, h: Heap, held: multiset<Id>, x: Id, length: nat)
    requires Shape(h0) && Prefixed(h0, rest, want, h, held, x, length)
    ensures x in held && AllSettled(h, {}) && Shape(h) && x in h && 0 < length <= h[x].rep.Len()
    ensures h[x].rep.Btree? ==> IsSettledNode(h, h[x].rep) && h[x].rep.Out() != []
  {
    hide Inv, Bytes;
    if h[x].rep.Btree? {
      SettledNode(h, {}, h[x].rep.Level(), x);
    }
  }

  /** Only a data edge is left; it is resized. */
  method CropToData(a: Arena, ghost h0: Heap, ghost rest: multiset<Id>, ghost want: seq<byte>, edge: Id, length: nat,
                    isMutable: bool)
    returns (r: Id)
    requires a.Ok() && Shape(h0) && Prefixed(h0, rest, want, a.cells, a.held, edge, length)
    requires edge in a.cells && !a.cells[edge].rep.Btree? && (isMutable ==> a.cells[edge].rc == 1)
    modifies a
    ensures a.Ok() && a.next >= old(a.next) && Outcome(h0, rest, a.cells, a.held, r, want) && !a.cells[r].rep.Btree?
    ensures NoNewData(old(a.cells), a.cells)
  {
    hide Inv, RepOk, Bytes, Near, Slice, DataBytes, Prefixed, Kept, SameAbove;
    ghost var h, held, n1 := a.cells, a.held, a.next;
    PrefixedParts(h0, rest, want, h, held, edge, length);
    r := ResizeEdge(a, edge, length, isMutable);
    Resized(h0, rest, want, h, held, n1, edge, length, isMutable, r, a.cells, a.held);
  }

  lemma Resized(h0: Heap, rest: multiset<Id>, want: seq<byte>, h: Heap, held: multiset<Id>, n1: Id, edge: Id,
                length: nat, isMutable: bool, r: Id, h': Heap, held': multiset<Id>)
    requires Shape(h0) && Prefixed(h0, rest, want, h, held, edge, length) && !h[edge].rep.Btree?
    requires isMutable ==> h[edge].rc == 1
    requires Inv(h', held') && held' == held - multiset{edge} + multiset{r} && r in h' && !h'[r].rep.Btree?
    requires Kept(h, n1, if isMutable then {edge} else {}, h') && (forall x :: x in h ==> x < n1) && SameAbove(h, 1, h')
    requires forall x :: x in h' && h'[x].rep.Btree? ==> x in h && h[x].rep.Btree?
    requires DataBytes(h', r) == Slice(DataBytes(h, edge), 0, length)
    ensures Outcome(h0, rest, h', held', r, want)
  {
    hide Inv, RepOk, Bytes, Near, Slice, DataBytes, AllSettled, Others;
    InvShape(h', held');
    var o := if isMutable then {edge} else {};
    assert edge in held && held' == rest + multiset{r};
    if isMutable {
      HeldIsNoEdge(h, held, edge);
      OnlyHandle(h, held, rest, edge);
    }
    assert Closed(h, o) && Agree(h, h', o);
    ResizedSettled(h, held, edge, isMutable, h', n1, {});
    BytesOfData(h, edge);
    BytesOfData(h', r);
    PartBytes(true, Bytes(h, edge), length);
    OthersIn(h0, h, rest);
    OthersFrame(h, h', held', o, rest);
    OthersTrans(h0, h, h', rest);
  }

  lemma OnlyHandle(h: Heap, held: multiset<Id>, rest: multiset<Id>, x: Id)
    requires Inv(h, held) && held == rest + multiset{x} && x in h && h[x].rc == 1
    ensures x !in rest
  {
    hide EdgeBag;
    LastIsHandle(h, EdgeBag(h), held, x);
  }

  lemma ResizedSettled(h: Heap, held: multiset<Id>, edge: Id, isMutable: bool, h': Heap, n1: Id, except: set<Id>)
    requires Inv(h, held) && Shape(h) && Shape(h') && AllSettled(h, except) && edge in held && edge in h
    requires isMutable ==> h[edge].rc == 1
    requires Kept(h, n1, if isMutable then {edge} else {}, h') && (forall x :: x in h ==> x < n1) && SameAbove(h, 1, h')
    requires forall x :: x in h' && h'[x].rep.Btree? ==> x in h && h[x].rep.Btree?
    ensures AllSettled(h', except)
  {
    hide Inv, RepOk, Settled;
    if isMutable {
      HeldIsNoEdge(h, held, edge);
    }
    forall x | x in h' && x !in except ensures Settled(h', x) {
      if h'[x].rep.Btree? {
        SettledKept(h, h', x);
      } else {
        DataSettled(h', x);
      }
    }
  }

  // --- `remove_suffix` --------------------------------------------------------------------------------

  /** Crops the private leg downwards from its top, which has already been cropped. */
  method CropLeg(a: Arena, ghost h0: Heap, ghost rest: multiset<Id>, ghost want: seq<byte>, top: Id, index0: nat,
                 m0: nat)
    requires a.Ok() && Shape(h0) && Cropping(h0, rest, want, a.cells, a.held, [top], m0)
    requires top in a.cells && a.cells[top].rep.Btree? && index0 < |a.cells[top].rep.slots|
    requires a.cells[top].rep.Out() != []
    requires a.cells[top].rep.slots[index0] == Outer(true, a.cells[top].rep.Out())
    modifies a
    ensures a.Ok() && a.next >= old(a.next) && Outcome(h0, rest, a.cells, a.held, top, want)
    ensures SameForm(old(a.cells), a.cells, top) && NoNewData(old(a.cells), a.cells)
  {
    hide Inv, RepOk, Bytes, Cropping, Outcome, Outer, NoNewData;
    FewerData(a.cells, a.cells, a.cells);
    var t: Id, m: nat := top, m0;
    var edge := a.cells[top].rep.slots[index0];
    ghost var leg := [top];
    CropEdge(h0, rest, want, a.cells, a.held, leg, m);
    while m != a.cells[edge].rep.Len() && a.cells[edge].rep.Btree? && a.cells[edge].rc == 1
      invariant a.Ok() && a.next == old(a.next) && Cropping(h0, rest, want, a.cells, a.held, leg, m)
      invariant leg != [] && leg[0] == top && leg[|leg| - 1] == t && t in a.cells && a.cells[t].rep.Btree?
      invariant a.cells[t].rep.Out() != [] && edge == Outer(true, a.cells[t].rep.Out()) && edge in a.cells
      invariant a.cells[edge].rep.Level() == a.cells[t].rep.height && 0 < m <= a.cells[edge].rep.Len()
      invariant SameForm(old(a.cells), a.cells, top) && NoNewData(old(a.cells), a.cells)
      decreases a.cells[edge].rep.Level()
    {
      ghost var h := a.cells;
      var index;
      index, m := CropDown(a, h0, rest, want, leg, edge, m);
      NoNewDataTrans(old(a.cells), h, a.cells);
      leg := leg + [edge];
      t := edge;
      edge := a.cells[t].rep.slots[index];
      CropEdge(h0, rest, want, a.cells, a.held, leg, m);
    }
    ghost var h1 := a.cells;
    if m == a.cells[edge].rep.Len() {
      CropDone(h0, rest, want, a.cells, a.held, leg, m);
    } else if !a.cells[edge].rep.Btree? {
      CropData(a, h0, rest, want, leg, t, edge, m);
      NoNewDataTrans(old(a.cells), h1, a.cells);
    } else {
      CropCopy(a, h0, rest, want, leg, t, edge, m);
      NoNewDataTrans(old(a.cells), h1, a.cells);
    }
  }

  /** The first `length` bytes of a node end `m` bytes into the edge in slot `index`. */
  ghost predicate EndsAt(h: Heap, node: Rep, index: nat, m: nat, length: nat) {
    && IsNode(node) && node.begin <= index < node.end && node.slots[index] in h
    && 0 < m <= h[node.slots[index]].rep.Len() && Span(h, node, node.begin, index) + m == length
  }

  /** Goes down to the first edge, in which the wanted bytes end. */
  method DropTop(a: Arena, ghost h0: Heap, ghost rest: multiset<Id>, ghost want: seq<byte>, tree: Id, ghost index: nat,
                 ghost m: nat, ghost length: nat) returns (edge: Id)
    requires a.Ok() && Shape(h0) && Prefixed(h0, rest, want, a.cells, a.held, tree, length) && tree in a.cells
    requires a.cells[tree].rep.Btree? && EndsAt(a.cells, a.cells[tree].rep, index, m, length)
    requires index == a.cells[tree].rep.begin
    modifies a
    ensures a.Ok() && a.next == old(a.next) && Prefixed(h0, rest, want, a.cells, a.held, edge, length)
    ensures edge in a.cells && a.cells[edge].rep.Level() < old(a.cells)[tree].rep.Level()
    ensures NoNewData(old(a.cells), a.cells)
  {
    hide Inv, RepOk, Bytes, Prefixed, Span, NoNewData;
    ghost var h, held := a.cells, a.held;
    PrefixedParts(h0, rest, want, h, held, tree, length);
    SpanNone(h, h[tree].rep, index);
    edge := ExtractFront(a, tree);
    PrefixedFront(h0, rest, want, h, held, tree, length, edge, a.cells, a.held);
    FewerData(h, h, a.cells);
  }

  lemma FewerData(h0: Heap, h: Heap, h': Heap)
    requires h0 == h || NoNewData(h0, h)
    requires forall x :: x in h' ==> x in h && Same(h[x], h'[x])
    ensures NoNewData(h0, h')
  {
  }

  /** Extracts the nodes at the top of the tree that are reduced to their first edge. */
  method ExtractTop(a: Arena, ghost h0: Heap, ghost rest: multiset<Id>, ghost want: seq<byte>, tree0: Id, length: nat)
    returns (tree: Id, index: nat, m: nat, isMutable: bool)
    requires a.Ok() && Shape(h0) && Prefixed(h0, rest, want, a.cells, a.held, tree0, length) && tree0 in a.cells
    requires a.cells[tree0].rep.Btree?
    modifies a
    ensures a.Ok() && a.next == old(a.next) && Prefixed(h0, rest, want, a.cells, a.held, tree, length)
    ensures tree in a.cells
    ensures a.cells[tree].rep.Level() <= old(a.cells)[tree0].rep.Level() && (isMutable ==> a.cells[tree].rc == 1)
    ensures a.cells[tree].rep.Btree? ==> EndsAt(a.cells, a.cells[tree].rep, index, m, length)
    ensures a.cells[tree].rep.Btree? ==> index > a.cells[tree].rep.begin
    ensures NoNewData(old(a.cells), a.cells)
  {
    hide Inv, RepOk, Bytes, Prefixed, Span, NoNewData;
    FewerData(a.cells, a.cells, a.cells);
    tree, isMutable := tree0, a.cells[tree0].rc == 1;
    PrefixedParts(h0, rest, want, a.cells, a.held, tree, length);
    index, m := IndexOfLength(a.cells, a.cells[tree].rep, length);
    while a.cells[tree].rep.Btree? && index == a.cells[tree].rep.begin
      invariant a.Ok() && a.next == old(a.next) && Prefixed(h0, rest, want, a.cells, a.held, tree, length)
      invariant tree in a.cells
      invariant a.cells[tree].rep.Level() <= old(a.cells)[tree0].rep.Level() && (isMutable ==> a.cells[tree].rc == 1)
      invariant a.cells[tree].rep.Btree? ==> EndsAt(a.cells, a.cells[tree].rep, index, m, length)
      invariant NoNewData(old(a.cells), a.cells)
      decreases a.cells[tree].rep.Level()
    {
      ghost var h := a.cells;
      tree := DropTop(a, h0, rest, want, tree, index, m, length);
      NoNewDataTrans(old(a.cells), h, a.cells);
      isMutable := isMutable && a.cells[tree].rc == 1;
      if a.cells[tree].rep.Btree? {
        PrefixedParts(h0, rest, want, a.cells, a.held, tree, length);
        index, m := IndexOfLength(a.cells, a.cells[tree].rep, length);
      }
    }
  }

  /** Removes the last `n` bytes of a tree: nothing remains, or a data edge, or a tree. */
  method RemoveSuffix(a: Arena, tree0: Id, n: nat) returns (r: Option<Id>)
    requires a.Ok() && AllSettled(a.cells, {}) && tree0 in a.held && a.cells[tree0].rep.Btree?
    requires n <= a.cells[tree0].rep.length
    modifies a
    ensures a.Ok() && a.next >= old(a.next) && (r.None? <==> n == old(a.cells)[tree0].rep.length)
    ensures r.None? ==>
      AllSettled(a.cells, {}) && a.held == old(a.held) - multiset{tree0} && Shrunk(old(a.cells), a.cells)
    ensures n <= |old(Bytes(a.cells, tree0))|
    ensures r.Some? ==> Outcome(old(a.cells), old(a.held) - multiset{tree0}, a.cells, a.held, r.value,
                                Near(true, old(Bytes(a.cells, tree0)), |old(Bytes(a.cells, tree0))| - n))
    ensures r.Some? ==> a.cells[r.value].rep.Level() <= old(a.cells)[tree0].rep.Level()
    ensures NoNewData(old(a.cells), a.cells)
    ensures r.Some? && n > 0 && a.cells[r.value].rep.Btree? ==> |a.cells[r.value].rep.Out()| >= 2
    ensures forall x :: x in a.cells && (a.cells[x].rep.Flat? || a.cells[x].rep.External?) ==> x in old(a.cells)
  {
    hide Inv, RepOk, Bytes, Prefixed, Span, Cropping, CroppedRep, Outcome, Near, OnlyUnreachableGone;
    HeldIn(a.cells, a.held, tree0);
    ghost var h0, held0, rest := a.cells, a.held, a.held - multiset{tree0};
    LenIsBytes(h0, tree0);
    var len := a.cells[tree0].rep.length;
    ghost var want := Near(true, Bytes(h0, tree0), len - n);
    if n == 0 {
      r := Some(tree0);
      Unchanged(h0, held0, tree0);
    } else if n >= len {
      Unref(a, tree0);
      r := None;
      ShrunkSettled(h0, a.cells, a.held);
    } else {
      var length := len - n;
      PrefixedStart(h0, held0, tree0, length);
      var tree, index, m, isMutable := ExtractTop(a, h0, rest, want, tree0, length);
      var s;
      if a.cells[tree].rep.Btree? {
        ghost var node := a.cells[tree].rep;
        s := ConsumeBeginTo(a, h0, rest, want, tree, index, m, length);
        CroppedWindow(node, index, length);
        CroppedSlots(node, index, length);
        assert |CroppedRep(node, index + 1, length).Out()| == index + 1 - node.begin;
        CropLeg(a, h0, rest, want, s, index, m);
      } else {
        s := CropToData(a, h0, rest, want, tree, length, isMutable);
      }
      r := Some(s);
    }
  }

  lemma Unchanged(h: Heap, held: multiset<Id>, x: Id)
    requires Inv(h, held) && Shape(h) && AllSettled(h, {}) && x in held && x in h
    ensures Outcome(h, held - multiset{x}, h, held, x, Near(true, Bytes(h, x), |Bytes(h, x)|))
  {
    hide Inv, AllSettled, Bytes;
    assert held - multiset{x} + multiset{x} == held;
    OthersSelf(h, held, held - multiset{x});
  }

  lemma ShrunkSettled(h: Heap, h': Heap, held': multiset<Id>)
    requires Shape(h) && AllSettled(h, {}) && Inv(h', held') && Shrunk(h, h')
    ensures AllSettled(h', {})
  {
    hide Inv, Settled;
    InvShape(h', held');
    forall x | x in h' ensures Settled(h', x) {
      SettledKept(h, h', x);
    }
  }

  lemma PrefixedStart(h: Heap, held: multiset<Id>, x: Id, length: nat)
    requires Inv(h, held) && Shape(h) && AllSettled(h, {}) && x in held && x in h && 0 < length <= h[x].rep.Len()
    ensures length <= |Bytes(h, x)|
    ensures Prefixed(h, held - multiset{x}, Near(true, Bytes(h, x), length), h, held, x, length)
  {
    hide Inv, AllSettled, Bytes;
    assert held - multiset{x} + multiset{x} == held;
    OthersSelf(h, held, held - multiset{x});
    LenIsBytes(h, x);
  }
}
