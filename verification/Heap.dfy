/**
The shared heap of reps.

A rep is a cell of the heap, named by an id that is never reused. The bytes of a rep are those
of its data edges, read left to right; the data edges of a rep are `Leaves(h, x)`.
*/
module Heap {

  type Id = nat

  newtype byte = x: int | 0 <= x < 256

  /** Number of edge slots of a btree node. */
  const MAX_CAPACITY: nat := 6
  /** Largest number of levels of a btree; leaves have height 0. */
  const MAX_DEPTH: nat := 12
  const MAX_HEIGHT: nat := 11

  /** The four kinds of rep. */
  datatype Rep =
    | Flat(data: seq<byte>, capacity: nat)
    | External(data: seq<byte>)
    | Substring(start: nat, len: nat, child: Id)
    | Btree(length: nat, height: nat, begin: nat, end: nat, slots: seq<Id>)
  {
    predicate IsPayload() {
      Flat? || External?
    }

    /** The stored length of the rep. */
    function Len(): nat {
      match this
      case Flat(data, _) => |data|
      case External(data) => |data|
      case Substring(_, len, _) => len
      case Btree(length, _, _, _, _) => length
    }

    /** The live edges, left to right. Slots outside `[begin, end)` hold no reference. */
    function Out(): seq<Id> {
      match this
      case Flat(_, _) => []
      case External(_) => []
      case Substring(_, _, child) => [child]
      case Btree(_, _, begin, end, slots) => if begin <= end <= |slots| then slots[begin..end] else []
    }

    /** 0 for a data edge, height + 1 for a btree node. */
    function Level(): nat {
      if Btree? then height + 1 else 0
    }

    /** Strictly decreases along every edge. */
    function Rank(): nat {
      if Btree? then height + 2 else if Substring? then 1 else 0
    }
  }

  /** A rep with its stored reference count. */
  datatype Cell = Cell(rc: nat, rep: Rep)

  type Heap = map<Id, Cell>

  /** Equal in everything but the reference count. */
  predicate Same(c: Cell, d: Cell) {
    c.rep == d.rep
  }

  // --- Well-formed heaps ----------------------------------------------------

  /** `e` may be an edge of a btree node of height `k`. */
  predicate IsEdge(h: Heap, k: nat, e: Id) {
    e in h && h[e].rep.Level() == k
  }

  ghost predicate AllEdges(h: Heap, k: nat, es: seq<Id>) {
    forall e :: e in es ==> IsEdge(h, k, e)
  }

  ghost predicate RepOk(h: Heap, c: Rep) {
    match c
    case Flat(data, capacity) => 0 < |data| <= capacity
    case External(data) => 0 < |data|
    case Substring(start, len, child) =>
      0 < len && child in h && h[child].rep.IsPayload() && start + len <= h[child].rep.Len()
    case Btree(_, height, begin, end, slots) =>
      |slots| == MAX_CAPACITY && begin <= end <= MAX_CAPACITY && AllEdges(h, height, c.Out())
  }

  /** Every edge leads to a live cell of the right kind. */
  ghost predicate Shape(h: Heap) {
    forall x :: x in h ==> RepOk(h, h[x].rep)
  }

  // --- Stored lengths ---------------------------------------------------------

  ghost function SumLen(h: Heap, es: seq<Id>): nat {
    if es == [] then 0 else (if es[0] in h then h[es[0]].rep.Len() else 0) + SumLen(h, es[1..])
  }

  /** A btree node is not empty and stores the sum of its edges' lengths. */
  ghost predicate Settled(h: Heap, x: Id)
    requires x in h
  {
    h[x].rep.Btree? ==>
      h[x].rep.Out() != [] && h[x].rep.length == SumLen(h, h[x].rep.Out())
  }

  ghost predicate AllSettled(h: Heap, except: set<Id>) {
    forall x :: x in h && x !in except ==> Settled(h, x)
  }

  lemma {:induction false} SumLenAppend(h: Heap, a: seq<Id>, b: seq<Id>)
    ensures SumLen(h, a + b) == SumLen(h, a) + SumLen(h, b)
  {
    if a == [] {
      assert a + b == b;
    } else {
      assert (a + b)[1..] == a[1..] + b;
      SumLenAppend(h, a[1..], b);
    }
  }

  lemma {:induction false} SumLenFrame(h: Heap, h': Heap, es: seq<Id>)
    requires forall e :: e in es ==> e in h && e in h' && h[e].rep.Len() == h'[e].rep.Len()
    ensures SumLen(h, es) == SumLen(h', es)
  {
    if es != [] {
      SumLenFrame(h, h', es[1..]);
    }
  }

  // --- Data edges of a rep ------------------------------------------------------

  function Leaves(h: Heap, x: Id): seq<Id>
    requires Shape(h) && x in h
    decreases h[x].rep.Level(), 0
  {
    if h[x].rep.Btree? then
      assert RepOk(h, h[x].rep);
      LeavesOf(h, h[x].rep.height, h[x].rep.Out())
    else [x]
  }

  function LeavesOf(h: Heap, k: nat, es: seq<Id>): seq<Id>
    requires Shape(h) && AllEdges(h, k, es)
    decreases k, |es|
  {
    if es == [] then [] else
      assert es[0] in es;
      Leaves(h, es[0]) + LeavesOf(h, k, es[1..])
  }

  lemma {:induction false} LeavesOfAppend(h: Heap, k: nat, a: seq<Id>, b: seq<Id>)
    requires Shape(h) && AllEdges(h, k, a) && AllEdges(h, k, b)
    ensures AllEdges(h, k, a + b)
    ensures LeavesOf(h, k, a + b) == LeavesOf(h, k, a) + LeavesOf(h, k, b)
  {
    if a == [] {
      assert a + b == b;
    } else {
      assert (a + b)[1..] == a[1..] + b;
      LeavesOfAppend(h, k, a[1..], b);
    }
  }

  lemma LeavesOfOne(h: Heap, k: nat, e: Id)
    requires Shape(h) && IsEdge(h, k, e)
    ensures AllEdges(h, k, [e])
    ensures LeavesOf(h, k, [e]) == Leaves(h, e)
  {
    assert [e][1..] == [];
  }

  lemma DataLeaf(h: Heap, e: Id)
    requires Shape(h) && e in h && !h[e].rep.Btree?
    ensures Leaves(h, e) == [e]
  {
  }

  /** All leaves are data edges of the heap. */
  lemma {:induction false} LeavesAreData(h: Heap, x: Id)
    requires Shape(h) && x in h
    ensures AllEdges(h, 0, Leaves(h, x))
    decreases h[x].rep.Level(), 0
  {
    if h[x].rep.Btree? {
      LeavesOfAreData(h, h[x].rep.height, h[x].rep.Out());
    }
  }

  lemma {:induction false} LeavesOfAreData(h: Heap, k: nat, es: seq<Id>)
    requires Shape(h) && AllEdges(h, k, es)
    ensures AllEdges(h, 0, LeavesOf(h, k, es))
    decreases k, |es|
  {
    if es != [] {
      assert es[0] in es;
      LeavesAreData(h, es[0]);
      LeavesOfAreData(h, k, es[1..]);
    }
  }

  // --- Bytes ---------------------------------------------------------------------

  /** The bytes of a data edge. */
  function DataBytes(h: Heap, x: Id): seq<byte> {
    if x !in h then [] else
      match h[x].rep
      case Flat(data, _) => data
      case External(data) => data
      case Substring(start, len, child) =>
        if child in h && h[child].rep.IsPayload() && start + len <= |h[child].rep.data| then
          h[child].rep.data[start..start + len]
        else []
      case Btree(_, _, _, _, _) => []
  }

  function Cat(h: Heap, es: seq<Id>): seq<byte> {
    if es == [] then [] else DataBytes(h, es[0]) + Cat(h, es[1..])
  }

  lemma {:induction false} CatAppend(h: Heap, a: seq<Id>, b: seq<Id>)
    ensures Cat(h, a + b) == Cat(h, a) + Cat(h, b)
  {
    if a == [] {
      assert a + b == b;
    } else {
      assert (a + b)[1..] == a[1..] + b;
      CatAppend(h, a[1..], b);
    }
  }

  /** What a rep holds. */
  ghost function Bytes(h: Heap, x: Id): seq<byte>
    requires Shape(h) && x in h
  {
    Cat(h, Leaves(h, x))
  }

  ghost function BytesOf(h: Heap, k: nat, es: seq<Id>): seq<byte>
    requires Shape(h) && AllEdges(h, k, es)
  {
    Cat(h, LeavesOf(h, k, es))
  }

  lemma BytesOfAppend(h: Heap, k: nat, a: seq<Id>, b: seq<Id>)
    requires Shape(h) && AllEdges(h, k, a) && AllEdges(h, k, b)
    ensures AllEdges(h, k, a + b)
    ensures BytesOf(h, k, a + b) == BytesOf(h, k, a) + BytesOf(h, k, b)
  {
    LeavesOfAppend(h, k, a, b);
    CatAppend(h, LeavesOf(h, k, a), LeavesOf(h, k, b));
  }

  lemma BytesOfOne(h: Heap, k: nat, e: Id)
    requires Shape(h) && IsEdge(h, k, e)
    ensures AllEdges(h, k, [e])
    ensures BytesOf(h, k, [e]) == Bytes(h, e)
  {
    LeavesOfOne(h, k, e);
  }

  lemma BytesOfData(h: Heap, x: Id)
    requires Shape(h) && x in h && !h[x].rep.Btree?
    ensures Bytes(h, x) == DataBytes(h, x)
    ensures |DataBytes(h, x)| == h[x].rep.Len() > 0
  {
    assert RepOk(h, h[x].rep);
    assert Cat(h, [x]) == DataBytes(h, x) + Cat(h, [x][1..]);
  }

  lemma CatOne(h: Heap, x: Id)
    ensures Cat(h, [x]) == DataBytes(h, x)
    ensures Shape(h) && x in h && !h[x].rep.Btree? ==> Cat(h, [x]) == Bytes(h, x)
  {
    assert [x][1..] == [];
  }

  /** All nodes but those of `except` are settled, and those are above level `k`. */
  ghost predicate SettledTo(h: Heap, except: set<Id>, k: nat) {
    AllSettled(h, except) && forall x :: x in except && x in h ==> h[x].rep.Level() > k
  }

  lemma {:induction false} LenIsBytesTo(h: Heap, except: set<Id>, k0: nat, x: Id)
    requires Shape(h) && SettledTo(h, except, k0) && x in h && h[x].rep.Level() <= k0
    ensures h[x].rep.Len() == |Bytes(h, x)| > 0
    decreases h[x].rep.Level(), 0
  {
    if h[x].rep.Btree? {
      assert Settled(h, x);
      assert RepOk(h, h[x].rep);
      LenIsBytesOfTo(h, except, k0, h[x].rep.height, h[x].rep.Out());
    } else {
      BytesOfData(h, x);
    }
  }

  lemma {:induction false} LenIsBytesOfTo(h: Heap, except: set<Id>, k0: nat, k: nat, es: seq<Id>)
    requires Shape(h) && SettledTo(h, except, k0) && AllEdges(h, k, es) && k <= k0
    ensures SumLen(h, es) == |BytesOf(h, k, es)|
    ensures |es| <= SumLen(h, es)
    decreases k, |es|
  {
    if es != [] {
      assert es[0] in es;
      LenIsBytesTo(h, except, k0, es[0]);
      LenIsBytesOfTo(h, except, k0, k, es[1..]);
      CatAppend(h, Leaves(h, es[0]), LeavesOf(h, k, es[1..]));
    }
  }

  /** The stored length of a rep in a settled heap is the number of its bytes, and no rep is empty. */
  lemma LenIsBytes(h: Heap, x: Id)
    requires Shape(h) && AllSettled(h, {}) && x in h
    ensures h[x].rep.Len() == |Bytes(h, x)| > 0
  {
    LenIsBytesTo(h, {}, h[x].rep.Level(), x);
  }

  lemma LenIsBytesOf(h: Heap, k: nat, es: seq<Id>)
    requires Shape(h) && AllSettled(h, {}) && AllEdges(h, k, es)
    ensures SumLen(h, es) == |BytesOf(h, k, es)|
    ensures |es| <= SumLen(h, es)
  {
    LenIsBytesOfTo(h, {}, k, k, es);
  }

  // --- Frames -----------------------------------------------------------------------

  /** No cell outside `o` has an edge into `o`. */
  ghost predicate Closed(h: Heap, o: set<Id>) {
    forall x, e :: x in h && x !in o && e in h[x].rep.Out() ==> e !in o
  }

  /** Cells of both heaps outside `o` agree but for their counts. */
  ghost predicate Agree(h: Heap, h': Heap, o: set<Id>) {
    forall x :: x in h && x in h' && x !in o ==> Same(h[x], h'[x])
  }

  /** Cells of both heaps outside `o` have the same kind, height and edges. */
  ghost predicate AgreeEdges(h: Heap, h': Heap, o: set<Id>) {
    forall x :: x in h && x in h' && x !in o ==>
      h[x].rep.Level() == h'[x].rep.Level() && (h[x].rep.Btree? ==> h[x].rep.Out() == h'[x].rep.Out())
  }

  lemma {:induction false} LeavesFrameEdges(h: Heap, h': Heap, o: set<Id>, x: Id)
    requires Shape(h) && Shape(h') && Closed(h, o) && AgreeEdges(h, h', o)
    requires x in h && x in h' && x !in o
    ensures Leaves(h', x) == Leaves(h, x)
    ensures forall e :: e in Leaves(h, x) ==> e in h && e in h' && e !in o
    decreases h[x].rep.Level(), 0
  {
    if h[x].rep.Btree? {
      assert RepOk(h, h[x].rep) && RepOk(h', h'[x].rep);
      LeavesOfFrameEdges(h, h', o, h[x].rep.height, h[x].rep.Out());
    }
  }

  lemma {:induction false} LeavesOfFrameEdges(h: Heap, h': Heap, o: set<Id>, k: nat, es: seq<Id>)
    requires Shape(h) && Shape(h') && Closed(h, o) && AgreeEdges(h, h', o)
    requires AllEdges(h, k, es) && AllEdges(h', k, es)
    requires forall e :: e in es ==> e !in o
    ensures LeavesOf(h', k, es) == LeavesOf(h, k, es)
    ensures forall e :: e in LeavesOf(h, k, es) ==> e in h && e in h' && e !in o
    decreases k, |es|
  {
    if es != [] {
      assert es[0] in es;
      LeavesFrameEdges(h, h', o, es[0]);
      LeavesOfFrameEdges(h, h', o, k, es[1..]);
    }
  }

  lemma LeavesFrame(h: Heap, h': Heap, o: set<Id>, x: Id)
    requires Shape(h) && Shape(h') && Closed(h, o) && Agree(h, h', o)
    requires x in h && x in h' && x !in o
    ensures Leaves(h', x) == Leaves(h, x)
    ensures forall e :: e in Leaves(h, x) ==> e in h && e in h' && e !in o
  {
    LeavesFrameEdges(h, h', o, x);
  }

  lemma LeavesOfFrame(h: Heap, h': Heap, o: set<Id>, k: nat, es: seq<Id>)
    requires Shape(h) && Shape(h') && Closed(h, o) && Agree(h, h', o)
    requires AllEdges(h, k, es) && AllEdges(h', k, es)
    requires forall e :: e in es ==> e !in o
    ensures LeavesOf(h', k, es) == LeavesOf(h, k, es)
    ensures forall e :: e in LeavesOf(h, k, es) ==> e in h && e in h' && e !in o
  {
    LeavesOfFrameEdges(h, h', o, k, es);
  }

  lemma DataFrame(h: Heap, h': Heap, o: set<Id>, x: Id)
    requires Shape(h) && Shape(h') && Closed(h, o) && Agree(h, h', o)
    requires x in h && x in h' && x !in o && !h[x].rep.Btree?
    ensures DataBytes(h', x) == DataBytes(h, x)
  {
    assert RepOk(h, h[x].rep) && RepOk(h', h'[x].rep);
    if h[x].rep.Substring? {
      assert h[x].rep.child in h[x].rep.Out();
    }
  }

  lemma {:induction false} CatFrame(h: Heap, h': Heap, o: set<Id>, es: seq<Id>)
    requires Shape(h) && Shape(h') && Closed(h, o) && Agree(h, h', o)
    requires AllEdges(h, 0, es) && forall e :: e in es ==> e in h' && e !in o
    ensures Cat(h', es) == Cat(h, es)
  {
    if es != [] {
      DataFrame(h, h', o, es[0]);
      CatFrame(h, h', o, es[1..]);
    }
  }

  /** A cell outside a closed set keeps its bytes when only the closed set is written. */
  lemma BytesFrame(h: Heap, h': Heap, o: set<Id>, x: Id)
    requires Shape(h) && Shape(h') && Closed(h, o) && Agree(h, h', o)
    requires x in h && x in h' && x !in o
    ensures Leaves(h', x) == Leaves(h, x)
    ensures Bytes(h', x) == Bytes(h, x)
  {
    LeavesFrame(h, h', o, x);
    LeavesAreData(h, x);
    CatFrame(h, h', o, Leaves(h, x));
  }

  lemma BytesOfFrame(h: Heap, h': Heap, o: set<Id>, k: nat, es: seq<Id>)
    requires Shape(h) && Shape(h') && Closed(h, o) && Agree(h, h', o)
    requires AllEdges(h, k, es) && AllEdges(h', k, es)
    requires forall e :: e in es ==> e !in o
    ensures LeavesOf(h', k, es) == LeavesOf(h, k, es)
    ensures BytesOf(h', k, es) == BytesOf(h, k, es)
  {
    LeavesOfFrame(h, h', o, k, es);
    LeavesOfAreData(h, k, es);
    CatFrame(h, h', o, LeavesOf(h, k, es));
  }
}
