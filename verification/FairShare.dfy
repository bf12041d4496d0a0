/**
Memory accounting (rep/analysis.rs), in exact arithmetic.

The fair share of a reference on `x` is `x`'s own size and the fair shares of its edges, divided
by the number of references on `x`. Summed over all handles, fair shares add up to the sizes of
all live cells, each counted once.
*/
module FairShare {
  import opened Heap
  import opened Counts
  import opened Arenas
  import opened Rebuilds

  /** What a rep takes up. */
  type Sizes = Rep -> nat

  // --- Sums over sets --------------------------------------------------------------------------

  ghost function Sum(f: Id -> real, s: set<Id>): real {
    if s == {} then 0.0 else
      var x :| x in s;
      f(x) + Sum(f, s - {x})
  }

  lemma {:induction false} SumSplit(f: Id -> real, s: set<Id>, x: Id)
    requires x in s
    ensures Sum(f, s) == f(x) + Sum(f, s - {x})
    decreases s
  {
    var y :| y in s && Sum(f, s) == f(y) + Sum(f, s - {y});
    if y != x {
      SumSplit(f, s - {y}, x);
      SumSplit(f, s - {x}, y);
      assert s - {y} - {x} == s - {x} - {y};
    }
  }

  lemma {:induction false} SumSame(f: Id -> real, g: Id -> real, s: set<Id>)
    requires forall x :: x in s ==> f(x) == g(x)
    ensures Sum(f, s) == Sum(g, s)
    decreases s
  {
    if s != {} {
      var x :| x in s;
      SumSplit(f, s, x);
      SumSplit(g, s, x);
      SumSame(f, g, s - {x});
    }
  }

  lemma {:induction false} SumAdd(f: Id -> real, g: Id -> real, k: Id -> real, s: set<Id>)
    requires forall x :: x in s ==> k(x) == f(x) + g(x)
    ensures Sum(k, s) == Sum(f, s) + Sum(g, s)
    decreases s
  {
    if s != {} {
      var x :| x in s;
      SumSplit(f, s, x);
      SumSplit(g, s, x);
      SumSplit(k, s, x);
      SumAdd(f, g, k, s - {x});
    }
  }

  lemma {:induction false} SumZero(f: Id -> real, s: set<Id>)
    requires forall x :: x in s ==> f(x) == 0.0
    ensures Sum(f, s) == 0.0
    decreases s
  {
    if s != {} {
      var x :| x in s;
      SumSplit(f, s, x);
      SumZero(f, s - {x});
    }
  }

  // --- The fair share --------------------------------------------------------------------------

  ghost predicate Below(h: Heap, rank: nat, es: seq<Id>) {
    forall e :: e in es ==> e in h && h[e].rep.Rank() < rank
  }

  lemma EdgesAreBelow(h: Heap, x: Id)
    requires Shape(h) && x in h
    ensures Below(h, h[x].rep.Rank(), h[x].rep.Out())
  {
    EdgesBelow(h, x);
  }

  /** The share of one of the references on `x`. */
  ghost function Share(h: Heap, size: Sizes, x: Id): real
    requires Shape(h) && x in h
    decreases h[x].rep.Rank(), 1, 0
  {
    EdgesAreBelow(h, x);
    var all := size(h[x].rep) as real + ShareOf(h, size, h[x].rep.Rank(), h[x].rep.Out());
    if h[x].rc == 0 then all else all / h[x].rc as real
  }

  ghost function ShareOf(h: Heap, size: Sizes, rank: nat, es: seq<Id>): real
    requires Shape(h) && Below(h, rank, es)
    decreases rank, 0, |es|
  {
    if es == [] then 0.0 else
      assert es[0] in es;
      Share(h, size, es[0]) + ShareOf(h, size, rank, es[1..])
  }

  /** The same for any id. */
  ghost function ShareAt(h: Heap, size: Sizes, x: Id): real {
    if Shape(h) && x in h then Share(h, size, x) else 0.0
  }

  ghost function SeqShare(h: Heap, size: Sizes, es: seq<Id>): real {
    if es == [] then 0.0 else ShareAt(h, size, es[0]) + SeqShare(h, size, es[1..])
  }

  lemma {:induction false} ShareOfIs(h: Heap, size: Sizes, rank: nat, es: seq<Id>)
    requires Shape(h) && Below(h, rank, es)
    ensures ShareOf(h, size, rank, es) == SeqShare(h, size, es)
  {
    hide RepOk, Share;
    if es != [] {
      assert es[0] in es;
      ShareOfIs(h, size, rank, es[1..]);
    }
  }

  /** Bag `bag` weighted with shares. */
  ghost function Weighted(h: Heap, size: Sizes, bag: multiset<Id>): Id -> real {
    (x: Id) => bag[x] as real * ShareAt(h, size, x)
  }

  ghost function OutShares(h: Heap, size: Sizes): Id -> real {
    (x: Id) => if x in h then SeqShare(h, size, h[x].rep.Out()) else 0.0
  }

  ghost function SizesOf(h: Heap, size: Sizes): Id -> real {
    (x: Id) => if x in h then size(h[x].rep) as real else 0.0
  }

  ghost function Recounted(h: Heap, size: Sizes): Id -> real {
    (x: Id) => if x in h then h[x].rc as real * ShareAt(h, size, x) else 0.0
  }

  lemma WeightedAdd(h: Heap, size: Sizes, a: multiset<Id>, b: multiset<Id>, s: set<Id>)
    ensures Sum(Weighted(h, size, a + b), s) == Sum(Weighted(h, size, a), s) + Sum(Weighted(h, size, b), s)
  {
    hide ShareAt;
    forall x | x in s ensures Weighted(h, size, a + b)(x) == Weighted(h, size, a)(x) + Weighted(h, size, b)(x) {
      Distributed(a[x] as real, b[x] as real, ShareAt(h, size, x));
    }
    SumAdd(Weighted(h, size, a), Weighted(h, size, b), Weighted(h, size, a + b), s);
  }

  lemma Distributed(a: real, b: real, c: real)
    ensures (a + b) * c == a * c + b * c
  {
  }

  lemma WeightedOne(h: Heap, size: Sizes, e: Id, s: set<Id>)
    requires e in s
    ensures Sum(Weighted(h, size, multiset{e}), s) == ShareAt(h, size, e)
  {
    hide ShareAt;
    var f := Weighted(h, size, multiset{e});
    SumSplit(f, s, e);
    forall x | x in s - {e} ensures f(x) == 0.0 {
      assert multiset{e}[x] == 0;
    }
    SumZero(f, s - {e});
  }

  lemma {:induction false} WeightedSeq(h: Heap, size: Sizes, es: seq<Id>, s: set<Id>)
    requires forall e :: e in es ==> e in s
    ensures Sum(Weighted(h, size, multiset(es)), s) == SeqShare(h, size, es)
  {
    hide ShareAt, Sum, Weighted;
    if es == [] {
      NoWeight(h, size, s);
    } else {
      assert es == [es[0]] + es[1..];
      assert multiset(es) == multiset{es[0]} + multiset(es[1..]);
      WeightedAdd(h, size, multiset{es[0]}, multiset(es[1..]), s);
      WeightedOne(h, size, es[0], s);
      WeightedSeq(h, size, es[1..], s);
    }
  }

  lemma NoWeight(h: Heap, size: Sizes, s: set<Id>)
    ensures Sum(Weighted(h, size, multiset([])), s) == 0.0
  {
    hide ShareAt;
    SumZero(Weighted(h, size, multiset([])), s);
  }

  /** The shares of all edges of the cells of `k`, a part of `h`. */
  lemma {:induction false} EdgeShares(h: Heap, size: Sizes, k: Heap)
    requires Shape(h) && k.Keys <= h.Keys && forall x :: x in k ==> k[x] == h[x]
    ensures Sum(OutShares(h, size), k.Keys) == Sum(Weighted(h, size, EdgeBag(k)), h.Keys)
    decreases |k|
  {
    hide RepOk, ShareAt, EdgeBag, SeqShare, Weighted;
    if k == map[] {
      assert k.Keys == {};
      NoEdges(k);
      NoWeight(h, size, h.Keys);
    } else {
      var x :| x in k;
      EdgeShares(h, size, k - {x});
      EdgeBagSplit(k, x);
      assert (k - {x}).Keys == k.Keys - {x};
      SumSplit(OutShares(h, size), k.Keys, x);
      EdgesBelow(h, x);
      WeightedSeq(h, size, h[x].rep.Out(), h.Keys);
      WeightedAdd(h, size, multiset(h[x].rep.Out()), EdgeBag(k - {x}), h.Keys);
    }
  }

  lemma NoEdges(k: Heap)
    requires k == map[]
    ensures EdgeBag(k) == multiset([])
  {
  }

  /** All references on a cell together have its size and the shares of its edges. */
  lemma WholeShare(h: Heap, size: Sizes, x: Id)
    requires Shape(h) && x in h && h[x].rc > 0
    ensures Recounted(h, size)(x) == SizesOf(h, size)(x) + OutShares(h, size)(x)
  {
    hide RepOk, SeqShare, Share;
    ShareIs(h, size, x);
    Divided(h[x].rc as real, size(h[x].rep) as real + SeqShare(h, size, h[x].rep.Out()));
  }

  /** One share of a cell with references. */
  lemma ShareIs(h: Heap, size: Sizes, x: Id)
    requires Shape(h) && x in h && h[x].rc > 0
    ensures Share(h, size, x) == (size(h[x].rep) as real + SeqShare(h, size, h[x].rep.Out())) / h[x].rc as real
  {
    hide RepOk, SeqShare, ShareOf, Below;
    EdgesAreBelow(h, x);
    ShareOfIs(h, size, h[x].rep.Rank(), h[x].rep.Out());
  }

  lemma Divided(n: real, a: real)
    requires n > 0.0
    ensures n * (a / n) == a
  {
  }

  /** Fair-share totals over all handles add up to the sizes of all live cells. */
  lemma FairSharesAddUp(h: Heap, held: multiset<Id>, size: Sizes)
    requires Inv(h, held)
    ensures Sum(Weighted(h, size, held), h.Keys) == Sum(SizesOf(h, size), h.Keys)
  {
    hide RepOk, Recounted, OutShares, SizesOf, ShareAt, EdgeBag, Weighted;
    InvShape(h, held);
    CountsAre(h, held);
    forall x | x in h.Keys ensures Recounted(h, size)(x) == SizesOf(h, size)(x) + OutShares(h, size)(x) {
      WholeShare(h, size, x);
    }
    SumAdd(SizesOf(h, size), OutShares(h, size), Recounted(h, size), h.Keys);
    EdgeShares(h, size, h);
    RecountedIs(h, held, size);
    WeightedAdd(h, size, EdgeBag(h), held, h.Keys);
  }

  lemma CountsAre(h: Heap, held: multiset<Id>)
    requires Inv(h, held)
    ensures forall x :: x in h ==> h[x].rc == EdgeBag(h)[x] + held[x] && h[x].rc > 0
  {
  }

  lemma RecountedIs(h: Heap, held: multiset<Id>, size: Sizes)
    requires forall x :: x in h ==> h[x].rc == EdgeBag(h)[x] + held[x]
    ensures Sum(Recounted(h, size), h.Keys) == Sum(Weighted(h, size, EdgeBag(h) + held), h.Keys)
  {
    hide ShareAt, EdgeBag;
    SumSame(Recounted(h, size), Weighted(h, size, EdgeBag(h) + held), h.Keys);
  }

  // --- The analysis ------------------------------------------------------------------------------

  datatype Mode = FairShareMode | TotalMode | MorePrecise

  /** The sizes of all cells reached from `x`, once per path. */
  ghost function PathSizes(h: Heap, size: Sizes, x: Id): nat
    requires Shape(h) && x in h
    decreases h[x].rep.Rank(), 1, 0
  {
    EdgesAreBelow(h, x);
    size(h[x].rep) + PathSizesOf(h, size, h[x].rep.Rank(), h[x].rep.Out())
  }

  ghost function PathSizesOf(h: Heap, size: Sizes, rank: nat, es: seq<Id>): nat
    requires Shape(h) && Below(h, rank, es)
    decreases rank, 0, |es|
  {
    if es == [] then 0 else
      assert es[0] in es;
      PathSizes(h, size, es[0]) + PathSizesOf(h, size, rank, es[1..])
  }

  /** The cells reached from `x`. */
  ghost function Cells(h: Heap, x: Id): set<Id>
    requires Shape(h) && x in h
    decreases h[x].rep.Rank(), 1, 0
  {
    EdgesAreBelow(h, x);
    {x} + CellsOf(h, h[x].rep.Rank(), h[x].rep.Out())
  }

  ghost function CellsOf(h: Heap, rank: nat, es: seq<Id>): set<Id>
    requires Shape(h) && Below(h, rank, es)
    decreases rank, 0, |es|
  {
    if es == [] then {} else
      assert es[0] in es;
      Cells(h, es[0]) + CellsOf(h, rank, es[1..])
  }

  /** The share of all references on `x` together. */
  ghost function Unshared(h: Heap, size: Sizes, x: Id): real
    requires Shape(h) && x in h
  {
    EdgesAreBelow(h, x);
    size(h[x].rep) as real + ShareOf(h, size, h[x].rep.Rank(), h[x].rep.Out())
  }

  /** What a visit with weight `fraction` adds to the total, and which cells it counts. */
  ghost predicate Visited(h: Heap, size: Sizes, mode: Mode, shares: real, sizes: nat, cells: set<Id>, fraction: real,
                          t0: real, c0: set<Id>, t1: real, c1: set<Id>)
  {
    match mode
    case FairShareMode => t1 == t0 + fraction * shares && c1 == c0
    case TotalMode => t1 == t0 + sizes as real && c1 == c0
    case MorePrecise => c1 == c0 + cells && t1 == t0 + Sum(SizesOf(h, size), cells - c0)
  }

  ghost predicate VisitedCell(h: Heap, size: Sizes, mode: Mode, x: Id, fraction: real, t0: real, c0: set<Id>, t1: real,
                              c1: set<Id>)
    requires Shape(h) && x in h
  {
    Visited(h, size, mode, Unshared(h, size, x), PathSizes(h, size, x), Cells(h, x), fraction, t0, c0, t1, c1)
  }

  ghost predicate VisitedEdges(h: Heap, size: Sizes, mode: Mode, rank: nat, es: seq<Id>, fraction: real, t0: real,
                               c0: set<Id>, t1: real, c1: set<Id>)
    requires Shape(h) && Below(h, rank, es)
  {
    Visited(h, size, mode, ShareOf(h, size, rank, es), PathSizesOf(h, size, rank, es), CellsOf(h, rank, es), fraction,
      t0, c0, t1, c1)
  }

  lemma {:induction false} SumDisjoint(f: Id -> real, a: set<Id>, b: set<Id>)
    requires a !! b
    ensures Sum(f, a + b) == Sum(f, a) + Sum(f, b)
    decreases a
  {
    if a == {} {
      assert a + b == b;
    } else {
      var x :| x in a;
      SumSplit(f, a, x);
      SumSplit(f, a + b, x);
      assert a + b - {x} == (a - {x}) + b;
      SumDisjoint(f, a - {x}, b);
    }
  }

  /** One visit after another. */
  lemma VisitedBoth(h: Heap, size: Sizes, mode: Mode, sh1: real, n1: nat, s1: set<Id>, sh2: real, n2: nat, s2: set<Id>,
                    fraction: real, t0: real, c0: set<Id>, t1: real, c1: set<Id>, t2: real, c2: set<Id>)
    requires Visited(h, size, mode, sh1, n1, s1, fraction, t0, c0, t1, c1)
    requires Visited(h, size, mode, sh2, n2, s2, fraction, t1, c1, t2, c2)
    ensures Visited(h, size, mode, sh1 + sh2, n1 + n2, s1 + s2, fraction, t0, c0, t2, c2)
  {
    hide Sum, SizesOf;
    if mode.MorePrecise? {
      SumDisjoint(SizesOf(h, size), s1 - c0, s2 - c1);
      assert (s1 + s2) - c0 == (s1 - c0) + (s2 - c1);
      assert c0 + (s1 + s2) == c0 + s1 + s2;
    }
  }

  /** The weight of one of the references on `x`, under a parent of weight `fraction`. */
  function Fraction(mode: Mode, h: Heap, x: Id, fraction: real): real
    requires x in h
  {
    if mode.FairShareMode? then (if h[x].rc <= 1 then fraction else fraction / h[x].rc as real) else 1.0
  }

  /** Visiting `e` with its own weight is visiting one reference on it with the parent's. */
  lemma VisitedEdge(h: Heap, size: Sizes, mode: Mode, e: Id, fraction: real, t0: real, c0: set<Id>, t1: real,
                    c1: set<Id>)
    requires Shape(h) && e in h && h[e].rc > 0
    requires VisitedCell(h, size, mode, e, Fraction(mode, h, e, fraction), t0, c0, t1, c1)
    ensures Visited(h, size, mode, Share(h, size, e), PathSizes(h, size, e), Cells(h, e), fraction, t0, c0, t1, c1)
  {
    hide RepOk, Sum, SizesOf, ShareOf, PathSizes, Cells;
    var n, u := h[e].rc as real, Unshared(h, size, e);
    if mode.FairShareMode? && h[e].rc > 1 {
      Rearranged(fraction, u, n);
    }
  }

  lemma Rearranged(f: real, u: real, n: real)
    requires n > 0.0
    ensures f / n * u == f * (u / n)
  {
    var x, y := f / n, u / n;
    assert x * n == f && y * n == u;
    assert x * u == x * (y * n) == x * n * y == f * y;
  }

  /** The first `i + 1` edges. */
  lemma {:induction false} EdgesAppend(h: Heap, size: Sizes, rank: nat, a: seq<Id>, e: Id)
    requires Shape(h) && Below(h, rank, a + [e])
    ensures Below(h, rank, a) && e in h
    ensures ShareOf(h, size, rank, a + [e]) == ShareOf(h, size, rank, a) + Share(h, size, e)
    ensures PathSizesOf(h, size, rank, a + [e]) == PathSizesOf(h, size, rank, a) + PathSizes(h, size, e)
    ensures CellsOf(h, rank, a + [e]) == CellsOf(h, rank, a) + Cells(h, e)
    decreases |a|
  {
    hide RepOk, Share, PathSizes, Cells;
    assert e in a + [e];
    forall x | x in a ensures x in a + [e] {
    }
    if a == [] {
      assert a + [e] == [e] && [e][1..] == [];
      assert ShareOf(h, size, rank, [e]) == Share(h, size, e) + ShareOf(h, size, rank, []);
      assert PathSizesOf(h, size, rank, [e]) == PathSizes(h, size, e) + PathSizesOf(h, size, rank, []);
      assert CellsOf(h, rank, [e]) == Cells(h, e) + CellsOf(h, rank, []);
    } else {
      assert (a + [e])[1..] == a[1..] + [e] && (a + [e])[0] == a[0];
      EdgesAppend(h, size, rank, a[1..], e);
      assert CellsOf(h, rank, a + [e]) == Cells(h, a[0]) + (CellsOf(h, rank, a[1..]) + Cells(h, e));
    }
  }

  lemma NoEdgesVisited(h: Heap, size: Sizes, mode: Mode, rank: nat, fraction: real, t: real, c: set<Id>)
    requires Shape(h)
    ensures VisitedEdges(h, size, mode, rank, [], fraction, t, c, t, c)
  {
    assert {} - c == {};
    assert c + {} == c;
  }

  lemma EdgesVisited(h: Heap, size: Sizes, mode: Mode, rank: nat, es: seq<Id>, e: Id, fraction: real, t0: real,
                     c0: set<Id>, t1: real, c1: set<Id>, t2: real, c2: set<Id>)
    requires Shape(h) && Below(h, rank, es + [e]) && Below(h, rank, es) && e in h && h[e].rc > 0
    requires VisitedEdges(h, size, mode, rank, es, fraction, t0, c0, t1, c1)
    requires VisitedCell(h, size, mode, e, Fraction(mode, h, e, fraction), t1, c1, t2, c2)
    ensures VisitedEdges(h, size, mode, rank, es + [e], fraction, t0, c0, t2, c2)
  {
    hide RepOk, Visited, ShareOf, PathSizesOf, CellsOf, Share, PathSizes, Cells, Fraction;
    EdgesAppend(h, size, rank, es, e);
    VisitedEdge(h, size, mode, e, fraction, t1, c1, t2, c2);
    VisitedBoth(h, size, mode, ShareOf(h, size, rank, es), PathSizesOf(h, size, rank, es), CellsOf(h, rank, es),
                Share(h, size, e), PathSizes(h, size, e), Cells(h, e), fraction, t0, c0, t1, c1, t2, c2);
  }

  lemma CellVisited(h: Heap, size: Sizes, mode: Mode, x: Id, fraction: real, t0: real, c0: set<Id>, t1: real,
                    c1: set<Id>, t2: real, c2: set<Id>)
    requires Shape(h) && x in h && Below(h, h[x].rep.Rank(), h[x].rep.Out())
    requires Visited(h, size, mode, size(h[x].rep) as real, size(h[x].rep), {x}, fraction, t0, c0, t1, c1)
    requires VisitedEdges(h, size, mode, h[x].rep.Rank(), h[x].rep.Out(), fraction, t1, c1, t2, c2)
    ensures VisitedCell(h, size, mode, x, fraction, t0, c0, t2, c2)
  {
    hide RepOk, Visited, ShareOf, PathSizesOf, CellsOf;
    var r, es := h[x].rep.Rank(), h[x].rep.Out();
    VisitedBoth(h, size, mode, size(h[x].rep) as real, size(h[x].rep), {x},
                ShareOf(h, size, r, es), PathSizesOf(h, size, r, es), CellsOf(h, r,
                        es), fraction, t0, c0, t1, c1, t2, c2);
  }

  class Analysis {
    const mode: Mode
    var total: real
    var counted: set<Id>

    constructor (mode: Mode)
      ensures this.mode == mode && total == 0.0 && counted == {}
    {
      this.mode := mode;
      total := 0.0;
      counted := {};
    }

    method Add(h: Heap, size: Sizes, x: Id, fraction: real)
      requires x in h
      modifies this
      ensures Visited(h, size, mode, size(h[x].rep) as real, size(h[x].rep), {x}, fraction, old(total), old(counted),
          total, counted)
    {
      match mode {
        case TotalMode => total := total + size(h[x].rep) as real;
        case FairShareMode => total := total + size(h[x].rep) as real * fraction;
        case MorePrecise =>
          SumOfOne(h, size, x, counted);
          if x !in counted {
            counted := counted + {x};
            total := total + size(h[x].rep) as real;
          } else {
            assert counted == counted + {x};
          }
      }
    }

    /** Visits a data edge and the payload behind it. */
    method AnalyzeDataEdge(h: Heap, size: Sizes, x: Id, fraction: real)
      requires Shape(h) && x in h && !h[x].rep.Btree? && forall y :: y in h ==> h[y].rc > 0
      modifies this
      ensures VisitedCell(h, size, mode, x, fraction, old(total), old(counted), total, counted)
    {
      hide RepOk, Visited, VisitedEdges, VisitedCell;
      ghost var r, t0, c0 := h[x].rep.Rank(), total, counted;
      EdgesAreBelow(h, x);
      Add(h, size, x, fraction);
      ghost var t1, c1 := total, counted;
      NoEdgesVisited(h, size, mode, r, fraction, t1, c1);
      if h[x].rep.Substring? {
        var child := h[x].rep.child;
        assert h[x].rep.Out() == [] + [child];
        Payload(h, x);
        Add(h, size, child, Fraction(mode, h, child, fraction));
        EdgesAreBelow(h, child);
        NoEdgesVisited(h, size, mode, h[child].rep.Rank(), Fraction(mode, h, child, fraction), total, counted);
        CellVisited(h, size, mode, child, Fraction(mode, h, child, fraction), t1, c1, total, counted, total, counted);
        EdgesVisited(h, size, mode, r, [], child, fraction, t1, c1, t1, c1, total, counted);
      } else {
        assert h[x].rep.Out() == [];
      }
      CellVisited(h, size, mode, x, fraction, t0, c0, t1, c1, total, counted);
    }

    /** Visits a btree node and all below it. */
    method AnalyzeBtree(h: Heap, size: Sizes, x: Id, fraction: real)
      requires Shape(h) && x in h && h[x].rep.Btree? && forall y :: y in h ==> h[y].rc > 0
      modifies this
      ensures VisitedCell(h, size, mode, x, fraction, old(total), old(counted), total, counted)
      decreases h[x].rep.Rank()
    {
      hide RepOk, Visited, VisitedEdges, VisitedCell, Below;
      ghost var r, t0, c0 := h[x].rep.Rank(), total, counted;
      EdgesAreBelow(h, x);
      EdgesBelow(h, x);
      Add(h, size, x, fraction);
      ghost var t1, c1 := total, counted;
      var es := h[x].rep.Out();
      assert es[..0] == [];
      NoEdgesVisited(h, size, mode, r, fraction, t1, c1);
      var i := 0;
      PrefixBelow(h, r, es, 0);
      while i < |es|
        invariant 0 <= i <= |es| && Below(h, r, es[..i])
        invariant VisitedEdges(h, size, mode, r, es[..i], fraction, t1, c1, total, counted)
      {
        var e := es[i];
        assert e in es && es[..i + 1] == es[..i] + [e];
        PrefixBelow(h, r, es, i + 1);
        ghost var t2, c2 := total, counted;
        LevelBelow(h, x, e);
        if h[x].rep.height > 0 {
          AnalyzeBtree(h, size, e, Fraction(mode, h, e, fraction));
        } else {
          AnalyzeDataEdge(h, size, e, Fraction(mode, h, e, fraction));
        }
        EdgesVisited(h, size, mode, r, es[..i], e, fraction, t1, c1, t2, c2, total, counted);
        i := i + 1;
      }
      assert es[..i] == es;
      CellVisited(h, size, mode, x, fraction, t0, c0, t1, c1, total, counted);
    }
  }

  lemma Payload(h: Heap, x: Id)
    requires Shape(h) && x in h && h[x].rep.Substring?
    ensures h[x].rep.child in h && h[h[x].rep.child].rep.Out() == []
  {
    assert RepOk(h, h[x].rep);
  }

  lemma PrefixBelow(h: Heap, rank: nat, es: seq<Id>, i: nat)
    requires Below(h, rank, es) && i <= |es|
    ensures Below(h, rank, es[..i])
  {
  }

  /** The three accounting modes, for one cord. */
  method Analyze(mode: Mode, h: Heap, held: multiset<Id>, size: Sizes, x: Id) returns (total: real)
    requires Inv(h, held) && Shape(h) && x in h
    ensures mode.FairShareMode? ==> total == Share(h, size, x)
    ensures mode.TotalMode? ==> total == PathSizes(h, size, x) as real
    ensures mode.MorePrecise? ==> total == Sum(SizesOf(h, size), Cells(h, x))
  {
    hide Inv, RepOk, Visited, VisitedCell;
    CountsAre(h, held);
    var a := new Analysis(mode);
    var f := Fraction(mode, h, x, 1.0);
    if h[x].rep.Btree? {
      a.AnalyzeBtree(h, size, x, f);
    } else {
      a.AnalyzeDataEdge(h, size, x, f);
    }
    total := a.total;
    VisitedEdge(h, size, mode, x, 1.0, 0.0, {}, a.total, a.counted);
    AnalyzedAs(h, size, mode, Share(h, size, x), PathSizes(h, size, x), Cells(h, x), a.total, a.counted);
  }

  lemma AnalyzedAs(h: Heap, size: Sizes, mode: Mode, shares: real, sizes: nat, cells: set<Id>, t: real, c: set<Id>)
    requires Visited(h, size, mode, shares, sizes, cells, 1.0, 0.0, {}, t, c)
    ensures mode.FairShareMode? ==> t == shares
    ensures mode.TotalMode? ==> t == sizes as real
    ensures mode.MorePrecise? ==> t == Sum(SizesOf(h, size), cells)
  {
    assert cells - {} == cells;
  }

  lemma SumOfOne(h: Heap, size: Sizes, x: Id, counted: set<Id>)
    requires x in h
    ensures Sum(SizesOf(h, size), {x} - counted) == if x in counted then 0.0 else size(h[x].rep) as real
  {
    if x in counted {
      assert {x} - counted == {};
    } else {
      assert {x} - counted == {x};
      SumSplit(SizesOf(h, size), {x}, x);
      assert {x} - {x} == {};
    }
  }
}
