/**
A tree from which the last flat must not be taken, although nothing else leads to it.

A run that ends with cord 1 in this state, where f is 4083 and g is 20 bytes long:

  cord 0 := 6 * f                       a leaf with six flats
  cord 0 := g ++ cord 0                 a root over [leaf of g] and that leaf
  cord 1 := clone of cord 0
  cord 1 := its first 4103 bytes        a new root over [leaf of g], shared, and a new leaf [first f]
  cord 2 := 6 * f                       another leaf with six flats
  cord 3 := clone of cord 0
  cord 3 := cord 2 ++ cord 3            a new root over [leaf of cord 2], [leaf of g] and [leaf of cord 0]
  cord 3 := its first 24518 bytes       without the last edge
  cord 0 := empty                       its root and its leaf of six flats go; the first f stays

Now nothing but cord 1 leads to the first f. Without it, the root of cord 1 has the leaf of g alone,
and folding frees that leaf, which is an edge of cord 3.
*/
module SharedFold {
  import opened Heap
  import opened Counts
  import opened Legs
  import opened Nodes
  import opened Edits
  import opened Buffers
  import opened Cords
  import opened Pools

  function Leaf(length: nat, es: seq<Id>): (r: Rep)
    requires |es| <= MAX_CAPACITY
    ensures NodeWith(r, 0, length, es)
  {
    Over(length, 0, es)
  }

  function Over(length: nat, height: nat, es: seq<Id>): (r: Rep)
    requires |es| <= MAX_CAPACITY
    ensures NodeWith(r, height, length, es)
  {
    Btree(length, height, 0, |es|, es + EMPTY_SLOTS[|es|..])
  }

  const SIX: seq<Id> := [5, 6, 7, 8, 9, 10]

  /** The state of the heap: cords 1, 2 and 3 hold the cells 4, 11 and 12. */
  function State(f: seq<byte>, g: seq<byte>, m: seq<byte>): Heap {
    map[0 := Cell(1, Flat(g, 27)), 1 := Cell(2, Leaf(20, [0])),
        2 := Cell(1, Flat(f, 4083)), 3 := Cell(1, Leaf(4083, [2])),
        4 := Cell(1, Over(4103, 1, [1, 3])),
        5 := Cell(1, Flat(m, 4083)), 6 := Cell(1, Flat(m, 4083)), 7 := Cell(1, Flat(m, 4083)),
        8 := Cell(1, Flat(m, 4083)), 9 := Cell(1, Flat(m, 4083)), 10 := Cell(1, Flat(m, 4083)),
        11 := Cell(2, Leaf(24498, SIX)), 12 := Cell(1, Over(24518, 1, [11, 1]))]
  }

  predicate Sizes(f: seq<byte>, g: seq<byte>, m: seq<byte>) {
    |f| == 4083 && |g| == 20 && |m| == 4083
  }

  // --- The counts are exact --------------------------------------------------------------------------

  lemma Grow(h: Heap, held: multiset<Id>, x: Id, rep: Rep, held': multiset<Id>)
    requires Inv(h, held) && x !in h && RepOk(h, rep) && multiset(rep.Out()) <= held
    requires held' == held - multiset(rep.Out()) + multiset{x}
    ensures Inv(h[x := Cell(1, rep)], held')
  {
    AllocInv(h, held, x, Cell(1, rep));
  }

  lemma GrowFlat(h: Heap, held: multiset<Id>, x: Id, data: seq<byte>, capacity: nat)
    requires Inv(h, held) && x !in h && 0 < |data| <= capacity
    ensures Inv(h[x := Cell(1, Flat(data, capacity))], held + multiset{x})
  {
    hide Inv;
    assert multiset(Flat(data, capacity).Out()) == multiset{};
    assert held - multiset{} + multiset{x} == held + multiset{x};
    Grow(h, held, x, Flat(data, capacity), held + multiset{x});
  }

  lemma GrowNode(h: Heap, held: multiset<Id>, x: Id, length: nat, k: nat, es: seq<Id>, held': multiset<Id>)
    requires Inv(h, held) && x !in h && |es| <= MAX_CAPACITY && AllEdges(h, k, es) && multiset(es) <= held
    requires held' == held - multiset(es) + multiset{x}
    ensures Inv(h[x := Cell(1, Over(length, k, es))], held')
  {
    hide Inv;
    Grow(h, held, x, Over(length, k, es), held');
  }

  lemma Empty()
    ensures Inv(map[], multiset{})
  {
  }

  /** The tree of cord 1. */
  function One(f: seq<byte>, g: seq<byte>): Heap {
    map[0 := Cell(1, Flat(g, 27)), 1 := Cell(2, Leaf(20, [0])),
        2 := Cell(1, Flat(f, 4083)), 3 := Cell(1, Leaf(4083, [2])), 4 := Cell(1, Over(4103, 1, [1, 3]))]
  }

  lemma OneCounts(f: seq<byte>, g: seq<byte>)
    requires |f| == 4083 && |g| == 20
    ensures Inv(One(f, g), multiset{1, 4})
  {
    hide Inv, Over;
    Empty();
    var h0: Heap := map[];
    var h1 := h0[0 := Cell(1, Flat(g, 27))];
    GrowFlat(h0, multiset{}, 0, g, 27);
    var h2 := h1[1 := Cell(1, Leaf(20, [0]))];
    GrowNode(h1, multiset{} + multiset{0}, 1, 20, 0, [0], multiset{1});
    var h3 := h2[2 := Cell(1, Flat(f, 4083))];
    GrowFlat(h2, multiset{1}, 2, f, 4083);
    OneMore(f, g, h3);
  }

  lemma OneMore(f: seq<byte>, g: seq<byte>, h3: Heap)
    requires |f| == 4083 && |g| == 20 && Inv(h3, multiset{1} + multiset{2})
    requires h3 == map[0 := Cell(1, Flat(g, 27)), 1 := Cell(1, Leaf(20, [0])), 2 := Cell(1, Flat(f, 4083))]
    ensures Inv(One(f, g), multiset{1, 4})
  {
    hide Inv, Over;
    var h4 := h3[3 := Cell(1, Leaf(4083, [2]))];
    GrowNode(h3, multiset{1} + multiset{2}, 3, 4083, 0, [2], multiset{1, 3});
    RefInv(h4, multiset{1, 3}, 1);
    Paired(h4[1 := Cell(2, Leaf(20, [0]))], multiset{1, 3} + multiset{1}, 1, 3, 4, 4103);
    assert h4[1 := Cell(2, Leaf(20, [0]))][4 := Cell(1, Over(4103, 1, [1, 3]))] == One(f, g);
  }

  /** A root over two leaves of which the first stays held. */
  lemma Paired(h: Heap, held: multiset<Id>, x: Id, y: Id, z: Id, length: nat)
    requires Inv(h, held) && held == multiset{x, y} + multiset{x} && z !in h && IsEdge(h, 1, x) && IsEdge(h, 1, y)
    ensures Inv(h[z := Cell(1, Over(length, 1, [x, y]))], multiset{x, z})
  {
    hide Inv, Over;
    Pairs(x, y, z);
    GrowNode(h, held, z, length, 1, [x, y], multiset{x, z});
  }

  lemma Pairs(x: Id, y: Id, z: Id)
    ensures multiset([x, y]) <= multiset{x, y} + multiset{x}
    ensures multiset{x, y} + multiset{x} - multiset([x, y]) + multiset{z} == multiset{x, z}
  {
    assert multiset([x, y]) == multiset{x, y};
  }

  /** With `n` of the flats of cord 2. */
  function Flats(h: Heap, m: seq<byte>, n: nat): Heap {
    if n == 0 then h else Flats(h, m, n - 1)[5 + n - 1 := Cell(1, Flat(m, 4083))]
  }

  function Ids(n: nat): (es: seq<Id>)
    ensures |es| == n && forall i :: 0 <= i < n ==> es[i] == 5 + i
  {
    seq(n, i => 5 + i)
  }

  lemma {:induction false} FlatsCounts(h: Heap, held: multiset<Id>, m: seq<byte>, n: nat)
    requires Inv(h, held) && |m| == 4083 && forall i: nat :: i in h ==> i < 5
    ensures Inv(Flats(h, m, n), held + multiset(Ids(n)))
    ensures forall i: nat :: i in Flats(h, m, n) ==> i < 5 + n
    ensures forall i: nat :: 5 <= i < 5 + n ==> IsEdge(Flats(h, m, n), 0, i)
  {
    hide Inv;
    if n == 0 {
      assert held + multiset(Ids(0)) == held;
    } else {
      var x: Id := 5 + n - 1;
      FlatsCounts(h, held, m, n - 1);
      GrowFlat(Flats(h, m, n - 1), held + multiset(Ids(n - 1)), x, m, 4083);
      assert Ids(n) == Ids(n - 1) + [x];
      assert held + multiset(Ids(n - 1)) + multiset{x} == held + multiset(Ids(n));
      forall i: nat | 5 <= i < 5 + n ensures IsEdge(Flats(h, m, n), 0, i) {
        assert i < x ==> IsEdge(Flats(h, m, n - 1), 0, i);
      }
    }
  }

  lemma StateCounts(f: seq<byte>, g: seq<byte>, m: seq<byte>)
    requires Sizes(f, g, m)
    ensures Inv(State(f, g, m), multiset{4, 11, 12})
  {
    hide Inv, Over, Flats, State, One;
    OneCounts(f, g);
    AllCells(f, g, m);
    var h1 := One(f, g);
    FlatsCounts(h1, multiset{1, 4}, m, 6);
    var h2 := Flats(h1, m, 6);
    assert Ids(6) == SIX;
    SixHeld();
    GrowNode(h2, multiset{1, 4} + multiset(SIX), 11, 24498, 0, SIX, multiset{1, 4, 11});
    LastRoot(f, g, m, h2[11 := Cell(1, Leaf(24498, SIX))]);
  }

  /** The heap is that of cord 1, and then cords 2 and 3. */
  lemma AllCells(f: seq<byte>, g: seq<byte>, m: seq<byte>)
    ensures
      var h := Flats(One(f, g), m, 6);
      && (forall i: nat :: i in One(f, g) ==> i < 5) && 11 !in h && 12 !in h && IsEdge(h, 1, 1)
      && h[11 := Cell(2, Leaf(24498, SIX))][12 := Cell(1, Over(24518, 1, [11, 1]))] == State(f, g, m)
  {
    hide Over, Flats;
    FlatsAre(One(f, g), m);
  }

  lemma SixHeld()
    ensures multiset{1, 4} + multiset(SIX) - multiset(SIX) + multiset{11} == multiset{1, 4, 11}
  {
  }

  lemma LastRoot(f: seq<byte>, g: seq<byte>, m: seq<byte>, h3: Heap)
    requires Inv(h3, multiset{1, 4, 11}) && 11 in h3 && h3[11] == Cell(1, Leaf(24498, SIX)) && IsEdge(h3, 1, 1)
    requires 12 !in h3
    requires h3[11 := Cell(2, Leaf(24498, SIX))][12 := Cell(1, Over(24518, 1, [11, 1]))] == State(f, g, m)
    ensures Inv(State(f, g, m), multiset{4, 11, 12})
  {
    hide Inv, Over, State;
    RefInv(h3, multiset{1, 4, 11}, 11);
    LastHeld();
    GrowNode(h3[11 := Cell(2, Leaf(24498, SIX))], multiset{1, 4, 11} + multiset{11}, 12, 24518, 1, [11, 1],
             multiset{4, 11, 12});
  }

  lemma LastHeld()
    ensures multiset([11, 1]) <= multiset{1, 4, 11} + multiset{11}
    ensures multiset{1, 4, 11} + multiset{11} - multiset([11, 1]) + multiset{12} == multiset{4, 11, 12}
  {
    assert multiset([11, 1]) == multiset{1, 11};
  }

  lemma FlatsAre(h: Heap, m: seq<byte>)
    ensures
      var c := Cell(1, Flat(m, 4083));
      Flats(h, m, 6) == h[5 := c][6 := c][7 := c][8 := c][9 := c][10 := c]
  {
    var c := Cell(1, Flat(m, 4083));
    assert Flats(h, m, 1) == h[5 := c];
    assert Flats(h, m, 2) == h[5 := c][6 := c];
    assert Flats(h, m, 3) == h[5 := c][6 := c][7 := c];
    assert Flats(h, m, 4) == h[5 := c][6 := c][7 := c][8 := c];
    assert Flats(h, m, 5) == h[5 := c][6 := c][7 := c][8 := c][9 := c];
  }

  // --- The lengths are right ----------------------------------------------------------------------------

  lemma SumTwo(h: Heap, x: Id, y: Id)
    requires x in h && y in h
    ensures SumLen(h, [x]) == h[x].rep.Len() && SumLen(h, [x, y]) == h[x].rep.Len() + h[y].rep.Len()
  {
    assert [x, y][1..] == [y] && [x][1..] == [];
    assert SumLen(h, [y]) == h[y].rep.Len() + SumLen(h, []);
  }

  lemma {:induction false} SumEqual(h: Heap, es: seq<Id>, n: nat)
    requires forall e :: e in es ==> e in h && h[e].rep.Len() == n
    ensures SumLen(h, es) == |es| * n
  {
    if es != [] {
      SumEqual(h, es[1..], n);
      assert |es| * n == n + (|es| - 1) * n;
    }
  }

  lemma StateLengths(f: seq<byte>, g: seq<byte>, m: seq<byte>)
    requires Sizes(f, g, m)
    ensures AllSettled(State(f, g, m), {})
  {
    hide Over, SumLen;
    var h := State(f, g, m);
    SumTwo(h, 0, 0);
    SumTwo(h, 2, 2);
    SumTwo(h, 1, 3);
    SumTwo(h, 11, 1);
    SumEqual(h, SIX, 4083);
  }

  /** The last flat of cord 1 is private and large enough, yet it cannot be taken. */
  lemma SharedRemainder(f: seq<byte>, g: seq<byte>, m: seq<byte>)
    requires Sizes(f, g, m)
    ensures var h := State(f, g, m); Inv(h, multiset{4, 11, 12}) && AllSettled(h, {}) && Shape(h)
    ensures var h := State(f, g, m); HasBuffer(h, 4, 0) && !SafeToTake(h, 4)
  {
    hide Inv, AllSettled, HasBuffer, SafeToTake, State;
    var h := State(f, g, m);
    StateCounts(f, g, m);
    InvShape(h, multiset{4, 11, 12});
    StateLengths(f, g, m);
    LastIsPrivate(f, g, m);
    RemainderIsShared(f, g, m);
  }

  lemma LastIsPrivate(f: seq<byte>, g: seq<byte>, m: seq<byte>)
    requires Sizes(f, g, m) && Shape(State(f, g, m))
    ensures HasBuffer(State(f, g, m), 4, 0)
  {
    hide RepOk, Over;
    var h := State(f, g, m);
    assert Outer(true, [1, 3]) == 3 && Outer(true, [2]) == 2;
    assert Leaves(h, 3) == [2] by {
      LeavesOfNode(h, 3);
      LeavesOfOne(h, 0, 2);
    }
    LeavesSplit(h, true, 4);
    JoinLast(LeavesOf(h, 1, Inner(true, [1, 3])), [2]);
    assert LastLeaf(h, 4) == 2;
    assert PrivateLeg(h, true, 3);
    assert PrivateLeg(h, true, 4);
  }

  lemma RemainderIsShared(f: seq<byte>, g: seq<byte>, m: seq<byte>)
    requires Sizes(f, g, m) && Shape(State(f, g, m))
    ensures !SafeToTake(State(f, g, m), 4)
  {
    hide RepOk, Over;
    var h := State(f, g, m);
    assert SinglePath(h, 2) && SinglePath(h, 3);
    assert !ChainPrivate(h, 1);
  }

  // --- As a state of a run ---------------------------------------------------------------------------------

  const CORDS: seq<Cord> := [Inline([]), Tree(4), Tree(11), Tree(12)]

  lemma CordsHeld()
    ensures CordBag(CORDS) == multiset{4, 11, 12}
  {
    assert CORDS[1..] == [Tree(4), Tree(11), Tree(12)] && CORDS[1..][1..] == [Tree(11), Tree(12)];
    assert CORDS[1..][1..][1..] == [Tree(12)] && CORDS[1..][1..][1..][1..] == [];
    assert CordBag(CORDS[1..][1..][1..]) == multiset{12};
    assert CordBag(CORDS[1..][1..]) == multiset{11} + multiset{12};
    assert CordBag(CORDS[1..]) == multiset{4} + (multiset{11} + multiset{12});
  }

  /** A run in this state stops when the buffer of cord 1 is taken. */
  lemma SharedStops(f: seq<byte>, g: seq<byte>, m: seq<byte>, heap: bool)
    requires Sizes(f, g, m)
    ensures PoolOk(State(f, g, m), multiset{4, 11, 12}, CORDS, [])
    ensures UnsafeTake(State(f, g, m), CORDS, TakeBuffer(1, 0, heap))
    ensures Stops(Moment(State(f, g, m), multiset{4, 11, 12}, CORDS, []), TakeBuffer(1, 0, heap))
  {
    hide Inv, AllSettled, RepOk, Over, HasBuffer, SafeToTake, CordBag;
    SharedRemainder(f, g, m);
    CordsHeld();
    var h := State(f, g, m);
    assert CordsOk(h, CORDS) && BuffersOk([]);
    ViewSizes(h, multiset{4, 11, 12}, CORDS, []);
  }
}
