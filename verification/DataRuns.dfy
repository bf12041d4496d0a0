/**
Runs of appends and prepends of plain data to a tree that begins as a leaf with one edge.
*/
module DataRuns {
  import opened Heap
  import opened Counts
  import opened Arenas
  import opened Legs
  import opened Nodes
  import opened Rebuilds
  import opened Forms
  import opened Unwinding
  import opened PackedTrees
  import opened Trees

  /** `data` is to be added at the back or front; `extra` is a hint for the size of the flats. */
  datatype Addition = Addition(back: bool, data: seq<byte>, extra: nat)

  function Result(bytes: seq<byte>, adds: seq<Addition>): seq<byte>
    decreases |adds|
  {
    if adds == [] then bytes else Result(Join(adds[0].back, bytes, adds[0].data), adds[1..])
  }

  /** The number of flats that the additions need. */
  function TotalFlats(adds: seq<Addition>): nat {
    if adds == [] then 0 else FlatsFor(|adds[0].data|) + TotalFlats(adds[1..])
  }

  /** A leaf is packed. */
  lemma LeafPacked(h: Heap, x: Id)
    requires Shape(h) && x in h && h[x].rep.Btree? && h[x].rep.height == 0 && h[x].rep.Out() != []
    ensures PackedTree(h, x)
  {
    hide RepOk;
    NodeOk(h, x);
    LeafIsSide(h, true, x);
    LeavesOfData(h, h[x].rep.Out());
  }

  /** Either way of saying that data was added without unpacking the tree. */
  lemma StaysEither(h: Heap, x: Id, h1: Heap, y: Id, back: bool, h2: Heap, r: Id)
    requires StaysPacked(h, true, x, false, h1, y, false) && StaysPacked(h1, back, y, false, h2, r, false)
    ensures StaysPacked(h, true, x, false, h2, r, false)
  {
    hide PackedTree, Leaves, Least;
  }

  /**
  After any run of appends and prepends to a leaf, the tree holds what a plain sequence would, in one
  more data edge for every 4083 bytes of an addition or part of them. The run is aborted exactly if
  that makes more than 6^12 data edges. Unless it has enough data edges to have been rebuilt, every
  node off its two outer legs is full, and a tree of height k > 0 has at least 5 * 6^(k - 1) + 2.
  */
  method AddAll(a: Arena, tree: Id, adds: seq<Addition>) returns (r: Id, aborted: bool)
    requires a.Ok() && AllSettled(a.cells, {}) && tree in a.held && tree in a.cells
    requires a.cells[tree].rep.Btree? && a.cells[tree].rep.height == 0
    modifies a
    ensures aborted <==> |old(Leaves(a.cells, tree))| + TotalFlats(adds) > Pow6(MAX_DEPTH)
    ensures !aborted ==> a.Ok()
    ensures !aborted ==>
      Outcome(old(a.cells), old(a.held) - multiset{tree}, a.cells, a.held, r, Result(old(Bytes(a.cells, tree)), adds))
    ensures !aborted ==> r in a.cells && a.cells[r].rep.Btree? && Shape(a.cells)
    ensures !aborted ==> |Leaves(a.cells, r)| == |old(Leaves(a.cells, tree))| + TotalFlats(adds)
    ensures !aborted && |Leaves(a.cells, r)| < 5 * Pow6(MAX_HEIGHT) + 2 ==>
      && PackedForm(FormOf(a.cells, r), a.cells[r].rep.height)
      && (a.cells[r].rep.height > 0 ==> |Leaves(a.cells, r)| >= 5 * Pow6(a.cells[r].rep.height - 1) + 2)
  {
    hide Inv, RepOk, AllSettled, Bytes, Outcome, StaysPacked, Pow6, PackedForm, Leaves, FlatsFor;
    InvShape(a.cells, a.held);
    ghost var h, held, bytes, size := a.cells, a.held, Bytes(a.cells, tree), |Leaves(a.cells, tree)|;
    var i := 0;
    r, aborted := tree, false;
    RunStart(h, held, tree);
    assert adds[0..] == adds;
    while i < |adds| && !aborted
      invariant 0 <= i <= |adds|
      invariant aborted ==> size + TotalFlats(adds) > Pow6(MAX_DEPTH)
      invariant !aborted ==> a.Ok() && Running(h, held, tree, a.cells, a.held, r)
      invariant !aborted ==> Result(Bytes(a.cells, r), adds[i..]) == Result(bytes, adds)
      invariant !aborted ==> |Leaves(a.cells, r)| + TotalFlats(adds[i..]) == size + TotalFlats(adds)
    {
      assert adds[i..][1..] == adds[i + 1..];
      r, aborted := AddOne(a, h, held, tree, r, adds[i]);
      i := i + 1;
    }
    if !aborted {
      RunDone(h, held, tree, a.cells, a.held, r);
      assert adds[i..] == [];
    }
  }

  /** Part of a run: the tree `x` has become `r`. */
  ghost predicate Running(h: Heap, held: multiset<Id>, x: Id, h': Heap, held': multiset<Id>, r: Id) {
    && Shape(h) && x in h && Shape(h') && r in h' && Outcome(h, held - multiset{x}, h', held', r, Bytes(h', r))
    && h'[r].rep.Btree? && h'[r].rep.height <= MAX_HEIGHT && StaysPacked(h, true, x, false, h', r, false)
    && PackedTree(h, x)
  }

  lemma RunStart(h: Heap, held: multiset<Id>, x: Id)
    requires Inv(h, held) && Shape(h) && AllSettled(h, {}) && x in held && x in h && h[x].rep.Btree?
    requires h[x].rep.height == 0
    ensures Running(h, held, x, h, held, x)
  {
    hide Inv, RepOk, Bytes, PackedTree, StaysPacked;
    assert Settled(h, x);
    LeafPacked(h, x);
    StaysSelf(h, true, x, false);
    assert held - multiset{x} + multiset{x} == held;
    OthersSelf(h, held, held - multiset{x});
  }

  lemma RunDone(h: Heap, held: multiset<Id>, x: Id, h': Heap, held': multiset<Id>, r: Id)
    requires Running(h, held, x, h', held', r)
    ensures Shape(h') && r in h' && h'[r].rep.Btree? && Outcome(h, held - multiset{x}, h', held', r, Bytes(h', r))
    ensures |Leaves(h', r)| <= Pow6(MAX_DEPTH)
    ensures |Leaves(h', r)| < 5 * Pow6(MAX_HEIGHT) + 2 ==>
      && PackedForm(FormOf(h', r), h'[r].rep.height)
      && (h'[r].rep.height > 0 ==> |Leaves(h', r)| >= 5 * Pow6(h'[r].rep.height - 1) + 2)
  {
    hide Outcome, Pow6, PackedForm, FormOf, Leaves, Bytes;
    WithinBound(h', r);
  }

  method AddOne(a: Arena, ghost h: Heap, ghost held: multiset<Id>, ghost x: Id, tree: Id, add: Addition)
    returns (r: Id, aborted: bool)
    requires a.Ok() && Running(h, held, x, a.cells, a.held, tree)
    modifies a
    ensures aborted <==> |old(Leaves(a.cells, tree))| + FlatsFor(|add.data|) > Pow6(MAX_DEPTH)
    ensures !aborted ==> a.Ok() && Running(h, held, x, a.cells, a.held, r)
    ensures !aborted ==> Bytes(a.cells, r) == Join(add.back, old(Bytes(a.cells, tree)), add.data)
    ensures !aborted ==> |Leaves(a.cells, r)| == |old(Leaves(a.cells, tree))| + FlatsFor(|add.data|)
  {
    hide Inv, RepOk, AllSettled, Bytes, StaysPacked, Pow6, PackedTree, Others, Leaves, FlatsFor;
    ghost var h1, held1 := a.cells, a.held;
    assert tree in held1;
    r, aborted := AddData(a, add.back, tree, add.data, add.extra);
    if !aborted {
      InvShape(a.cells, a.held);
      StaysEither(h, x, h1, tree, add.back, a.cells, r);
      assert held1 - multiset{tree} == held - multiset{x};
      OutcomeSince(h, h1, held - multiset{x}, a.cells, a.held, r, Bytes(a.cells, r));
    }
  }
}
