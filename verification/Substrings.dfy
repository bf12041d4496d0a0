/**
Substring nodes and the resizing of data edges (rep.rs, first part of rep/btree.rs).
*/
module Substrings {
  import opened Heap
  import opened Counts
  import opened Arenas

  datatype Option<+T> = None | Some(value: T)

  /** `x` is new or unchanged up to its count, unless it lies in `o`. `n` bounds the ids of `h`. */
  ghost predicate Kept(h: Heap, n: Id, o: set<Id>, h': Heap) {
    forall x :: x in h' && x < n && x !in o ==> x in h && Same(h[x], h'[x])
  }

  /** Every cell is still there; those of `o` may have lost one reference. */
  ghost predicate ExtendsBut(h: Heap, o: set<Id>, h': Heap) {
    forall x :: x in h ==> x in h' && Same(h[x], h'[x]) && h[x].rc <= h'[x].rc + if x in o then 1 else 0
  }

  /** No bytes have been copied: every cell that holds bytes did so before. */
  ghost predicate NoNewData(h0: Heap, h: Heap) {
    forall x :: x in h && h[x].rep.IsPayload() ==> x in h0 && h0[x].rep.IsPayload()
  }

  lemma NoNewDataTrans(h0: Heap, h1: Heap, h2: Heap)
    requires NoNewData(h0, h1) && (NoNewData(h1, h2) || Shrunk(h1, h2))
    ensures NoNewData(h0, h2)
  {
  }

  /** The `n` bytes of `s` at `offset`. */
  function Slice(s: seq<byte>, offset: nat, n: nat): seq<byte> {
    if offset + n <= |s| then s[offset..offset + n] else []
  }

  lemma DataLen(h: Heap, x: Id)
    requires Shape(h) && x in h && !h[x].rep.Btree?
    ensures |DataBytes(h, x)| == h[x].rep.Len() > 0
  {
    assert RepOk(h, h[x].rep);
  }

  /** A data edge outlives count changes and allocations with its bytes. */
  lemma DataKept(h: Heap, h': Heap, x: Id)
    requires Shape(h) && Shape(h') && Agree(h, h', {}) && x in h && x in h' && !h[x].rep.Btree?
    ensures DataBytes(h', x) == DataBytes(h, x)
  {
    DataFrame(h, h', {}, x);
  }

  /** The payload behind a data edge, and where the edge's bytes start in it. */
  function Payload(h: Heap, x: Id): (r: (Id, nat))
    requires x in h && !h[x].rep.Btree?
  {
    if h[x].rep.Substring? then (h[x].rep.child, h[x].rep.start) else (x, 0)
  }

  lemma PayloadSlice(h: Heap, x: Id, offset: nat, n: nat)
    requires Shape(h) && x in h && !h[x].rep.Btree? && offset + n <= h[x].rep.Len()
    ensures var (p, start) := Payload(h, x);
      p in h && h[p].rep.IsPayload() && start + offset + n <= h[p].rep.Len() &&
      h[p].rep.data[start + offset..start + offset + n] == Slice(DataBytes(h, x), offset, n)
  {
    assert RepOk(h, h[x].rep);
  }

  /**
  Allocates a substring of the data edge `rep`, flattening a substring of a substring. With
  `adopt` the reference on `rep` is consumed, otherwise it is only borrowed.
  */
  method SubstringImpl(a: Arena, adopt: bool, rep: Id, offset: nat, n: nat) returns (r: Id)
    requires a.Ok() && rep in a.cells && !a.cells[rep].rep.Btree? && (adopt ==> rep in a.held)
    requires 0 < n && offset + n <= a.cells[rep].rep.Len()
    modifies a
    ensures a.Ok() && r == old(a.next) && a.next == r + 1
    ensures a.held == (if adopt then old(a.held) - multiset{rep} else old(a.held)) + multiset{r}
    ensures r !in old(a.cells) && Taken(old(a.cells), adopt, rep, {r}, a.cells)
    ensures r in a.cells && a.cells[r].rep.Substring? && a.cells[r].rep.Len() == n && a.cells[r].rc == 1
    ensures DataBytes(a.cells, r) == Slice(old(DataBytes(a.cells, rep)), offset, n)
  {
    hide Inv, RepOk, DataBytes, Slice, Payload, Taken;
    InvShape(a.cells, a.held);
    PayloadSlice(a.cells, rep, offset, n);
    var start := Payload(a.cells, rep).1 + offset;
    ghost var h := a.cells;
    var child := TakePayload(a, adopt, rep);
    ghost var h1 := a.cells;
    r := AllocSubstring(a, child, start, n);
    TakenAlloc(h, adopt, rep, h1, r, a.cells);
  }

  /** What is left of the heap when a reference on `rep` has been used up, or not, to make `fresh'`. */
  ghost predicate Taken(h: Heap, adopt: bool, rep: Id, fresh': set<Id>, h': Heap)
    requires rep in h
  {
    && (forall x :: x in h' && x !in fresh' ==> x in h && Same(h[x], h'[x]))
    && (!adopt || h[rep].rc > 1 ==> ExtendsBut(h, if adopt then {rep} else {}, h'))
    && SameAbove(h, 1, h')
  }

  lemma TakenAlloc(h: Heap, adopt: bool, rep: Id, h1: Heap, r: Id, h': Heap)
    requires rep in h && Taken(h, adopt, rep, {}, h1) && r !in h && r !in h1 && r in h' && h' == h1[r := h'[r]]
    ensures Taken(h, adopt, rep, {r}, h')
  {
  }

  /** Exchanges a reference on `rep`, donated or not, for one on the payload behind it. */
  method TakePayload(a: Arena, adopt: bool, rep: Id) returns (child: Id)
    requires a.Ok() && rep in a.cells && !a.cells[rep].rep.Btree? && (adopt ==> rep in a.held)
    modifies a
    ensures a.Ok() && a.next == old(a.next) && child == old(Payload(a.cells, rep).0)
    ensures a.held == (if adopt then old(a.held) - multiset{rep} else old(a.held)) + multiset{child}
    ensures child in old(a.cells) && child in a.cells && Same(old(a.cells)[child], a.cells[child])
    ensures a.cells[child].rep.IsPayload()
    ensures Taken(old(a.cells), adopt, rep, {}, a.cells)
  {
    hide Inv, RepOk, Taken, OnlyUnreachableGone;
    InvShape(a.cells, a.held);
    PayloadSlice(a.cells, rep, 0, 0);
    ghost var h, held := a.cells, a.held;
    if a.cells[rep].rep.Substring? {
      child := a.cells[rep].rep.child;
      Ref(a, child);
      ghost var h1 := a.cells;
      if adopt {
        Unref(a, rep);
        HeldIn(a.cells, a.held, child);
        TakenSwapped(h, rep, child, h1, a.cells);
        SwapHeld(held, rep, child);
      } else {
        TakenRef(h, false, rep, child, h1);
      }
    } else {
      child := rep;
      if !adopt {
        Ref(a, rep);
        TakenRef(h, false, rep, rep, a.cells);
      } else {
        TakenNot(h, rep);
        SwapHeld(held, rep, child);
      }
    }
  }

  lemma SwapHeld(held: multiset<Id>, x: Id, y: Id)
    requires x in held
    ensures held + multiset{y} - multiset{x} == held - multiset{x} + multiset{y}
    ensures x == y ==> held - multiset{x} + multiset{y} == held
  {
  }

  lemma TakenNot(h: Heap, rep: Id)
    requires rep in h
    ensures Taken(h, true, rep, {}, h)
  {
  }

  lemma TakenRef(h: Heap, adopt: bool, rep: Id, child: Id, h': Heap)
    requires rep in h && child in h && h[child].rep.IsPayload() && h' == h[child := Cell(h[child].rc + 1, h[child].rep)]
    ensures Taken(h, adopt, rep, {}, h')
  {
  }

  lemma TakenSwapped(h: Heap, rep: Id, child: Id, h1: Heap, h': Heap)
    requires rep in h && h[rep].rep.Substring? && child in h && h[child].rep.IsPayload()
    requires h1 == h[child := Cell(h[child].rc + 1, h[child].rep)]
    requires Shrunk(h1, h') && SameAbove(h1, 1, h')
    requires h1[rep].rc > 1 ==> h' == h1[rep := Cell(h1[rep].rc - 1, h1[rep].rep)]
    ensures Taken(h, true, rep, {}, h')
  {
  }

  method AllocSubstring(a: Arena, child: Id, start: nat, n: nat) returns (r: Id)
    requires a.Ok() && child in a.held && a.cells[child].rep.IsPayload()
    requires 0 < n && start + n <= a.cells[child].rep.Len()
    modifies a
    ensures a.Ok() && r == old(a.next) && a.next == r + 1 && r !in old(a.cells)
    ensures a.held == old(a.held) - multiset{child} + multiset{r}
    ensures a.cells == old(a.cells)[r := Cell(1, Substring(start, n, child))]
    ensures DataBytes(a.cells, r) == old(a.cells)[child].rep.data[start..start + n]
  {
    hide Inv;
    HeldIn(a.cells, a.held, child);
    var c := Cell(1, Substring(start, n, child));
    assert c.rep.Out() == [child];
    r := Alloc(a, c);
  }

  /** A new reference on `n` bytes of the data edge `rep`, which is only borrowed. */
  method PartOf(a: Arena, rep: Id, offset: nat, n: nat) returns (r: Id)
    requires a.Ok() && rep in a.cells && !a.cells[rep].rep.Btree?
    requires 0 < n && offset + n <= a.cells[rep].rep.Len()
    modifies a
    ensures a.Ok() && old(a.next) <= a.next <= old(a.next) + 1
    ensures a.held == old(a.held) + multiset{r}
    ensures Kept(old(a.cells), old(a.next), {}, a.cells) && Extends(old(a.cells), a.cells)
    ensures SameAbove(old(a.cells), 1, a.cells) && NoNewData(old(a.cells), a.cells)
    ensures forall x :: x in a.cells && x !in old(a.cells) ==> x == r
    ensures r in a.cells && !a.cells[r].rep.Btree? && a.cells[r].rep.Len() == n
    ensures DataBytes(a.cells, r) == Slice(old(DataBytes(a.cells, rep)), offset, n)
  {
    hide Inv, RepOk, DataBytes, Taken;
    InvShape(a.cells, a.held);
    CountsPositiveAt(a.cells, a.held, rep);
    DataLen(a.cells, rep);
    ghost var h := a.cells;
    Ref(a, rep);
    InvShape(a.cells, a.held);
    DataKept(h, a.cells, rep);
    ghost var h1, next := a.cells, a.next;
    if n == a.cells[rep].rep.Len() {
      r := rep;
    } else {
      r := SubstringImpl(a, true, rep, offset, n);
      TakenPart(h, rep, h1, next, r, a.cells);
      assert old(a.held) + multiset{rep} - multiset{rep} == old(a.held);
    }
  }

  lemma TakenPart(h: Heap, rep: Id, h1: Heap, n: Id, r: Id, h': Heap)
    requires rep in h && h[rep].rc > 0 && h1 == h[rep := Cell(h[rep].rc + 1, h[rep].rep)] && r >= n
    requires Taken(h1, true, rep, {r}, h') && !h[rep].rep.Btree?
    ensures Kept(h, n, {}, h') && Extends(h, h') && SameAbove(h, 1, h')
    ensures forall x :: x in h' && x !in h ==> x == r
  {
  }

  lemma CountsPositiveAt(h: Heap, held: multiset<Id>, x: Id)
    requires Inv(h, held) && x in h
    ensures h[x].rc > 0
  {
  }

  // --- Resizing ---------------------------------------------------------------------

  /** No substring node refers to `x`. */
  ghost predicate NoSubstringOf(h: Heap, x: Id) {
    forall y :: y in h && h[y].rep.Substring? ==> h[y].rep.child != x
  }

  /** A data edge whose only reference is held by the program, or by a node, backs no substring. */
  lemma HeldBacksNoSubstring(h: Heap, held: multiset<Id>, x: Id)
    requires Inv(h, held) && x in held && h[x].rc == 1
    ensures NoSubstringOf(h, x)
  {
    hide RepOk, EdgeBag;
    LastIsHandle(h, EdgeBag(h), held, x);
    forall y | y in h && h[y].rep.Substring? ensures h[y].rep.child != x {
      EdgeBagAtLeast(h, y);
      assert h[y].rep.Out() == [h[y].rep.child];
      assert multiset(h[y].rep.Out())[h[y].rep.child] > 0;
    }
  }

  lemma OwnedBacksNoSubstring(h: Heap, held: multiset<Id>, p: Id, x: Id)
    requires Inv(h, held) && p in h && h[p].rep.Btree? && x in h[p].rep.Out() && x in h && h[x].rc == 1
    ensures NoSubstringOf(h, x)
  {
    hide RepOk, EdgeBag;
    forall y | y in h && h[y].rep.Substring? ensures h[y].rep.child != x {
      if h[y].rep.child == x {
        assert x in h[y].rep.Out();
        EdgeBagTwo(h, p, y, x);
      }
    }
  }

  lemma ShapeWriteData(h: Heap, x: Id, c: Cell)
    requires Shape(h) && x in h && !h[x].rep.Btree? && !c.rep.Btree? && RepOk(h, c.rep) && NoSubstringOf(h, x)
    requires c.rep.Out() == h[x].rep.Out() && c.rep.IsPayload() == h[x].rep.IsPayload()
    ensures Shape(h[x := c])
  {
    var h' := h[x := c];
    forall y | y in h' ensures RepOk(h', h'[y].rep) {
      assert RepOk(h, h[y].rep);
    }
  }

  /** Changes a flat or substring in place. */
  method WriteData(a: Arena, x: Id, rep: Rep)
    requires a.Ok() && x in a.cells && !a.cells[x].rep.Btree? && !rep.Btree?
    requires NoSubstringOf(a.cells, x) && RepOk(a.cells, rep)
    requires rep.Out() == a.cells[x].rep.Out() && rep.IsPayload() == a.cells[x].rep.IsPayload()
    modifies a
    ensures a.Ok() && a.next == old(a.next) && a.held == old(a.held)
    ensures a.cells == old(a.cells)[x := Cell(old(a.cells)[x].rc, rep)]
  {
    hide Inv, RepOk;
    InvShape(a.cells, a.held);
    var c := Cell(a.cells[x].rc, rep);
    ShapeWriteData(a.cells, x, c);
    WriteInv(a.cells, a.held, x, c);
    assert a.held + multiset(rep.Out()) - multiset(rep.Out()) == a.held;
    a.cells := a.cells[x := c];
  }

  /** The first `length` bytes of a flat or substring. */
  function Shortened(rep: Rep, length: nat): Rep
    requires (rep.Flat? || rep.Substring?) && length <= rep.Len()
  {
    match rep
    case Flat(data, capacity) => Flat(data[..length], capacity)
    case Substring(start, _, child) => Substring(start, length, child)
  }

  /** Keeps the first `length` bytes of a data edge, in place if that is allowed and possible. */
  method ResizeEdge(a: Arena, edge: Id, length: nat, isMutable: bool) returns (r: Id)
    requires a.Ok() && edge in a.held && !a.cells[edge].rep.Btree? && 0 < length <= a.cells[edge].rep.Len()
    requires isMutable ==> a.cells[edge].rc == 1
    modifies a
    ensures a.Ok() && old(a.next) <= a.next <= old(a.next) + 1
    ensures a.held == old(a.held) - multiset{edge} + multiset{r}
    ensures Kept(old(a.cells), old(a.next), if isMutable then {edge} else {}, a.cells)
    ensures SameAbove(old(a.cells), 1, a.cells) && NoNewData(old(a.cells), a.cells)
    ensures forall x :: x in a.cells && a.cells[x].rep.Btree? ==> x in old(a.cells) && old(a.cells)[x].rep.Btree?
    ensures r in a.cells && !a.cells[r].rep.Btree? && a.cells[r].rep.Len() == length
    ensures DataBytes(a.cells, r) == Slice(old(DataBytes(a.cells, edge)), 0, length)
  {
    hide Inv, RepOk;
    HeldIn(a.cells, a.held, edge);
    DataLen(a.cells, edge);
    if length >= a.cells[edge].rep.Len() {
      r := edge;
    } else if isMutable && (a.cells[edge].rep.Flat? || a.cells[edge].rep.Substring?) {
      HeldBacksNoSubstring(a.cells, a.held, edge);
      ShortenedOk(a.cells, edge, length);
      WriteData(a, edge, Shortened(a.cells[edge].rep, length));
      r := edge;
    } else {
      r := SubstringImpl(a, true, edge, 0, length);
    }
  }

  lemma ShortenedOk(h: Heap, x: Id, length: nat)
    requires Shape(h) && x in h && (h[x].rep.Flat? || h[x].rep.Substring?) && 0 < length <= h[x].rep.Len()
    ensures var rep := Shortened(h[x].rep, length);
      RepOk(h, rep) && rep.Out() == h[x].rep.Out() &&
      DataBytes(h[x := Cell(h[x].rc, rep)], x) == Slice(DataBytes(h, x), 0, length)
  {
    assert RepOk(h, h[x].rep);
  }
}
