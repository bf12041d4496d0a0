/**
Building a tree of the bytes that are read, from the bottom up (`read` of rep/navigator.rs).
*/
module Reads {
  import opened Heap
  import opened Counts
  import opened Arenas
  import opened Substrings
  import opened Legs
  import opened Nodes
  import opened Edits
  import opened Copies
  import opened SubTrees
  import opened Paths

  // --- Adding an edge to a new node -------------------------------------------------------------

  /** A node under construction: private, settled, filled from slot 0. */
  ghost predicate Growing(h: Heap, held: multiset<Id>, sub: Id) {
    sub in held && sub in h && h[sub].rc == 1 && IsNode(h[sub].rep) && h[sub].rep.begin == 0 && h[sub].rep.end > 0
  }

  function WithEdge(rep: Rep, e: Id, n: nat): (r: Rep)
    requires IsNode(rep) && rep.end < MAX_CAPACITY
    ensures NodeWith(r, rep.height, rep.length + n, rep.Out() + [e]) && r.begin == rep.begin && r.end == rep.end + 1
  {
    rep.(length := rep.length + n, end := rep.end + 1, slots := rep.slots[rep.end := e])
  }

  lemma PrivateIsClosed(h: Heap, held: multiset<Id>, sub: Id)
    requires Inv(h, held) && Growing(h, held, sub)
    ensures Closed(h, {sub})
  {
    hide Inv;
    assert [sub][..1] == [sub];
    assert [sub][0] in Ids([sub]);
    assert Ids([sub]) == {sub};
    assert OwnedLeg(h, held, true, [sub], 1);
    OwnedIsClosed(h, held, true, [sub], 1);
  }

  /** Adds the handle `e` as the last edge of the node `sub`. */
  method Push(a: Arena, sub: Id, e: Id)
    requires a.Ok() && Shape(a.cells) && AllSettled(a.cells, {}) && Growing(a.cells, a.held, sub)
    requires a.cells[sub].rep.end < MAX_CAPACITY
    requires e in a.held && IsEdge(a.cells, a.cells[sub].rep.height, e)
    modifies a
    ensures a.Ok() && a.next == old(a.next) && a.held == old(a.held) - multiset{e} && Shape(a.cells)
    ensures sub in a.cells && a.cells == old(a.cells)[sub := a.cells[sub]] && Growing(a.cells, a.held, sub)
    ensures a.cells[sub].rep == WithEdge(old(a.cells)[sub].rep, e, old(a.cells)[e].rep.Len())
    ensures AllSettled(a.cells, {}) && Bytes(a.cells, sub) == old(Bytes(a.cells, sub)) + old(Bytes(a.cells, e))
  {
    hide Inv, RepOk, AllSettled, Bytes, AllEdges, Closed;
    ghost var h, held := a.cells, a.held;
    PrivateIsClosed(h, held, sub);
    var rep := WithEdge(a.cells[sub].rep, e, a.cells[e].rep.Len());
    EdgeAdded(h, sub, e);
    BagAdded(h[sub].rep.Out(), e, held);
    WriteNode(a, sub, Cell(1, rep));
    InvShape(a.cells, a.held);
    assert e != sub;
    PushSettled(h, sub, e, a.cells);
    PushBytes(h, sub, e, a.cells);
    assert sub in a.held;
  }

  lemma EdgeAdded(h: Heap, sub: Id, e: Id)
    requires Shape(h) && sub in h && IsNode(h[sub].rep) && h[sub].rep.end < MAX_CAPACITY
    requires IsEdge(h, h[sub].rep.height, e)
    ensures RepOk(h, WithEdge(h[sub].rep, e, h[e].rep.Len()))
  {
    NodeOk(h, sub);
  }

  lemma BagAdded(es: seq<Id>, e: Id, held: multiset<Id>)
    requires e in held
    ensures multiset(es + [e]) <= held + multiset(es) && held + multiset(es) - multiset(es + [e]) == held - multiset{e}
  {
  }

  lemma PushSettled(h: Heap, sub: Id, e: Id, h': Heap)
    requires Shape(h) && AllSettled(h, {}) && sub in h && IsNode(h[sub].rep) && h[sub].rep.end < MAX_CAPACITY
    requires IsEdge(h, h[sub].rep.height, e) && Closed(h, {sub}) && Shape(h')
    requires sub in h' && h' == h[sub := h'[sub]] && h'[sub].rep == WithEdge(h[sub].rep, e, h[e].rep.Len())
    ensures AllSettled(h', {})
  {
    hide RepOk, Settled;
    forall x | x in h' ensures Settled(h', x) {
      if x == sub {
        PushSettledTop(h, sub, e, h');
      } else {
        SettledKept(h, h', x);
      }
    }
  }

  lemma PushSettledTop(h: Heap, sub: Id, e: Id, h': Heap)
    requires Shape(h) && sub in h && Settled(h, sub) && IsNode(h[sub].rep) && h[sub].rep.end < MAX_CAPACITY
    requires IsEdge(h, h[sub].rep.height, e)
    requires sub in h' && h' == h[sub := h'[sub]] && h'[sub].rep == WithEdge(h[sub].rep, e, h[e].rep.Len())
    ensures Settled(h', sub)
  {
    hide RepOk, WithEdge;
    var es := h[sub].rep.Out();
    NodeOk(h, sub);
    forall d | d in es ensures d in h && d in h' && h[d].rep.Len() == h'[d].rep.Len() {
      assert IsEdge(h, h[sub].rep.height, d);
    }
    SumLenFrame(h, h', es);
    SumLenAppend(h', es, [e]);
    assert SumLen(h', [e]) == h[e].rep.Len() + SumLen(h', []);
  }

  lemma PushBytes(h: Heap, sub: Id, e: Id, h': Heap)
    requires Shape(h) && sub in h && IsNode(h[sub].rep) && h[sub].rep.end < MAX_CAPACITY
    requires IsEdge(h, h[sub].rep.height, e) && Closed(h, {sub}) && Shape(h')
    requires sub in h' && h' == h[sub := h'[sub]] && h'[sub].rep == WithEdge(h[sub].rep, e, h[e].rep.Len())
    ensures Bytes(h', sub) == Bytes(h, sub) + Bytes(h, e)
  {
    hide RepOk, WithEdge, Bytes, BytesOf;
    var k, es := h[sub].rep.height, h[sub].rep.Out();
    NodeBytes(h, sub);
    NodeBytes(h', sub);
    forall d | d in es ensures d != sub && IsEdge(h', k, d) {
      assert IsEdge(h, k, d);
    }
    BytesOfFrame(h, h', {sub}, k, es);
    BytesFrame(h, h', {sub}, e);
    BytesOfOne(h', k, e);
    BytesOfAppend(h', k, es, [e]);
  }

  // --- The tree read so far -----------------------------------------------------------------------

  /** Where a read began: the heap, the next id, the handles, the tree, and the bytes to read. */
  datatype Begun = Begun(h0: Heap, n0: Id, held0: multiset<Id>, root: Id, start: nat, goal: nat)

  /** How many bytes lie before the end of the edge that the path takes at height `k`. */
  ghost function Past(h: Heap, v: Route, k: nat): nat
    requires Shape(h) && On(h, v, k)
  {
    Position(h, v, k) + if Edge(h, v, k) in h then h[Edge(h, v, k)].rep.Len() else 0
  }

  ghost predicate Ready(b: Begun, v: Route, k: nat) {
    && Shape(b.h0) && AllSettled(b.h0, {}) && On(b.h0, v, k) && v.node[v.top] == b.root && b.root in b.h0
    && (forall x :: x in b.h0 ==> x < b.n0)
  }

  /**
  The node `sub` holds the bytes from the start up to the end of the current edge. While there is
  more to read it is as high as the path has climbed, and has no more edges than were passed there.
  */
  ghost predicate Reading(b: Begun, v: Route, k: nat, h: Heap, held: multiset<Id>, sub: Id, rest: nat) {
    && Ready(b, v, k) && Fresh(b.h0, b.n0, b.held0, {}, h, held, sub) && Shape(h)
    && sub !in b.h0 && Growing(h, held, sub) && h[sub].rep.height <= k
    && b.start <= Past(b.h0, v, k) <= |Bytes(b.h0, b.root)| && Past(b.h0, v, k) + rest == b.goal
    && Bytes(h, sub) == Bytes(b.h0, b.root)[b.start..Past(b.h0, v, k)]
    && (rest > 0 ==> h[sub].rep.height == k && h[sub].rep.end <= v.index[k] - b.h0[v.node[k]].rep.begin + 1)
  }

  /** The heap of the start as seen later on. */
  lemma ReadingFacts(b: Begun, v: Route, k: nat, h: Heap, held: multiset<Id>, sub: Id, rest: nat)
    requires Reading(b, v, k, h, held, sub, rest)
    ensures Extends(b.h0, h) && sub in held && Shape(h) && AllSettled(h, {}) && Inv(h, held)
    ensures Growing(h, held, sub) && Ready(b, v, k) && h[sub].rep.height <= k
    ensures b.start <= Past(b.h0, v, k) <= |Bytes(b.h0, b.root)|
    ensures v.Sized() && k <= v.top && v.node[k] in b.h0 && IsNode(b.h0[v.node[k]].rep)
    ensures b.h0[v.node[k]].rep.begin <= v.index[k] < b.h0[v.node[k]].rep.end
  {
    hide Inv, Bytes;
  }

  lemma ReadyUp(b: Begun, v: Route, k: nat)
    requires Ready(b, v, k) && v.index[k] + 1 == b.h0[v.node[k]].rep.end
    ensures k < v.top ==> Ready(b, v, k + 1) && Past(b.h0, v, k) == Past(b.h0, v, k + 1)
    ensures k == v.top ==> Past(b.h0, v, k) == |Bytes(b.h0, b.root)|
  {
    hide RepOk, Side, Bytes, Position, Edge;
    PositionUp(b.h0, v, k);
    LenIsBytes(b.h0, b.root);
    EdgeLen(b.h0, v, k);
  }

  lemma ReadyAcross(b: Begun, v: Route, k: nat, i: nat)
    requires Ready(b, v, k) && i == v.index[k] + 1 < b.h0[v.node[k]].rep.end
    ensures var q := v.At(k, v.node[k], i);
      && Ready(b, q, k) && Position(b.h0, q, k) == Past(b.h0, v, k) <= Past(b.h0, q, k) <= |Bytes(b.h0, b.root)|
      && Edge(b.h0, q, k) == b.h0[v.node[k]].rep.slots[i] && IsEdge(b.h0, k, Edge(b.h0, q, k))
      && b.h0[Edge(b.h0, q, k)].rep.Len() > 0
      && Bytes(b.h0, Edge(b.h0, q, k)) == Bytes(b.h0, b.root)[Past(b.h0, v, k)..Past(b.h0, q, k)]
  {
    hide RepOk, Side, Bytes, Position;
    PositionAcross(b.h0, v, k, i);
    var q := v.At(k, v.node[k], i);
    EdgeLen(b.h0, q, k);
    EdgeSlice(b.h0, q, k);
  }

  lemma EdgeSlice(h: Heap, q: Route, k: nat)
    requires Shape(h) && AllSettled(h, {}) && On(h, q, k)
    ensures Edge(h, q, k) in h && q.node[q.top] in h && Past(h, q, k) <= |Bytes(h, q.node[q.top])|
    ensures Bytes(h, Edge(h, q, k)) == Bytes(h, q.node[q.top])[Position(h, q, k)..Past(h, q, k)]
  {
    hide RepOk, Side, Bytes, Edge;
    EdgeLen(h, q, k);
    Middle(Cat(h, Side(h, q, false, k)), Bytes(h, Edge(h, q, k)), Cat(h, Side(h, q, true, k)));
  }

  lemma Middle(a: seq<byte>, b: seq<byte>, c: seq<byte>)
    ensures (a + b + c)[|a|..|a| + |b|] == b
  {
  }

  /** Another handle was made and then became an edge of `sub`. */
  lemma StillFresh(b: Begun, h1: Heap, n1: Id, held1: multiset<Id>, sub: Id, e: Id, h2: Heap, held2: multiset<Id>,
                   h3: Heap, held3: multiset<Id>)
    requires Fresh(b.h0, b.n0, b.held0, {}, h1, held1, sub) && sub !in b.h0 && b.n0 <= sub < n1
    requires Fresh(h1, n1, held1, {}, h2, held2, e) && sub in h2 && sub in h3 && h3 == h2[sub := h3[sub]]
    requires Inv(h3, held3) && AllSettled(h3, {}) && held3 == held2 - multiset{e} && h3[sub].rep.Btree?
    ensures Fresh(b.h0, b.n0, b.held0, {}, h3, held3, sub)
  {
    hide Inv, AllSettled, Extends, Kept, NoNewData;
    assert held3 == held1;
    StillKept(b, h1, n1, h2, sub, h3);
  }

  lemma StillKept(b: Begun, h1: Heap, n1: Id, h2: Heap, sub: Id, h3: Heap)
    requires Extends(b.h0, h1) && Kept(b.h0, b.n0, {}, h1) && Extends(h1, h2) && Kept(h1, n1, {}, h2)
    requires sub !in b.h0 && b.n0 <= sub < n1 && sub in h3 && h3 == h2[sub := h3[sub]]
    requires NoNewData(b.h0, h1) && NoNewData(h1, h2) && h3[sub].rep.Btree?
    ensures Extends(b.h0, h3) && Kept(b.h0, b.n0, {}, h3) && NoNewData(b.h0, h3)
  {
    forall x | x in b.h0 ensures x in h3 && Same(b.h0[x], h3[x]) && b.h0[x].rc <= h3[x].rc {
      assert x in h1;
    }
  }

  /** `sub` is still under construction after a handle was made of something of lower rank. */
  lemma StillGrowing(h1: Heap, n1: Id, held1: multiset<Id>, sub: Id, e: Id, h2: Heap, held2: multiset<Id>, r: nat)
    requires Growing(h1, held1, sub) && Fresh(h1, n1, held1, {}, h2, held2, e) && Shape(h1) && Shape(h2)
    requires SameAbove(h1, r, h2) && r < h1[sub].rep.Rank()
    ensures sub in h2 && h2[sub] == h1[sub] && Growing(h2, held2, sub) && Bytes(h2, sub) == Bytes(h1, sub)
  {
    hide Inv, AllSettled, Bytes;
    BytesFrame(h1, h2, {}, sub);
  }

  /** The handle `e`, made since `h1`, becomes the next edge of `sub`. */
  method Attach(a: Arena, ghost b: Begun, ghost h1: Heap, ghost n1: Id, ghost held1: multiset<Id>, sub: Id,
                e: Id, ghost r: nat)
    requires a.Ok() && Shape(h1) && Growing(h1, held1, sub) && h1[sub].rep.end < MAX_CAPACITY
    requires Fresh(b.h0, b.n0, b.held0, {}, h1, held1, sub) && sub !in b.h0 && b.n0 <= sub < n1 <= a.next
    requires Fresh(h1, n1, held1, {}, a.cells, a.held, e) && IsEdge(a.cells, h1[sub].rep.height, e) && Shape(a.cells)
    requires SameAbove(h1, r, a.cells) && r < h1[sub].rep.Rank()
    modifies a
    ensures a.Ok() && a.next == old(a.next) && Shape(a.cells)
    ensures Fresh(b.h0, b.n0, b.held0, {}, a.cells, a.held, sub) && Growing(a.cells, a.held, sub)
    ensures a.cells[sub].rep.height == h1[sub].rep.height && a.cells[sub].rep.end == h1[sub].rep.end + 1
    ensures Bytes(a.cells, sub) == Bytes(h1, sub) + old(Bytes(a.cells, e))
  {
    hide Inv, RepOk, AllSettled, Bytes, Fresh, Growing, SameAbove, WithEdge;
    ghost var h2, held2 := a.cells, a.held;
    FreshParts(h1, n1, held1, h2, held2, e);
    GrowingNode(h1, held1, sub);
    StillGrowing(h1, n1, held1, sub, e, h2, held2, r);
    Push(a, sub, e);
    StillFresh(b, h1, n1, held1, sub, e, h2, held2, a.cells, a.held);
    GrowingNode(a.cells, a.held, sub);
  }

  lemma GrowingNode(h: Heap, held: multiset<Id>, sub: Id)
    requires Growing(h, held, sub)
    ensures sub in held && sub in h && IsNode(h[sub].rep) && h[sub].rep.Rank() == h[sub].rep.height + 2
  {
  }

  /** The first edge of the read, as the only edge of a new leaf. */
  method BeginRead(a: Arena, ghost b: Begun, ghost v: Route, edge: Id, offset: nat, ghost rest: nat) returns (sub: Id)
    requires a.Ok() && b.h0 == a.cells && b.held0 == a.held && b.n0 == a.next && Ready(b, v, 0)
    requires edge == Edge(a.cells, v, 0) && edge in a.cells && offset < a.cells[edge].rep.Len()
    requires b.start == Position(a.cells, v, 0) + offset
    requires Past(b.h0, v, 0) + rest == b.goal
    modifies a
    ensures a.Ok() && b.n0 <= sub < a.next && Reading(b, v, 0, a.cells, a.held, sub, rest)
  {
    hide Inv, RepOk, AllSettled, Bytes, Position, Fresh, Edge, On, Slice, Reading, Ready, Past;
    FirstSlice(b, v, edge, offset);
    var part := Part(a, {}, edge, offset, a.cells[edge].rep.Len() - offset);
    ghost var h1, held1 := a.cells, a.held;
    FreshParts(b.h0, b.n0, b.held0, h1, held1, part);
    sub := NewWith(a, part);
    assert a.cells[sub].rep.Out() == [part];
    FirstReading(b, v, rest, h1, held1, part, sub, a.cells, a.held);
  }

  lemma FirstReading(b: Begun, v: Route, rest: nat, h1: Heap, held1: multiset<Id>, part: Id, sub: Id, h2: Heap,
                     held2: multiset<Id>)
    requires Ready(b, v, 0) && Fresh(b.h0, b.n0, b.held0, {}, h1, held1, part) && Shape(h1) && !h1[part].rep.Btree?
    requires sub !in h1 && sub >= b.n0 && sub in h2 && h2 == h1[sub := h2[sub]] && h2[sub].rc == 1
    requires Inv(h2, held2) && held2 == held1 - multiset{part} + multiset{sub}
    requires NodeWith(h2[sub].rep, 0, h1[part].rep.Len(), [part]) && h2[sub].rep.begin == 0
    requires b.start <= Past(b.h0, v, 0) <= |Bytes(b.h0, b.root)| && Past(b.h0, v, 0) + rest == b.goal
    requires Bytes(h1, part) == Bytes(b.h0, b.root)[b.start..Past(b.h0, v, 0)]
    ensures Reading(b, v, 0, h2, held2, sub, rest)
  {
    hide Inv, RepOk, AllSettled, Bytes, Fresh, On, Past;
    InvShape(h2, held2);
    FreshParts(b.h0, b.n0, b.held0, h1, held1, part);
    OnlyEdge(h1, part, sub, h2);
    NewFresh(b, h1, held1, part, sub, h2, held2);
    UpSlots(b, v, 0);
  }

  lemma FirstSlice(b: Begun, v: Route, edge: Id, offset: nat)
    requires Ready(b, v, 0) && edge == Edge(b.h0, v, 0) && edge in b.h0 && offset < b.h0[edge].rep.Len()
    requires b.start == Position(b.h0, v, 0) + offset
    ensures b.start <= Past(b.h0, v, 0) <= |Bytes(b.h0, b.root)| && !b.h0[edge].rep.Btree? && AllSettled(b.h0, {})
    ensures Slice(Bytes(b.h0, edge), offset, b.h0[edge].rep.Len() - offset)
        == Bytes(b.h0, b.root)[b.start..Past(b.h0, v, 0)]
  {
    hide RepOk, AllSettled, Bytes, Position, Edge, On;
    EdgeLen(b.h0, v, 0);
    EdgeSlice(b.h0, v, 0);
    SliceOfSlice(Bytes(b.h0, b.root), Position(b.h0, v, 0), Past(b.h0, v, 0), offset);
  }

  lemma SliceOfSlice(s: seq<byte>, i: nat, j: nat, offset: nat)
    requires i + offset <= j <= |s|
    ensures Slice(s[i..j], offset, j - i - offset) == s[i + offset..j]
  {
  }

  lemma FreshParts(h0: Heap, n0: Id, held0: multiset<Id>, h: Heap, held: multiset<Id>, r: Id)
    requires Fresh(h0, n0, held0, {}, h, held, r)
    ensures Inv(h, held) && Shape(h) && AllSettled(h, {}) && held == held0 + multiset{r} && r in h && r in held
    ensures Extends(h0, h)
  {
  }

  /** A node with a single edge holds what that edge holds. */
  lemma OnlyEdge(h: Heap, e: Id, r: Id, h': Heap)
    requires Shape(h) && AllSettled(h, {}) && e in h && r !in h && r in h' && h' == h[r := h'[r]] && Shape(h')
    requires NodeWith(h'[r].rep, h[e].rep.Level(), h[e].rep.Len(), [e])
    ensures Bytes(h', r) == Bytes(h, e) && AllSettled(h', {})
  {
    hide RepOk, Bytes, BytesOf, Settled;
    NodeBytes(h', r);
    BytesOfOne(h', h[e].rep.Level(), e);
    BytesFrame(h, h', {}, e);
    forall x | x in h' ensures Settled(h', x) {
      if x == r {
        OnlyEdgeSettled(h, e, r, h');
      } else {
        SettledKept(h, h', x);
      }
    }
  }

  lemma OnlyEdgeSettled(h: Heap, e: Id, r: Id, h': Heap)
    requires e in h && r !in h && r in h' && h' == h[r := h'[r]]
    requires NodeWith(h'[r].rep, h[e].rep.Level(), h[e].rep.Len(), [e])
    ensures Settled(h', r)
  {
    assert SumLen(h', [e]) == h[e].rep.Len() + SumLen(h', []);
  }

  lemma NewFresh(b: Begun, h1: Heap, held1: multiset<Id>, e: Id, r: Id, h2: Heap, held2: multiset<Id>)
    requires Fresh(b.h0, b.n0, b.held0, {}, h1, held1, e) && r !in h1 && r >= b.n0 && r in h2 && h2 == h1[r := h2[r]]
    requires Inv(h2, held2) && AllSettled(h2, {}) && held2 == held1 - multiset{e} + multiset{r} && h2[r].rep.Btree?
    ensures Fresh(b.h0, b.n0, b.held0, {}, h2, held2, r)
  {
    hide Inv, AllSettled;
  }

  /** One level up: the tree read so far becomes the only edge of a new node. */
  method Wrap(a: Arena, ghost b: Begun, ghost v: Route, ghost k: nat, sub: Id, ghost rest: nat) returns (r: Id)
    requires a.Ok() && Reading(b, v, k, a.cells, a.held, sub, rest) && rest > 0 && b.n0 <= sub < a.next
    requires k < v.top && v.index[k] + 1 == b.h0[v.node[k]].rep.end
    modifies a
    ensures a.Ok() && Reading(b, v, k + 1, a.cells, a.held, r, rest) && b.n0 <= r < a.next
  {
    hide Inv, RepOk, AllSettled, Bytes, Fresh, Past, On;
    ghost var h1, held1 := a.cells, a.held;
    ReadingFacts(b, v, k, h1, held1, sub, rest);
    ReadyUp(b, v, k);
    r := NewWith(a, sub);
    InvShape(a.cells, a.held);
    OnlyEdge(h1, sub, r, a.cells);
    NewFresh(b, h1, held1, sub, r, a.cells, a.held);
    UpSlots(b, v, k + 1);
  }

  lemma UpSlots(b: Begun, v: Route, k: nat)
    requires Ready(b, v, k)
    ensures b.h0[v.node[k]].rep.begin <= v.index[k]
  {
  }

  /** There is room in `sub` for what lies in slot `i`, and something to take from there. */
  lemma NextEdge(b: Begun, v: Route, k: nat, h: Heap, held: multiset<Id>, sub: Id, rest: nat, i: nat)
    requires Reading(b, v, k, h, held, sub, rest) && rest > 0 && i == v.index[k] + 1 < b.h0[v.node[k]].rep.end
    ensures h[sub].rep.height == k && h[sub].rep.end <= i - b.h0[v.node[k]].rep.begin && h[sub].rep.end < MAX_CAPACITY
    ensures h[sub].rep.Rank() == k + 2 && Fresh(b.h0, b.n0, b.held0, {}, h, held, sub) && sub !in b.h0
    ensures b.start <= Past(b.h0, v, k) <= |Bytes(b.h0, b.root)| && Past(b.h0, v, k) + rest == b.goal
    ensures Bytes(h, sub) == Bytes(b.h0, b.root)[b.start..Past(b.h0, v, k)]
    ensures var edge := b.h0[v.node[k]].rep.slots[i];
      && IsEdge(b.h0, k, edge) && edge in h && h[edge].rep == b.h0[edge].rep && h[edge].rep.Rank() <= k + 1
      && Bytes(h, edge) == Bytes(b.h0, edge) && |Bytes(h, edge)| == h[edge].rep.Len() > 0
  {
    hide Inv, RepOk, AllSettled, Bytes, Past;
    ReadyAcross(b, v, k, i);
    var edge := b.h0[v.node[k]].rep.slots[i];
    BytesFrame(b.h0, h, {}, edge);
    LenIsBytes(h, edge);
  }

  /** A whole edge is read: `sub` shares it. */
  method TakeEdge(a: Arena, ghost b: Begun, ghost v: Route, ghost k: nat, ghost i: nat, sub: Id,
                  edge: Id, ghost rest: nat)
    requires a.Ok() && Reading(b, v, k, a.cells, a.held, sub, rest) && b.n0 <= sub < a.next
    requires i == v.index[k] + 1 < b.h0[v.node[k]].rep.end && edge == b.h0[v.node[k]].rep.slots[i]
    requires edge in b.h0 && 0 < b.h0[edge].rep.Len() <= rest
    modifies a
    ensures a.Ok() && a.next == old(a.next)
    ensures Reading(b, v.At(k, v.node[k], i), k, a.cells, a.held, sub, rest - b.h0[edge].rep.Len())
  {
    hide Inv, RepOk, AllSettled, Bytes, Fresh, Past, On, Growing, Edge, SameAbove;
    ghost var h1, held1, n1 := a.cells, a.held, a.next;
    ReadingFacts(b, v, k, h1, held1, sub, rest);
    NextEdge(b, v, k, h1, held1, sub, rest, i);
    ReadyAcross(b, v, k, i);
    var e := Share(a, {}, edge);
    FreshParts(h1, n1, held1, a.cells, a.held, e);
    Attach(a, b, h1, n1, held1, sub, e, h1[edge].rep.Rank());
    SliceMore(Bytes(b.h0, b.root), b.start, Past(b.h0, v, k), Past(b.h0, v.At(k, v.node[k], i), k));
  }

  lemma SliceMore(s: seq<byte>, i: nat, j: nat, k: nat)
    requires i <= j <= k <= |s|
    ensures s[i..j] + s[j..k] == s[i..k]
  {
  }

  /** The first `n` bytes of an edge, as a new handle of the same level. */
  method FirstOf(a: Arena, edge: Id, n: nat) returns (e: Id)
    requires a.Ok() && Shape(a.cells) && AllSettled(a.cells, {}) && edge in a.cells && 0 < n < a.cells[edge].rep.Len()
    modifies a
    ensures a.Ok() && a.next >= old(a.next) && Fresh(old(a.cells), old(a.next), old(a.held), {}, a.cells, a.held, e)
    ensures Shape(a.cells)
    ensures SameAbove(old(a.cells), old(a.cells)[edge].rep.Level() + 1, a.cells)
    ensures e in a.cells && a.cells[e].rep.Level() == old(a.cells)[edge].rep.Level()
    ensures n <= |old(Bytes(a.cells, edge))| && Bytes(a.cells, e) == old(Bytes(a.cells, edge))[..n]
  {
    hide Inv, RepOk, AllSettled, Bytes, Fresh, SameAbove;
    LenIsBytes(a.cells, edge);
    if !a.cells[edge].rep.Btree? {
      e := Part(a, {}, edge, 0, n);
    } else {
      SettledBelow(a.cells, a.cells[edge].rep.Level());
      e := CopySpan(a, {}, true, edge, n);
    }
    FreshParts(old(a.cells), old(a.next), old(a.held), a.cells, a.held, e);
  }

  /** Part of an edge is read, as its first bytes: `sub` gets a copy that shares what it can. */
  method TakePart(a: Arena, ghost b: Begun, ghost v: Route, ghost k: nat, ghost i: nat, sub: Id, edge: Id, rest: nat)
    requires a.Ok() && Reading(b, v, k, a.cells, a.held, sub, rest) && b.n0 <= sub < a.next
    requires i == v.index[k] + 1 < b.h0[v.node[k]].rep.end && edge == b.h0[v.node[k]].rep.slots[i]
    requires edge in b.h0 && 0 < rest < b.h0[edge].rep.Len()
    modifies a
    ensures a.Ok() && Fresh(b.h0, b.n0, b.held0, {}, a.cells, a.held, sub) && Shape(a.cells)
    ensures sub in a.cells && a.cells[sub].rep.Level() == k + 1
    ensures Shape(b.h0) && b.root in b.h0 && b.start <= b.goal <= |Bytes(b.h0, b.root)|
    ensures Bytes(a.cells, sub) == Bytes(b.h0, b.root)[b.start..b.goal]
  {
    hide Inv, RepOk, AllSettled, Bytes, Fresh, Past, On, Growing, Edge, SameAbove, Reading;
    ghost var h1, held1, n1 := a.cells, a.held, a.next;
    ReadingFacts(b, v, k, h1, held1, sub, rest);
    NextEdge(b, v, k, h1, held1, sub, rest, i);
    ReadyAcross(b, v, k, i);
    var e := FirstOf(a, edge, rest);
    Attach(a, b, h1, n1, held1, sub, e, k + 1);
    GrowingNode(a.cells, a.held, sub);
    SliceFirst(Bytes(b.h0, b.root), b.start, Past(b.h0, v, k), Past(b.h0, v.At(k, v.node[k], i), k), rest);
  }

  lemma SettledBelow(h: Heap, k: nat)
    requires AllSettled(h, {})
    ensures SettledTo(h, {}, k)
  {
  }

  lemma SliceFirst(s: seq<byte>, i: nat, j: nat, q: nat, n: nat)
    requires i <= j <= q <= |s| && n <= q - j
    ensures s[i..j] + s[j..q][..n] == s[i..j + n]
  {
  }

  /** A finished level, with nothing left to read. */
  lemma ReadingUp(b: Begun, v: Route, k: nat, h: Heap, held: multiset<Id>, sub: Id)
    requires Reading(b, v, k, h, held, sub, 0) && k < v.top && v.index[k] + 1 == b.h0[v.node[k]].rep.end
    ensures Reading(b, v, k + 1, h, held, sub, 0)
  {
    hide Inv, RepOk, AllSettled, Bytes, Past, On, Fresh;
    ReadyUp(b, v, k);
  }

  /** Routes that differ below height `k` only. */
  lemma ReadingSame(b: Begun, v: Route, p: Route, k: nat, h: Heap, held: multiset<Id>, sub: Id, rest: nat)
    requires Reading(b, v, k, h, held, sub, rest) && p.Sized() && p.top == v.top
    requires forall i :: k <= i <= p.top ==> p.node[i] == v.node[i] && p.index[i] == v.index[i]
    ensures Reading(b, p, k, h, held, sub, rest)
  {
    hide Inv, RepOk, AllSettled, Bytes, Fresh, Side;
    SideAbove(b.h0, v, p, false, k);
  }

  /** A read that has come to the end of the tree. */
  lemma ReadAll(b: Begun, v: Route, h: Heap, held: multiset<Id>, sub: Id, rest: nat)
    requires Reading(b, v, v.top, h, held, sub, rest) && v.index[v.top] + 1 == b.h0[v.node[v.top]].rep.end
    ensures b.goal == |Bytes(b.h0, b.root)| + rest && b.start <= |Bytes(b.h0, b.root)|
    ensures Bytes(h, sub) == Bytes(b.h0, b.root)[b.start..] && h[sub].rep.Level() <= v.top + 1
  {
    hide Inv, RepOk, AllSettled, Bytes, Past, On, Fresh;
    ReadyUp(b, v, v.top);
  }

  // --- Giving up what was built ---------------------------------------------------------------------

  lemma {:induction false} EdgeBagSame(h: Heap, h': Heap)
    requires h'.Keys == h.Keys && forall x :: x in h ==> h'[x].rep == h[x].rep
    ensures EdgeBag(h') == EdgeBag(h)
    decreases |h|
  {
    if |h| == 0 {
      assert h == map[] && h' == map[];
    } else {
      var x :| x in h;
      EdgeBagSplit(h, x);
      EdgeBagSplit(h', x);
      EdgeBagSame(h - {x}, h' - {x});
    }
  }

  /** Cells that refer only to cells of `h0` cannot lead out of it. */
  lemma {:induction false} PathStays(h0: Heap, h2: Heap, p: seq<Id>)
    requires Shape(h0) && Path(h2, p) && p[0] in h0 && (forall x :: x in h0 && x in h2 ==> h2[x].rep == h0[x].rep)
    ensures p[|p| - 1] in h0
    decreases |p|
  {
    hide RepOk;
    if |p| > 1 {
      var q := p[..|p| - 1];
      assert Path(h2, q);
      PathStays(h0, h2, q);
      EdgeIn(h0, q[|q| - 1], p[|p| - 1]);
    }
  }

  /** A heap to which cells were added, and from which all but the old handles are given up, is the old heap. */
  lemma Restored(h0: Heap, n0: Id, held: multiset<Id>, h1: Heap, h2: Heap)
    requires Inv(h0, held) && (forall x :: x in h0 ==> x < n0) && Shape(h1)
    requires Extends(h0, h1) && Inv(h2, held) && Shrunk(h1, h2)
    ensures h2 == h0
  {
    hide RepOk, EdgeBag;
    forall x | x in h0 ensures x in h2 {
      var n := RankBound(h0);
      LiveIsReachable(h0, held, x, n);
      var p :| Path(h0, p) && p[0] in held && p[|p| - 1] == x;
      PathExtends(h0, h1, p);
      PathSurvives(h1, h2, held, p);
      assert x in p;
    }
    forall x | x in h2 ensures x in h0 {
      var n := RankBound(h2);
      LiveIsReachable(h2, held, x, n);
      var p :| Path(h2, p) && p[0] in held && p[|p| - 1] == x;
      PathStays(h0, h2, p);
    }
    EdgeBagSame(h0, h2);
    assert h2.Keys == h0.Keys;
    forall x | x in h0 ensures h2[x] == h0[x] {
    }
  }

  lemma PathExtends(h0: Heap, h1: Heap, p: seq<Id>)
    requires Path(h0, p) && Extends(h0, h1)
    ensures Path(h1, p)
  {
  }
}
