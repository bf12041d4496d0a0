/**
Any number of cords and taken buffers over one shared heap, and runs of operations on them. A run
refines the same operations on plain byte sequences.
*/
module Pools {
  import opened Heap
  import opened Counts
  import opened Arenas
  import opened Rebuilds
  import opened Trees
  import opened Buffers
  import opened Cords
  import opened CordEdits

  // --- Plain sequences ---------------------------------------------------------------------------

  /** The abstract state: the bytes of every cord and of every buffer. */
  datatype Plain = Plain(cords: seq<seq<byte>>, buffers: seq<seq<byte>>)

  datatype Op =
    | New(bytes: seq<byte>)
    | Static(bytes: seq<byte>)
    | Clone(i: nat)
    | Clear(i: nat)
    | Append(i: nat, data: seq<byte>)
    | Prepend(i: nat, data: seq<byte>)
    | AppendCord(i: nat, j: nat)
    | PrependCord(i: nat, j: nat)
    | Advance(i: nat, n: nat)
    | Truncate(i: nat, n: nat)
    | Slice(i: nat, pos: nat, n: nat)
    | SplitOff(i: nat, n: nat)
    | SplitTo(i: nat, n: nat)
    | TakeBuffer(i: nat, room: nat, heap: bool)
    | AppendBuffer(i: nat, b: nat)

  /** Whether the operation is called within its bounds; otherwise it panics and changes nothing. */
  predicate Enabled(p: Plain, op: Op) {
    && (op.New? || op.Static? || op.i < |p.cords|)
    && match op
       case AppendCord(i, j) => j < |p.cords| && j != i
       case PrependCord(i, j) => j < |p.cords| && j != i
       case Advance(i, n) => n <= |p.cords[i]|
       case Slice(i, pos, n) => pos + n <= |p.cords[i]|
       case SplitOff(i, n) => n <= |p.cords[i]|
       case SplitTo(i, n) => n <= |p.cords[i]|
       case AppendBuffer(i, b) => b < |p.buffers|
       case _ => true
  }

  /** Cord `i` becomes `v`. */
  function Put(p: Plain, i: nat, v: seq<byte>): Plain
    requires i < |p.cords|
  {
    p.(cords := p.cords[i := v])
  }

  /** A new cord `v`. */
  function Add(p: Plain, v: seq<byte>): Plain {
    p.(cords := p.cords + [v])
  }

  /** What the operations mean on plain sequences. Where a buffer is split off is left open. */
  ghost predicate Means(p: Plain, op: Op, p': Plain) {
    if !Enabled(p, op) then p' == p else
      match op
      case New(bytes) => p' == Add(p, bytes)
      case Static(bytes) => p' == Add(p, bytes)
      case Clone(i) => p' == Add(p, p.cords[i])
      case Clear(i) => p' == Put(p, i, [])
      case Append(i, data) => p' == Put(p, i, p.cords[i] + data)
      case Prepend(i, data) => p' == Put(p, i, data + p.cords[i])
      case AppendCord(i, j) => p' == Put(p, i, p.cords[i] + p.cords[j])
      case PrependCord(i, j) => p' == Put(p, i, p.cords[j] + p.cords[i])
      case Advance(i, n) => p' == Put(p, i, p.cords[i][n..])
      case Truncate(i, n) => p' == Put(p, i, if n < |p.cords[i]| then p.cords[i][..n] else p.cords[i])
      case Slice(i, pos, n) => p' == Add(p, p.cords[i][pos..pos + n])
      case SplitOff(i, n) => p' == Add(Put(p, i, p.cords[i][..n]), p.cords[i][n..])
      case SplitTo(i, n) => p' == Add(Put(p, i, p.cords[i][n..]), p.cords[i][..n])
      case TakeBuffer(i, _, _) => exists k: nat :: k <= |p.cords[i]| && p' == Taking(p, i, k)
      case AppendBuffer(i, b) => p' == Put(p, i, p.cords[i] + p.buffers[b]).(buffers := p.buffers[b := []])
  }

  /** The bytes of cord `i` from `k` on go to a new buffer. */
  function Taking(p: Plain, i: nat, k: nat): Plain
    requires i < |p.cords| && k <= |p.cords[i]|
  {
    Put(p, i, p.cords[i][..k]).(buffers := p.buffers + [p.cords[i][k..]])
  }

  // --- Handles ---------------------------------------------------------------------------------------

  ghost function CordBag(cords: seq<Cord>): multiset<Id> {
    if cords == [] then multiset{} else Held(cords[0]) + CordBag(cords[1..])
  }

  lemma {:induction false} CordBagAt(cords: seq<Cord>, i: nat)
    requires i < |cords|
    ensures Held(cords[i]) <= CordBag(cords)
    ensures forall c :: CordBag(cords[i := c]) == CordBag(cords) - Held(cords[i]) + Held(c)
  {
    hide Held;
    if i > 0 {
      CordBagAt(cords[1..], i - 1);
    }
    forall c ensures CordBag(cords[i := c]) == CordBag(cords) - Held(cords[i]) + Held(c) {
      if i == 0 {
        assert cords[i := c][1..] == cords[1..];
      } else {
        assert cords[i := c][1..] == cords[1..][i - 1 := c];
        BagShuffle(Held(cords[0]), CordBag(cords[1..]), Held(cords[i]), Held(c));
      }
    }
  }

  lemma BagShuffle(a: multiset<Id>, b: multiset<Id>, x: multiset<Id>, y: multiset<Id>)
    requires x <= b
    ensures a + (b - x + y) == a + b - x + y
  {
  }

  lemma {:induction false} CordBagTwo(cords: seq<Cord>, i: nat, j: nat)
    requires i < |cords| && j < |cords| && i != j
    ensures Held(cords[i]) + Held(cords[j]) <= CordBag(cords)
  {
    CordBagAt(cords, i);
    CordBagAt(cords[i := Inline([])], j);
    assert cords[i := Inline([])][j] == cords[j];
    assert CordBag(cords[i := Inline([])]) == CordBag(cords) - Held(cords[i]) + Held(Inline([]));
  }

  lemma {:induction false} CordBagAdd(cords: seq<Cord>, c: Cord)
    ensures CordBag(cords + [c]) == CordBag(cords) + Held(c)
  {
    hide Held;
    if cords == [] {
      assert ([] + [c])[1..] == [];
    } else {
      assert (cords + [c])[1..] == cords[1..] + [c];
      CordBagAdd(cords[1..], c);
    }
  }

  // --- The concrete state ------------------------------------------------------------------------------

  ghost predicate CordsOk(h: Heap, cords: seq<Cord>) {
    forall i :: 0 <= i < |cords| ==> CordOk(h, cords[i])
  }

  ghost predicate BuffersOk(buffers: seq<Buffer>) {
    forall i :: 0 <= i < |buffers| ==> BufferOk(buffers[i])
  }

  /** Every handle is held by exactly one cord, and nothing else is alive; each buffer owns its flat alone. */
  ghost predicate PoolOk(h: Heap, held: multiset<Id>, cords: seq<Cord>, buffers: seq<Buffer>) {
    && Inv(h, held) && Shape(h) && AllSettled(h, {})
    && held == CordBag(cords) && CordsOk(h, cords) && BuffersOk(buffers)
  }

  ghost function CordValues(h: Heap, cords: seq<Cord>): seq<seq<byte>>
    requires Shape(h) && CordsOk(h, cords)
  {
    seq(|cords|, i requires 0 <= i < |cords| => Value(h, cords[i]))
  }

  ghost function BufferValues(buffers: seq<Buffer>): seq<seq<byte>>
    requires BuffersOk(buffers)
  {
    seq(|buffers|, i requires 0 <= i < |buffers| => BufferValue(buffers[i]))
  }

  ghost function PoolView(h: Heap, held: multiset<Id>, cords: seq<Cord>, buffers: seq<Buffer>): Plain
    requires PoolOk(h, held, cords, buffers)
  {
    Plain(CordValues(h, cords), BufferValues(buffers))
  }

  /** All cords but `i` are what they were. */
  lemma CordsSame(h: Heap, h': Heap, rest: multiset<Id>, cords: seq<Cord>, i: nat)
    requires Shape(h) && Shape(h') && CordsOk(h, cords) && i < |cords| && CordBag(cords) - Held(cords[i]) <= rest
    requires Others(h, h', rest)
    ensures forall j :: 0 <= j < |cords| && j != i ==> CordOk(h', cords[j]) && Value(h', cords[j]) == Value(h, cords[j])
  {
    hide Bytes, Others, Held, CordOk, Value;
    forall j | 0 <= j < |cords| && j != i ensures CordOk(h', cords[j]) && Value(h', cords[j]) == Value(h, cords[j]) {
      CordBagTwo(cords, i, j);
      BagLeft(CordBag(cords), Held(cords[i]), Held(cords[j]));
      SameCord(h, h', rest, cords[j]);
    }
  }

  lemma BagLeft(a: multiset<Id>, x: multiset<Id>, y: multiset<Id>)
    requires x + y <= a
    ensures y <= a - x
  {
  }

  /** Cord `i` has been replaced by `c`. */
  lemma CordsPut(h: Heap, h': Heap, rest: multiset<Id>, cords: seq<Cord>, i: nat, c: Cord)
    requires Shape(h) && Shape(h') && CordsOk(h, cords) && i < |cords| && CordBag(cords) - Held(cords[i]) <= rest
    requires Others(h, h', rest)
    requires CordOk(h', c)
    ensures CordsOk(h', cords[i := c]) && CordValues(h', cords[i := c]) == CordValues(h, cords)[i := Value(h', c)]
  {
    hide CordOk, Value, Others, Bytes, CordValues, Held;
    CordsSame(h, h', rest, cords, i);
    var cords' := cords[i := c];
    forall j | 0 <= j < |cords'| ensures CordOk(h', cords'[j]) {
    }
    CordValuesAre(h, cords);
    CordValuesAre(h', cords');
    forall j | 0 <= j < |cords| ensures CordValues(h', cords')[j] == CordValues(h, cords)[i := Value(h', c)][j] {
    }
  }

  lemma CordValuesAre(h: Heap, cords: seq<Cord>)
    requires Shape(h) && CordsOk(h, cords)
    ensures |CordValues(h, cords)| == |cords|
    ensures forall j :: 0 <= j < |cords| ==> CordValues(h, cords)[j] == Value(h, cords[j])
  {
  }

  lemma BufferValuesAre(buffers: seq<Buffer>)
    requires BuffersOk(buffers)
    ensures |BufferValues(buffers)| == |buffers|
    ensures forall j :: 0 <= j < |buffers| ==> BufferValues(buffers)[j] == BufferValue(buffers[j])
  {
  }

  /** All cords are what they were, and there is one more. */
  lemma CordsAdd(h: Heap, h': Heap, rest: multiset<Id>, cords: seq<Cord>, c: Cord)
    requires Shape(h) && Shape(h') && CordsOk(h, cords) && CordBag(cords) <= rest && Others(h, h', rest)
    requires CordOk(h', c)
    ensures CordsOk(h', cords + [c]) && CordValues(h', cords + [c]) == CordValues(h, cords) + [Value(h', c)]
  {
    hide CordOk, Value, Others, Bytes, Held;
    forall j | 0 <= j < |cords| ensures CordOk(h', cords[j]) && Value(h', cords[j]) == Value(h, cords[j]) {
      CordBagAt(cords, j);
      SameCord(h, h', rest, cords[j]);
    }
  }

  lemma CordReplaced(h: Heap, held: multiset<Id>, cords: seq<Cord>, buffers: seq<Buffer>, i: nat, h': Heap,
                     held': multiset<Id>, c: Cord, bytes: seq<byte>)
    requires PoolOk(h, held, cords, buffers) && i < |cords| && Yields(h, held - Held(cords[i]), h', held', c, bytes)
    ensures PoolOk(h', held', cords[i := c], buffers)
    ensures PoolView(h', held', cords[i := c], buffers) == Put(PoolView(h, held, cords, buffers), i, bytes)
  {
    hide Inv, AllSettled, Bytes, Others, Held, CordsOk, BuffersOk, CordOk, Value, CordValues, BufferValues, Yields;
    var rest := held - Held(cords[i]);
    YieldsFacts(h, rest, h', held', c, bytes);
    CordBagAt(cords, i);
    CordsPut(h, h', rest, cords, i, c);
  }

  /** The new cord `c` has been added. */
  lemma CordAdded(h: Heap, held: multiset<Id>, cords: seq<Cord>, buffers: seq<Buffer>, h': Heap, held': multiset<Id>,
                  c: Cord, bytes: seq<byte>)
    requires PoolOk(h, held, cords, buffers) && Yields(h, held, h', held', c, bytes)
    ensures PoolOk(h', held', cords + [c], buffers)
    ensures PoolView(h', held', cords + [c], buffers) == Add(PoolView(h, held, cords, buffers), bytes)
  {
    hide Inv, AllSettled, Bytes, Others, Held, CordsOk, BuffersOk, CordOk, Value, CordValues, BufferValues, Yields;
    assert held - multiset{} == held;
    YieldsFacts(h, held, h', held', c, bytes);
    CordBagAdd(cords, c);
    CordsAdd(h, h', held, cords, c);
  }

  /** Part of cord `i` is now a new buffer. */
  lemma BufferTaken(h: Heap, held: multiset<Id>, cords: seq<Cord>, buffers: seq<Buffer>, i: nat, room: nat, heap: bool,
                    h': Heap, held': multiset<Id>, c: Cord, b: Buffer)
    requires PoolOk(h, held, cords, buffers) && i < |cords|
    requires CordOk(h, cords[i]) && CordAndBuffer(h, held - Held(cords[i]), h', held', c, b, Value(h, cords[i]))
    ensures PoolOk(h', held', cords[i := c], buffers + [b])
    ensures Means(PoolView(h, held, cords, buffers), TakeBuffer(i, room, heap),
        PoolView(h', held', cords[i := c], buffers + [b]))
  {
    hide Inv, AllSettled, Bytes, Others, Held, CordOk, BufferOk, Value, BufferValue, CordValues, BufferValues,
      BuffersOk, Means;
    var rest := held - Held(cords[i]);
    CordBagAt(cords, i);
    CordsPut(h, h', rest, cords, i, c);
    BuffersAdd(buffers, b);
    CordValuesAre(h, cords);
    TakingMeans(PoolView(h, held, cords, buffers), i, room, heap, Value(h', c), BufferValue(b));
  }

  lemma TakingMeans(p: Plain, i: nat, room: nat, heap: bool, x: seq<byte>, y: seq<byte>)
    requires i < |p.cords| && p.cords[i] == x + y
    ensures Means(p, TakeBuffer(i, room, heap), Put(p, i, x).(buffers := p.buffers + [y]))
  {
    assert Put(p, i, x).(buffers := p.buffers + [y]) == Taking(p, i, |x|);
  }

  lemma BuffersAdd(buffers: seq<Buffer>, b: Buffer)
    requires BuffersOk(buffers) && BufferOk(b)
    ensures BuffersOk(buffers + [b])
    ensures BufferValues(buffers + [b]) == BufferValues(buffers) + [BufferValue(b)]
  {
    hide BufferOk, BufferValue;
  }

  /** Buffer `b` has been used up for cord `i`. */
  lemma BufferUsed(h: Heap, held: multiset<Id>, cords: seq<Cord>, buffers: seq<Buffer>, i: nat, b: nat, h': Heap,
                   held': multiset<Id>, c: Cord, bytes: seq<byte>)
    requires PoolOk(h, held, cords, buffers) && i < |cords| && b < |buffers|
    requires Yields(h, held - Held(cords[i]), h', held', c, bytes)
    ensures PoolOk(h', held', cords[i := c], buffers[b := Loose([], false)])
    ensures
      var p := PoolView(h, held, cords, buffers);
      PoolView(h', held', cords[i := c], buffers[b := Loose([], false)])
        == Put(p, i, bytes).(buffers := p.buffers[b := []])
  {
    hide Inv, AllSettled, Bytes, Others, Held, CordOk, Value, Yields, CordsOk, BuffersOk, CordValues, BufferValues,
      CordBag;
    CordReplaced(h, held, cords, buffers, i, h', held', c, bytes);
    BuffersPut(buffers, b);
  }

  lemma BuffersPut(buffers: seq<Buffer>, b: nat)
    requires BuffersOk(buffers) && b < |buffers|
    ensures BuffersOk(buffers[b := Loose([], false)])
    ensures BufferValues(buffers[b := Loose([], false)]) == BufferValues(buffers)[b := []]
  {
  }

  // --- Nothing leaks ----------------------------------------------------------------------------------------

  lemma {:induction false} InCordBag(cords: seq<Cord>, x: Id)
    requires x in CordBag(cords)
    ensures exists i :: 0 <= i < |cords| && cords[i] == Tree(x)
  {
    if x in Held(cords[0]) {
      assert cords[0] == Tree(x);
    } else {
      InCordBag(cords[1..], x);
      var i :| 0 <= i < |cords[1..]| && cords[1..][i] == Tree(x);
      assert cords[i + 1] == Tree(x);
    }
  }

  /** `x` is reached from a cord. */
  ghost predicate Owned(h: Heap, cords: seq<Cord>, x: Id) {
    exists p :: Path(h, p) && p[|p| - 1] == x && Tree(p[0]) in cords
  }

  /** Every live cell is kept alive by a cord; a buffer's flat is in no cord's reach. */
  lemma NothingLeaks(h: Heap, held: multiset<Id>, cords: seq<Cord>, buffers: seq<Buffer>, x: Id)
    requires PoolOk(h, held, cords, buffers) && x in h
    ensures Owned(h, cords, x)
  {
    hide Inv, AllSettled, CordBag, CordsOk, BuffersOk;
    var n := RankBound(h);
    LiveIsReachable(h, held, x, n);
    var p :| Path(h, p) && p[0] in held && p[|p| - 1] == x;
    InCordBag(cords, p[0]);
  }

  // --- Operations on the pool ------------------------------------------------------------------------------

  /**
  The number of data edges of the cord that the operation makes, where it could be too large. When a
  short cord is appended, its chunks are copied and may fill spare room; this is then an upper bound.
  */
  ghost function OpEdges(h: Heap, cords: seq<Cord>, buffers: seq<Buffer>, op: Op): nat
    requires Shape(h) && CordsOk(h, cords) && BuffersOk(buffers)
  {
    if !op.New? && !op.Static? && op.i >= |cords| then 0 else
      match op
      case New(bytes) => FlatsFor(|bytes|)
      case Append(i, data) => AppendedEdges(h, cords[i], |data|)
      case Prepend(i, data) => PrependedEdges(h, cords[i], |data|)
      case AppendCord(i, j) => if j < |cords| then CordEdges(h, cords[i]) + CordEdges(h, cords[j]) else 0
      case PrependCord(i, j) => if j < |cords| then JoinedEdges(h, cords[i], cords[j]) else 0
      case AppendBuffer(i, b) => if b < |buffers| then CordEdges(h, cords[i]) + BufferEdges(buffers[b]) else 0
      case _ => 0
  }

  /** Whether taking a buffer from a cord would free a node that another cord still uses. */
  ghost predicate UnsafeTake(h: Heap, cords: seq<Cord>, op: Op) {
    && op.TakeBuffer? && op.i < |cords| && cords[op.i].Tree? && Shape(h) && cords[op.i].root in h
    && h[cords[op.i].root].rep.Btree? && HasBuffer(h, cords[op.i].root, op.room) && !SafeToTake(h, cords[op.i].root)
  }

  /** All there is at one moment of a run. */
  datatype Moment = Moment(h: Heap, held: multiset<Id>, cords: seq<Cord>, buffers: seq<Buffer>)

  /**
  Why an operation cannot be performed: the cord would have more data edges than a tree of the
  greatest height can hold, or taking the buffer would free a node that is still used.
  */
  ghost predicate Stops(m: Moment, op: Op) {
    && PoolOk(m.h, m.held, m.cords, m.buffers) && Enabled(PoolView(m.h, m.held, m.cords, m.buffers), op)
    && (OpEdges(m.h, m.cords, m.buffers, op) > Pow6(MAX_DEPTH) || UnsafeTake(m.h, m.cords, op))
  }

  /** A cord is appended that is short enough to be copied. */
  predicate CopiesShort(p: Plain, op: Op) {
    op.AppendCord? && op.j < |p.cords| && |p.cords[op.j]| <= MAX_BYTES_TO_COPY
  }

  /** The operations that only change the cord they are called on. */
  predicate ChangesOne(op: Op) {
    op.Clear? || op.Append? || op.Prepend? || op.AppendCord? || op.PrependCord? || op.Advance? || op.Truncate?
  }

  /** What such an operation makes of the cord. */
  function Changed(p: Plain, op: Op): seq<byte>
    requires Enabled(p, op) && ChangesOne(op)
  {
    match op
    case Clear(i) => []
    case Append(i, data) => p.cords[i] + data
    case Prepend(i, data) => data + p.cords[i]
    case AppendCord(i, j) => p.cords[i] + p.cords[j]
    case PrependCord(i, j) => p.cords[j] + p.cords[i]
    case Advance(i, n) => p.cords[i][n..]
    case Truncate(i, n) => if n < |p.cords[i]| then p.cords[i][..n] else p.cords[i]
  }

  /** The operations that make a new cord. */
  predicate AddsOne(op: Op) {
    op.New? || op.Static? || op.Clone? || op.Slice?
  }

  /** The bytes of the new cord. */
  function Made(p: Plain, op: Op): seq<byte>
    requires Enabled(p, op) && AddsOne(op)
  {
    match op
    case New(bytes) => bytes
    case Static(bytes) => bytes
    case Clone(i) => p.cords[i]
    case Slice(i, pos, n) => p.cords[i][pos..pos + n]
  }

  lemma MadeMeans(p: Plain, op: Op)
    requires Enabled(p, op) && AddsOne(op)
    ensures Means(p, op, Add(p, Made(p, op)))
  {
  }

  class Pool {
    const arena: Arena
    var cords: seq<Cord>
    var buffers: seq<Buffer>

    constructor ()
      ensures Valid() && View() == Plain([], []) && fresh(arena)
    {
      arena := new Arena();
      cords := [];
      buffers := [];
    }

    ghost predicate Valid()
      reads this, arena
    {
      arena.Ok() && PoolOk(arena.cells, arena.held, cords, buffers)
    }

    ghost function View(): Plain
      requires Valid()
      reads this, arena
    {
      PoolView(arena.cells, arena.held, cords, buffers)
    }

    ghost function Now(): Moment
      reads this, arena
    {
      Moment(arena.cells, arena.held, cords, buffers)
    }

    /** The number of data edges of the cord that `op` makes. */
    ghost function Needed(op: Op): nat
      requires Valid()
      reads this, arena
    {
      OpEdges(arena.cells, cords, buffers, op)
    }

    /** The operations that change one cord in place. */
    method Change(op: Op) returns (ok: bool)
      requires Valid() && Enabled(View(), op)
      requires ChangesOne(op)
      modifies this, arena
      ensures ok ==> Valid() && Means(old(View()), op, View())
      ensures !ok ==> old(Needed(op)) > Pow6(MAX_DEPTH)
      ensures ok && old(Needed(op)) > Pow6(MAX_DEPTH) ==> CopiesShort(old(View()), op)
    {
      hide Inv, AllSettled, Bytes, Yields, Held, CordOk, Value, CordValues, BufferValues, CordsOk, BuffersOk, Means,
        PoolOk, PoolView,
        OpEdges;
      ghost var h, held, cs, bs := arena.cells, arena.held, cords, buffers;
      ghost var p := View();
      ViewFacts(h, held, cs, bs);
      var r, aborted;
      if op.Clear? || op.Advance? || op.Truncate? {
        r := Shorten(op);
        aborted := false;
        OpSorts(h, held, cs, bs, op);
      } else if op.Append? || op.Prepend? {
        r, aborted := AddBytes(op);
      } else {
        r, aborted := AddCord(op);
      }
      ok := !aborted;
      cords := cords[op.i := r];
      if ok {
        CordReplaced(h, held, cs, bs, op.i, arena.cells, arena.held, r, Changed(p, op));
        ChangeMeans(p, op);
      }
    }

    /** The cord without some of its bytes. */
    method Shorten(op: Op) returns (r: Cord)
      requires Valid() && Enabled(View(), op) && (op.Clear? || op.Advance? || op.Truncate?) && op.i < |cords|
      modifies arena
      ensures arena.Ok() && Shape(old(arena.cells))
      ensures Yields(old(arena.cells), old(arena.held - Held(cords[op.i])), arena.cells, arena.held, r,
          Changed(old(View()), op))
    {
      hide Inv, AllSettled, Bytes, Yields, Held, CordOk, Value, CordValues, BufferValues, CordsOk, BuffersOk, PoolOk,
        PoolView;
      ghost var h, held, cs, bs := arena.cells, arena.held, cords, buffers;
      ViewFacts(h, held, cs, bs);
      InSlot(h, held, cs, bs, op.i);
      var c := cords[op.i];
      match op {
        case Clear(i) =>
          DropCord(arena, c);
          r := Inline([]);
        case Advance(i, n) =>
          r := CordEdits.Advance(arena, c, n);
        case Truncate(i, n) =>
          r := CordEdits.Truncate(arena, c, n);
      }
    }

    /** The cord with bytes added. */
    method AddBytes(op: Op) returns (r: Cord, aborted: bool)
      requires Valid() && Enabled(View(), op) && (op.Append? || op.Prepend?) && op.i < |cords|
      modifies arena
      ensures Shape(old(arena.cells))
      ensures !aborted ==> arena.Ok()
      ensures !aborted ==>
        Yields(old(arena.cells), old(arena.held - Held(cords[op.i])), arena.cells, arena.held, r,
          Changed(old(View()), op))
      ensures aborted ==> old(Needed(op)) > Pow6(MAX_DEPTH)
      ensures !aborted && old(Needed(op)) > Pow6(MAX_DEPTH) ==> CopiesShort(old(View()), op)
    {
      hide Inv, AllSettled, Bytes, Yields, Held, CordOk, Value, CordValues, BufferValues, CordsOk, BuffersOk, PoolOk,
        PoolView, CordEdges, AppendedEdges, PrependedEdges, JoinedEdges, FlatsFor, BufferEdges;
      ghost var h, held, cs, bs := arena.cells, arena.held, cords, buffers;
      ViewFacts(h, held, cs, bs);
      InSlot(h, held, cs, bs, op.i);
      var c := cords[op.i];
      if op.Append? {
        r, aborted := AppendSlice(arena, c, op.data);
      } else {
        r, aborted := PrependSlice(arena, c, op.data);
      }
    }

    /** The cord with another cord added. */
    method AddCord(op: Op) returns (r: Cord, aborted: bool)
      requires Valid() && Enabled(View(), op) && (op.AppendCord? || op.PrependCord?) && op.i < |cords|
      modifies arena
      ensures Shape(old(arena.cells))
      ensures !aborted ==> arena.Ok()
      ensures !aborted ==>
        Yields(old(arena.cells), old(arena.held - Held(cords[op.i])), arena.cells, arena.held, r,
          Changed(old(View()), op))
      ensures aborted ==> old(Needed(op)) > Pow6(MAX_DEPTH)
      ensures !aborted && old(Needed(op)) > Pow6(MAX_DEPTH) ==> CopiesShort(old(View()), op)
    {
      hide Inv, AllSettled, Bytes, Yields, Held, CordOk, Value, CordValues, BufferValues, CordsOk, BuffersOk, PoolOk,
        PoolView, CordEdges, AppendedEdges, PrependedEdges, JoinedEdges, FlatsFor, BufferEdges;
      ghost var h, held, cs, bs := arena.cells, arena.held, cords, buffers;
      ViewFacts(h, held, cs, bs);
      InSlot(h, held, cs, bs, op.i);
      var c := cords[op.i];
      InSlots(h, held, cs, bs, op.i, op.j);
      if op.AppendCord? {
        r, aborted := CordEdits.AppendCord(arena, c, cords[op.j]);
      } else {
        r, aborted := CordEdits.PrependCord(arena, c, cords[op.j]);
      }
    }

    /** The operations that make a new cord. */
    method Make(op: Op) returns (ok: bool)
      requires Valid() && Enabled(View(), op) && AddsOne(op)
      modifies this, arena
      ensures ok ==> Valid() && Means(old(View()), op, View())
      ensures ok <==> old(Needed(op)) <= Pow6(MAX_DEPTH)
    {
      hide Inv, AllSettled, Bytes, Yields, Held, CordOk, Value, CordValues, BufferValues, CordsOk, BuffersOk, FlatsFor,
        Means;
      ghost var h, held, cs, bs := arena.cells, arena.held, cords, buffers;
      ghost var p := View();
      CordValuesAre(h, cs);
      var r, aborted := Inline([]), false;
      match op {
        case New(data) =>
          EmptyCord(h, held);
          r, aborted := AppendSlice(arena, r, data);
          assert [] + data == data;
        case Static(data) =>
          r := StaticCord(arena, data);
        case Clone(i) =>
          InSlot(h, held, cs, bs, i);
          r := CloneCord(arena, cords[i]);
        case Slice(i, pos, n) =>
          InSlot(h, held, cs, bs, i);
          r := Subcord(arena, cords[i], pos, n);
      }
      ok := !aborted;
      cords := cords + [r];
      if ok {
        CordAdded(h, held, cs, bs, arena.cells, arena.held, r, Made(p, op));
        MadeMeans(p, op);
      }
    }

    /** The operations that split a cord in two. */
    method Split(op: Op)
      requires Valid() && Enabled(View(), op) && (op.SplitOff? || op.SplitTo?)
      modifies this, arena
      ensures Valid() && Means(old(View()), op, View())
    {
      hide Inv, AllSettled, Bytes, Yields, Held, CordOk, Value, CordValues, BufferValues, CordsOk, BuffersOk;
      ghost var h, held, cs, bs := arena.cells, arena.held, cords, buffers;
      ghost var p := View();
      CordValuesAre(h, cs);
      InSlot(h, held, cs, bs, op.i);
      ghost var v := p.cords[op.i];
      var c := cords[op.i];
      var len := CordLen(arena, c);
      assert v[..|v|] == v && v[|v|..] == [] && v[..0] == [] && v[0..] == v;
      if op.n == len {
        if op.SplitOff? {
          cords := cords + [Inline([])];
          EmptyAdded(h, held, cs, bs);
          assert p.cords[op.i := v] == p.cords;
        } else {
          cords := cords[op.i := Inline([])] + [c];
          Moved(h, held, cs, bs, op.i);
        }
      } else if op.n == 0 {
        if op.SplitOff? {
          cords := cords[op.i := Inline([])] + [c];
          Moved(h, held, cs, bs, op.i);
        } else {
          cords := cords + [Inline([])];
          EmptyAdded(h, held, cs, bs);
          assert p.cords[op.i := v] == p.cords;
        }
      } else {
        SplitInside(op, c, len);
      }
    }

    method SplitInside(op: Op, c: Cord, len: nat)
      requires Valid() && Enabled(View(), op) && (op.SplitOff? || op.SplitTo?)
      requires c == cords[op.i] && len == |View().cords[op.i]| && 0 < op.n < len
      modifies this, arena
      ensures Valid() && Means(old(View()), op, View())
    {
      hide Inv, AllSettled, Bytes, Yields, Held, CordOk, Value, CordValues, BufferValues, CordsOk, BuffersOk, Means,
        PoolOk, PoolView;
      ghost var h, held, cs, bs := arena.cells, arena.held, cords, buffers;
      ghost var p := View();
      ViewFacts(h, held, cs, bs);
      InSlot(h, held, cs, bs, op.i);
      ghost var v := p.cords[op.i];
      var pos, n := if op.SplitOff? then op.n else 0, if op.SplitOff? then len - op.n else op.n;
      var piece := Subcord(arena, c, pos, n);
      ghost var part := v[pos..pos + n];
      CordAdded(h, held, cs, bs, arena.cells, arena.held, piece, part);
      cords := cords + [piece];
      ghost var h1, held1, cs1 := arena.cells, arena.held, cords;
      ViewFacts(h1, held1, cs1, bs);
      InSlot(h1, held1, cs1, bs, op.i);
      var r;
      if op.SplitOff? {
        r := CordEdits.Truncate(arena, c, op.n);
      } else {
        r := CordEdits.Advance(arena, c, op.n);
      }
      ghost var rest := if op.SplitOff? then v[..op.n] else v[op.n..];
      CordReplaced(h1, held1, cs1, bs, op.i, arena.cells, arena.held, r, rest);
      cords := cords[op.i := r];
      SplitMeans(p, op, part, rest);
    }

    /** Cord `i` has room for buffer `b` as a data edge. */
    ghost predicate Room(i: nat, b: nat)
      reads this, arena
    {
      && Shape(arena.cells) && i < |cords| && b < |buffers| && CordOk(arena.cells, cords[i])
      && BufferOk(buffers[b])
      && CordEdges(arena.cells, cords[i]) + BufferEdges(buffers[b]) <= Pow6(MAX_DEPTH)
    }

    /** Taking a buffer from a cord, and appending one. */
    method Take(op: Op) returns (ok: bool)
      requires Valid() && Enabled(View(), op) && op.TakeBuffer?
      modifies this, arena
      ensures ok <==> !old(UnsafeTake(arena.cells, cords, op))
      ensures ok ==> Valid() && Means(old(View()), op, View())
      ensures ok ==> |buffers| == |old(buffers)| + 1 && op.i < |cords| && Room(op.i, |buffers| - 1)
      ensures op.i < |old(cords)| && Shape(old(arena.cells)) && CordOk(old(arena.cells), old(cords)[op.i])
      ensures ok ==> Takes(old(arena.cells), old(cords)[op.i], op.room, buffers[|buffers| - 1])
    {
      hide Inv, AllSettled, Bytes, Held, CordAndBuffer, HasBuffer, SafeToTake, BackPath, CordValues, BufferValues,
        BuffersOk, Means, Value, CordEdges, BufferEdges;
      ghost var h, held, cs, bs := arena.cells, arena.held, cords, buffers;
      CordValuesAre(h, cs);
      InSlot(h, held, cs, bs, op.i);
      CordWithin(h, cs[op.i]);
      var c := cords[op.i];
      var r, b;
      r, b, ok := TakeAppendBuffer(arena, c, op.room, op.heap);
      cords := cords[op.i := r];
      buffers := buffers + [b];
      if ok {
        BufferTaken(h, held, cs, bs, op.i, op.room, op.heap, arena.cells, arena.held, r, b);
      }
    }

    method GiveBack(op: Op) returns (ok: bool)
      requires Valid() && Enabled(View(), op) && op.AppendBuffer?
      modifies this, arena
      ensures ok ==> Valid() && Means(old(View()), op, View())
      ensures ok <==> old(Room(op.i, op.b))
      ensures ok <==> old(Needed(op)) <= Pow6(MAX_DEPTH)
    {
      hide Inv, AllSettled, Bytes, Yields, Held, CordOk, BufferOk, Value, BufferValue, CordValues,
        BufferValues, CordsOk, BuffersOk, CordEdges, BufferEdges;
      ghost var h, held, cs, bs := arena.cells, arena.held, cords, buffers;
      CordValuesAre(h, cs);
      BufferValuesAre(bs);
      InSlot(h, held, cs, bs, op.i);
      InBoth(h, held, cs, bs, op.i, op.b);
      var r, aborted := CordEdits.AppendBuffer(arena, cords[op.i], buffers[op.b]);
      ok := !aborted;
      cords := cords[op.i := r];
      buffers := buffers[op.b := Loose([], false)];
      if ok {
        BufferUsed(h, held, cs, bs, op.i, op.b, arena.cells, arena.held, r,
                   Value(h, cs[op.i]) + BufferValue(bs[op.b]));
      }
    }

    /**
    Takes a buffer from cord `i` and appends it again: the cord, and every other one, holds what it
    held, unless a node would be freed that another cord still uses. There is always room for it.
    */
    method TakeAndGiveBack(i: nat, room: nat, heap: bool) returns (ok: bool)
      requires Valid() && i < |cords|
      modifies this, arena
      ensures ok <==> !old(UnsafeTake(arena.cells, cords, TakeBuffer(i, room, heap)))
      ensures ok ==> Valid() && View().cords == old(View().cords) && View().buffers == old(View().buffers) + [[]]
    {
      hide PoolOk, PoolView, Means, UnsafeTake, Room, Inv, Enabled;
      ghost var p := View();
      ViewSizes(arena.cells, arena.held, cords, buffers);
      Allowed(p, i, room, heap);
      ok := Take(TakeBuffer(i, room, heap));
      if ok {
        ghost var p1 := View();
        ViewSizes(arena.cells, arena.held, cords, buffers);
        AllowedBack(p1, i, |buffers| - 1);
        ok := GiveBack(AppendBuffer(i, |buffers| - 1));
        TakenAndAppended(p, i, room, heap, p1, View());
      }
    }

    /**
    Performs one operation. It stops the run exactly if the cord that it makes would have more than
    6^12 data edges, or if a buffer is taken from a tree that shares a node which folding it frees;
    only where a short cord is copied into spare room, the number of edges is an upper bound.
    */
    method Apply(op: Op) returns (ok: bool)
      requires Valid()
      modifies this, arena
      ensures ok ==> Valid() && Means(old(View()), op, View())
      ensures !ok ==> old(Stops(Now(), op))
      ensures ok ==> !old(Stops(Now(), op)) || CopiesShort(old(View()), op)
      ensures ok && op.TakeBuffer? && op.i < |old(cords)| ==>
        && buffers != [] && Shape(old(arena.cells)) && CordOk(old(arena.cells), old(cords)[op.i])
        && Takes(old(arena.cells), old(cords)[op.i], op.room, buffers[|buffers| - 1])
    {
      hide PoolOk, PoolView, Means, UnsafeTake, OpEdges, Enabled, Takes, CordOk;
      ok := true;
      OpSorts(arena.cells, arena.held, cords, buffers, op);
      ViewSizes(arena.cells, arena.held, cords, buffers);
      Bounds(View(), op);
      var enabled := IsEnabled(op);
      if !enabled {
        NoChange(View(), op);
      } else if ChangesOne(op) {
        ok := Change(op);
      } else if AddsOne(op) {
        ok := Make(op);
      } else if op.SplitOff? || op.SplitTo? {
        Split(op);
      } else if op.TakeBuffer? {
        ok := Take(op);
      } else {
        ok := GiveBack(op);
      }
    }

    /** The bounds checks. */
    method IsEnabled(op: Op) returns (r: bool)
      requires Valid()
      ensures r == Enabled(View(), op)
    {
      hide Inv, AllSettled, Bytes;
      CordValuesAre(arena.cells, cords);
      BufferValuesAre(buffers);
      r := op.New? || op.Static? || op.i < |cords|;
      if r {
        match op {
          case AppendCord(i, j) => r := j < |cords| && j != i;
          case PrependCord(i, j) => r := j < |cords| && j != i;
          case Advance(i, n) =>
            var len := CordLen(arena, cords[i]);
            r := n <= len;
          case Slice(i, pos, n) =>
            var len := CordLen(arena, cords[i]);
            r := pos + n <= len;
          case SplitOff(i, n) =>
            var len := CordLen(arena, cords[i]);
            r := n <= len;
          case SplitTo(i, n) =>
            var len := CordLen(arena, cords[i]);
            r := n <= len;
          case AppendBuffer(i, b) => r := b < |buffers|;
          case _ =>
        }
      }
    }

    /**
    Performs `ops` in order, up to the first one that stops the run. The states passed through are
    those of the same operations on plain sequences. If the run stops, the reason is `Stops` at the
    moment `last` at which it stopped.
    */
    method Run(ops: seq<Op>) returns (done: nat, ghost trace: seq<Plain>, ghost last: Moment)
      requires Valid()
      modifies this, arena
      ensures done <= |ops| && |trace| == done + 1 && trace[0] == old(View())
      ensures forall k :: 0 <= k < done ==> Means(trace[k], ops[k], trace[k + 1])
      ensures PoolOk(last.h, last.held, last.cords, last.buffers)
      ensures trace[done] == PoolView(last.h, last.held, last.cords, last.buffers)
      ensures done == |ops| ==> Valid() && last == Now()
      ensures done < |ops| ==> Stops(last, ops[done])
    {
      hide PoolOk, PoolView, Means, UnsafeTake, Stops;
      done, trace, last := 0, [View()], Now();
      var ok := true;
      while done < |ops| && ok
        invariant 0 <= done <= |ops| && |trace| == done + 1 && trace[0] == old(View())
        invariant forall k :: 0 <= k < done ==> Means(trace[k], ops[k], trace[k + 1])
        invariant PoolOk(last.h, last.held, last.cords, last.buffers)
        invariant trace[done] == PoolView(last.h, last.held, last.cords, last.buffers)
        invariant ok ==> Valid() && last == Now()
        invariant !ok ==> done < |ops| && Stops(last, ops[done])
        decreases |ops| - done, ok
      {
        ok := Apply(ops[done]);
        if ok {
          trace := trace + [View()];
          last := Now();
          done := done + 1;
        }
      }
    }
  }

  /** Which operations can stop for which reason. */
  lemma OpSorts(h: Heap, held: multiset<Id>, cords: seq<Cord>, buffers: seq<Buffer>, op: Op)
    requires PoolOk(h, held, cords, buffers)
    ensures Shape(h) && CordsOk(h, cords) && BuffersOk(buffers)
    ensures ChangesOne(op) && (op.Clear? || op.Advance? || op.Truncate?) ==>
      OpEdges(h, cords, buffers, op) <= Pow6(MAX_DEPTH)
    ensures op.SplitOff? || op.SplitTo? || op.TakeBuffer? ==> OpEdges(h, cords, buffers, op) <= Pow6(MAX_DEPTH)
    ensures !op.TakeBuffer? ==> !UnsafeTake(h, cords, op)
  {
    hide Inv, AllSettled;
    Pow6Positive(MAX_DEPTH);
  }

  /**
  An operation is within its bounds exactly if its cords and its buffer are there, two cords are not
  the same, and the cord holds as many bytes as are to be cut off or out.
  */
  lemma Bounds(p: Plain, op: Op)
    ensures op.New? || op.Static? ==> Enabled(p, op)
    ensures op.Clone? || op.Clear? || op.Append? || op.Prepend? || op.Truncate? || op.TakeBuffer? ==>
      (Enabled(p, op) <==> op.i < |p.cords|)
    ensures op.AppendCord? || op.PrependCord? ==>
      (Enabled(p, op) <==> op.i < |p.cords| && op.j < |p.cords| && op.i != op.j)
    ensures op.AppendBuffer? ==> (Enabled(p, op) <==> op.i < |p.cords| && op.b < |p.buffers|)
    ensures op.Advance? || op.SplitOff? || op.SplitTo? ==>
      (Enabled(p, op) <==> op.i < |p.cords| && exists v, w :: p.cords[op.i] == v + w && |v| == op.n)
    ensures op.Slice? ==>
      (Enabled(p, op) <==>
        op.i < |p.cords| && exists u, v, w :: p.cords[op.i] == u + v + w && |u| == op.pos && |v| == op.n)
  {
    if Enabled(p, op) && (op.Advance? || op.SplitOff? || op.SplitTo?) {
      assert p.cords[op.i] == p.cords[op.i][..op.n] + p.cords[op.i][op.n..];
    }
    if Enabled(p, op) && op.Slice? {
      var c := p.cords[op.i];
      assert c == c[..op.pos] + c[op.pos..op.pos + op.n] + c[op.pos + op.n..];
    }
  }

  lemma ChangeMeans(p: Plain, op: Op)
    requires Enabled(p, op) && ChangesOne(op)
    ensures Means(p, op, Put(p, op.i, Changed(p, op)))
  {
  }

  lemma Allowed(p: Plain, i: nat, room: nat, heap: bool)
    requires i < |p.cords|
    ensures Enabled(p, TakeBuffer(i, room, heap))
  {
  }

  lemma AllowedBack(p: Plain, i: nat, b: nat)
    requires i < |p.cords| && b < |p.buffers|
    ensures Enabled(p, AppendBuffer(i, b))
  {
  }

  lemma ViewSizes(h: Heap, held: multiset<Id>, cords: seq<Cord>, buffers: seq<Buffer>)
    requires PoolOk(h, held, cords, buffers)
    ensures |PoolView(h, held, cords, buffers).cords| == |cords|
    ensures |PoolView(h, held, cords, buffers).buffers| == |buffers|
  {
    hide Inv, AllSettled, Value, BufferValue;
  }

  /** A buffer that was taken and appended again. */
  lemma TakenAndAppended(p: Plain, i: nat, room: nat, heap: bool, p1: Plain, p2: Plain)
    requires i < |p.cords| && Means(p, TakeBuffer(i, room, heap), p1) && Means(p1, AppendBuffer(i, |p.buffers|), p2)
    ensures p2.cords == p.cords && p2.buffers == p.buffers + [[]]
  {
    var k: nat :| k <= |p.cords[i]| && p1 == Taking(p, i, k);
    PutTwice(p.cords, i, k);
    LastEmptied(p.buffers, p.cords[i][k..]);
  }

  lemma PutTwice(cords: seq<seq<byte>>, i: nat, k: nat)
    requires i < |cords| && k <= |cords[i]|
    ensures cords[i := cords[i][..k]][i := cords[i][..k] + cords[i][k..]] == cords
  {
    assert cords[i][..k] + cords[i][k..] == cords[i];
  }

  lemma LastEmptied(buffers: seq<seq<byte>>, b: seq<byte>)
    ensures (buffers + [b])[|buffers| := []] == buffers + [[]]
  {
  }

  lemma ViewFacts(h: Heap, held: multiset<Id>, cords: seq<Cord>, buffers: seq<Buffer>)
    requires PoolOk(h, held, cords, buffers)
    ensures Inv(h, held) && Shape(h) && AllSettled(h, {}) && CordsOk(h, cords)
    ensures PoolView(h, held, cords, buffers).cords == CordValues(h, cords) && |CordValues(h, cords)| == |cords|
  {
    hide Inv, AllSettled, CordsOk, BuffersOk, Value;
  }

  /** A piece added and cut off. */
  lemma SplitMeans(p: Plain, op: Op, part: seq<byte>, rest: seq<byte>)
    requires Enabled(p, op) && (op.SplitOff? || op.SplitTo?)
    requires
      var v := p.cords[op.i];
      var pos, n := if op.SplitOff? then op.n else 0, if op.SplitOff? then |v| - op.n else op.n;
      part == v[pos..pos + n] && rest == if op.SplitOff? then v[..op.n] else v[op.n..]
    ensures Means(p, op, Put(Add(p, part), op.i, rest))
  {
    assert (p.cords + [part])[op.i := rest] == p.cords[op.i := rest] + [part];
    var v := p.cords[op.i];
    assert v[op.n..op.n + (|v| - op.n)] == v[op.n..] && v[0..0 + op.n] == v[..op.n];
  }

  /** The length of a cord. */
  method CordLen(a: Arena, c: Cord) returns (n: nat)
    requires a.Ok() && AllSettled(a.cells, {}) && Shape(a.cells) && CordOk(a.cells, c)
    ensures n == |Value(a.cells, c)|
  {
    hide Inv, AllSettled, Bytes;
    if c.Tree? {
      LenIsBytes(a.cells, c.root);
      n := a.cells[c.root].rep.Len();
    } else {
      n := |c.bytes|;
    }
  }

  lemma NoChange(p: Plain, op: Op)
    requires !Enabled(p, op)
    ensures Means(p, op, p)
  {
  }

  lemma EmptyCord(h: Heap, held: multiset<Id>)
    requires Shape(h)
    ensures CordOk(h, Inline([])) && Value(h, Inline([])) == [] && Held(Inline([])) <= held
    ensures held - Held(Inline([])) == held
    ensures Held(Inline([])) == multiset{}
  {
  }

  lemma EmptyAdded(h: Heap, held: multiset<Id>, cords: seq<Cord>, buffers: seq<Buffer>)
    requires PoolOk(h, held, cords, buffers)
    ensures PoolOk(h, held, cords + [Inline([])], buffers)
    ensures PoolView(h, held, cords + [Inline([])], buffers) == Add(PoolView(h, held, cords, buffers), [])
  {
    hide Inv, AllSettled, Bytes, Others;
    EmptyCord(h, held);
    Untouched(h, held, Inline([]));
    CordAdded(h, held, cords, buffers, h, held, Inline([]), []);
  }

  /** The cord has moved to a new slot. */
  lemma Moved(h: Heap, held: multiset<Id>, cords: seq<Cord>, buffers: seq<Buffer>, i: nat)
    requires PoolOk(h, held, cords, buffers) && i < |cords|
    ensures PoolOk(h, held, cords[i := Inline([])] + [cords[i]], buffers)
    ensures
      var p := PoolView(h, held, cords, buffers);
      PoolView(h, held, cords[i := Inline([])] + [cords[i]], buffers) == Add(Put(p, i, []), p.cords[i])
  {
    hide Inv, AllSettled, Bytes, Others, Held, CordOk, Value, CordValues, BufferValues, BuffersOk;
    EmptyCord(h, held);
    var without, moved := cords[i := Inline([])], cords[i := Inline([])] + [cords[i]];
    CordBagAt(cords, i);
    CordBagAdd(without, cords[i]);
    MovedBag(CordBag(cords), Held(cords[i]));
    forall j | 0 <= j < |moved| ensures CordOk(h, moved[j]) {
      assert moved[j] == if j == |cords| then cords[i] else if j == i then Inline([]) else cords[j];
    }
    CordValuesAre(h, cords);
    CordValuesAre(h, moved);
    MovedValues(h, cords, i, moved);
  }

  lemma MovedValues(h: Heap, cords: seq<Cord>, i: nat, moved: seq<Cord>)
    requires Shape(h) && CordsOk(h, cords) && CordsOk(h, moved) && i < |cords|
    requires moved == cords[i := Inline([])] + [cords[i]]
    ensures CordValues(h, moved) == CordValues(h, cords)[i := []] + [CordValues(h, cords)[i]]
  {
    hide CordValues, Bytes, CordOk, Value;
    EmptyCord(h, multiset{});
    CordValuesAre(h, cords);
    CordValuesAre(h, moved);
    forall j | 0 <= j < |moved|
      ensures CordValues(h, moved)[j] == (CordValues(h, cords)[i := []] + [CordValues(h, cords)[i]])[j]
    {
      assert moved[j] == if j == |cords| then cords[i] else if j == i then Inline([]) else cords[j];
    }
  }

  lemma MovedBag(a: multiset<Id>, x: multiset<Id>)
    requires x <= a
    ensures a - x + multiset{} + x == a
  {
  }

  lemma InBoth(h: Heap, held: multiset<Id>, cords: seq<Cord>, buffers: seq<Buffer>, i: nat, b: nat)
    requires PoolOk(h, held, cords, buffers) && i < |cords| && b < |buffers|
    ensures Held(cords[i]) <= held && BufferOk(buffers[b])
  {
    hide Inv, AllSettled, Held, BufferOk;
    CordBagAt(cords, i);
  }

  lemma InSlot(h: Heap, held: multiset<Id>, cords: seq<Cord>, buffers: seq<Buffer>, i: nat)
    requires PoolOk(h, held, cords, buffers) && i < |cords|
    ensures Held(cords[i]) <= held && CordOk(h, cords[i]) && CordValues(h, cords)[i] == Value(h, cords[i])
  {
    hide Inv, AllSettled, Value, Held, CordOk;
    CordBagAt(cords, i);
  }

  lemma InSlots(h: Heap, held: multiset<Id>, cords: seq<Cord>, buffers: seq<Buffer>, i: nat, j: nat)
    requires PoolOk(h, held, cords, buffers) && i < |cords| && j < |cords| && i != j
    ensures Held(cords[i]) + Held(cords[j]) <= held && CordOk(h, cords[j])
    ensures CordValues(h, cords)[j] == Value(h, cords[j])
  {
    hide Inv, AllSettled, Value, Held, CordOk;
    CordBagTwo(cords, i, j);
  }
}
