/**
Double-ended iteration over the bytes of a cord (iter.rs): a double-ended queue.
*/
module ByteIters {
  import Cells = Heap
  import opened Substrings
  import opened ChunkLists
  import opened CordIters

  /** Iterates the bytes from both ends, pulling chunks as needed. */
  class Bytes {
    const chunks: Chunks
    var current: seq<Cells.byte>
    var backCurrent: seq<Cells.byte>
    ghost var Repr: set<object>

    ghost predicate Valid()
      reads this, Repr
    {
      this in Repr && chunks in Repr && chunks.Repr <= Repr && this !in chunks.Repr && chunks.Valid()
    }

    /** The bytes still to come: a double-ended queue. */
    ghost function Deque(): seq<Cells.byte>
      requires Valid()
      reads this, Repr
    {
      current + chunks.Rest() + backCurrent
    }

    constructor (h: Cells.Heap, tree: Option<Cells.Id>, single: seq<Cells.byte>)
      requires tree.Some? ==> IsTree(h, tree.value)
      ensures Valid() && fresh(Repr) && Deque() == if tree.Some? then Cells.Bytes(h, tree.value) else single
    {
      hide Flatten, Start, Exactly, Stands, Listed, FrontAt, BackIs, IsTree, Cells.Bytes;
      chunks := new Chunks(h, tree, single);
      current, backCurrent := [], [];
      new;
      Repr := {this} + chunks.Repr;
      ghost var total := chunks.Rest();
      var chunk := chunks.Next();
      if chunk.Some? {
        current := chunk.value;
      }
      FirstPulled(total, current, chunks.Rest());
    }

    /** Whether bytes are left, and which comes first or last. */
    method Next() returns (b: Option<Cells.byte>)
      requires Valid()
      modifies Repr
      ensures Valid() && fresh(Repr - old(Repr))
      ensures b == (if old(Deque()) == [] then None else Some(old(Deque())[0]))
      ensures Deque() == if old(Deque()) == [] then [] else old(Deque())[1..]
    {
      hide Chunks.Valid, Chunks.Rest;
      if current != [] {
        b := Some(current[0]);
        current := current[1..];
      } else {
        var chunk := chunks.Next();
        if chunk.Some? {
          b := Some(chunk.value[0]);
          current := chunk.value[1..];
        } else if backCurrent != [] {
          b := Some(backCurrent[0]);
          backCurrent := backCurrent[1..];
        } else {
          b := None;
        }
      }
    }

    method NextBack() returns (b: Option<Cells.byte>)
      requires Valid()
      modifies Repr
      ensures Valid() && fresh(Repr - old(Repr))
      ensures b == (if old(Deque()) == [] then None else Some(old(Deque())[|old(Deque())| - 1]))
      ensures Deque() == if old(Deque()) == [] then [] else old(Deque())[..|old(Deque())| - 1]
    {
      hide Chunks.Valid, Chunks.Rest;
      ghost var rest := chunks.Rest();
      SplitLast(current, rest, backCurrent);
      if backCurrent != [] {
        b := Some(backCurrent[|backCurrent| - 1]);
        backCurrent := backCurrent[..|backCurrent| - 1];
      } else {
        var chunk := chunks.NextBack();
        Repr := Repr + chunks.Repr;
        if chunk.Some? {
          b := Some(chunk.value[|chunk.value| - 1]);
          backCurrent := chunk.value[..|chunk.value| - 1];
          SplitLast(chunks.Rest(), chunk.value, []);
          assert rest == chunks.Rest() + chunk.value + [];
          assert current + (chunks.Rest() + backCurrent) == current + chunks.Rest() + backCurrent;
        } else if current != [] {
          b := Some(current[|current| - 1]);
          current := current[..|current| - 1];
        } else {
          b := None;
        }
      }
    }

    /** Skips `n` bytes and yields the one after them. */
    method Nth(n: nat) returns (b: Option<Cells.byte>)
      requires Valid()
      modifies Repr
      ensures Valid() && fresh(Repr - old(Repr))
      ensures b == (if n < |old(Deque())| then Some(old(Deque())[n]) else None)
      ensures Deque() == if n < |old(Deque())| then old(Deque())[n + 1..] else []
    {
      hide Chunks.Valid, Chunks.Rest;
      Split(current, chunks.Rest(), backCurrent, n);
      chunks.RestLen();
      if n < |current| {
        b := Some(current[n]);
        current := current[n + 1..];
      } else {
        var skip := n - |current|;
        current := [];
        if skip < chunks.remaining {
          b := NthInChunks(skip);
        } else {
          skip := skip - chunks.remaining;
          if chunks.remaining != 0 {
            chunks.AdvanceBytes(chunks.remaining);
          }
          if skip >= |backCurrent| {
            backCurrent := [];
            b := None;
          } else {
            b := Some(backCurrent[skip]);
            backCurrent := backCurrent[skip + 1..];
          }
        }
      }
    }

    /** The byte `n` positions behind, which lies in a chunk not yet pulled. */
    method NthInChunks(n: nat) returns (b: Option<Cells.byte>)
      requires Valid() && current == [] && n < chunks.remaining
      modifies Repr
      ensures Valid() && fresh(Repr - old(Repr)) && backCurrent == old(backCurrent) && n < |old(chunks.Rest())|
      ensures b == Some(old(chunks.Rest())[n]) && current + chunks.Rest() == old(chunks.Rest())[n + 1..]
    {
      hide Chunks.Valid, Chunks.Rest;
      chunks.RestLen();
      ghost var rest := chunks.Rest();
      chunks.AdvanceBytes(n);
      assert chunks.Rest() == rest[n..];
      var chunk := chunks.Next();
      assert rest[n..] == chunk.value + chunks.Rest();
      b := Some(chunk.value[0]);
      current := chunk.value[1..];
      assert rest[n + 1..] == rest[n..][1..];
    }
  }

  /** What is at position `n` of a queue in three parts, and behind it. */
  lemma Split(a: seq<Cells.byte>, b: seq<Cells.byte>, c: seq<Cells.byte>, n: nat)
    ensures var k := n - |a|;
            0 <= k < |b| ==> (a + b + c)[n] == b[k] && (a + b + c)[n + 1..] == b[k + 1..] + c
    ensures var k := n - |a| - |b|;
            0 <= k < |c| ==> (a + b + c)[n] == c[k] && (a + b + c)[n + 1..] == c[k + 1..]
    ensures n < |a| ==> (a + b + c)[n] == a[n] && (a + b + c)[n + 1..] == a[n + 1..] + b + c
  {
  }

  /** The last of a queue in three parts, and what is before it. */
  lemma SplitLast(a: seq<Cells.byte>, b: seq<Cells.byte>, c: seq<Cells.byte>)
    ensures var all := a + b + c;
            c != [] ==> all[|all| - 1] == c[|c| - 1] && all[..|all| - 1] == a + b + c[..|c| - 1]
    ensures var all := a + b + c;
            c == [] && b != [] ==> all[|all| - 1] == b[|b| - 1] && all[..|all| - 1] == a + b[..|b| - 1]
    ensures c == [] && b == [] ==> a + b + c == a
  {
  }

  lemma FirstPulled(total: seq<Cells.byte>, chunk: seq<Cells.byte>, rest: seq<Cells.byte>)
    requires total == chunk + rest
    ensures chunk + rest + [] == total
  {
  }

  /** What `k + 1` calls of `Next` leave of a queue. */
  ghost function Popped(deque: seq<Cells.byte>, k: nat): seq<Cells.byte> {
    var rest := if deque == [] then [] else deque[1..];
    if k == 0 then rest else Popped(rest, k - 1)
  }

  /** What the last of `k + 1` calls of `Next` yields. */
  ghost function Yielded(deque: seq<Cells.byte>, k: nat): Option<Cells.byte> {
    if k > 0 then Yielded(if deque == [] then [] else deque[1..], k - 1)
    else if deque == [] then None else Some(deque[0])
  }

  /** `Nth(k)` is `k + 1` calls of `Next`: the same byte, and the same bytes left. */
  lemma {:induction false} NthIsNexts(deque: seq<Cells.byte>, k: nat)
    ensures Popped(deque, k) == if k < |deque| then deque[k + 1..] else []
    ensures Yielded(deque, k) == if k < |deque| then Some(deque[k]) else None
    decreases k
  {
    if k > 0 {
      NthIsNexts(if deque == [] then [] else deque[1..], k - 1);
    }
  }
}
