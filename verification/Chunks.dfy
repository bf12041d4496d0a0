/**
A forward position over the chunks of a cord, as searching, comparing and hashing use it (iter.rs).

The reader of a btree is represented by what it stands for: a place in the list of the tree's
chunks (`Readers.Reader` refines that place; `CordIters.Chunks` holds readers).
*/
module ChunkIters {
  import opened Heap
  import opened Substrings
  import opened ChunkLists

  /** Iterates the chunks of `all`. */
  class ForwardChunks {
    const all: seq<seq<byte>>
    /** The data edge of the front chunk, and what is left of it. */
    var at: nat
    var current: seq<byte>
    var remaining: nat
    /** The bytes not yet yielded, as a range of all bytes. */
    ghost var lo: nat
    ghost var hi: nat

    ghost predicate Valid()
      reads this
    {
      && NonEmpty(all) && lo <= hi <= |Flatten(all)| && remaining == hi - lo
      && (remaining == 0 ==> current == [])
      && (remaining > 0 ==> FrontOk())
      && hi == |Flatten(all)|
    }

    ghost predicate FrontOk()
      reads this
    {
      && at < |all| && Start(all, at) <= lo && lo - Start(all, at) < |all[at]|
      && current == all[at][lo - Start(all, at)..]
    }

    /** The bytes still to come. */
    ghost function Rest(): seq<byte>
      requires lo <= hi <= |Flatten(all)|
      reads this
    {
      Flatten(all)[lo..hi]
    }

    constructor (chunks: seq<seq<byte>>)
      requires NonEmpty(chunks)
      ensures Valid() && all == chunks && lo == 0 && Rest() == Flatten(chunks)
    {
      all := chunks;
      at := 0;
      current := if chunks == [] then [] else chunks[0];
      remaining := Length(chunks);
      lo := 0;
      hi := |Flatten(chunks)|;
      StartEnds(chunks);
      if chunks != [] {
        ChunkAt(chunks, 0);
      }
    }

    /** The front chunk is what follows. */
    lemma FrontChunk()
      requires Valid() && remaining > 0
      ensures lo + |current| == Start(all, at + 1) <= |Flatten(all)| && current != []
      ensures Flatten(all)[lo..lo + |current|] == current
    {
      ChunkAt(all, at);
    }

    /** The next chunk from the front. */
    method Next() returns (chunk: Option<seq<byte>>)
      requires Valid()
      modifies this
      ensures Valid() && chunk.Some? == (old(Rest()) != [])
      ensures chunk.Some? ==> chunk.value != [] && old(Rest()) == chunk.value + Rest()
      ensures chunk.Some? ==> chunk.value == old(current)
      ensures chunk.None? ==> Rest() == []
    {
      hide Flatten, Start;
      if remaining == 0 {
        chunk := None;
      } else {
        FrontChunk();
        var n := if |current| < remaining then |current| else remaining;
        ghost var total, i, j := Flatten(all), lo, hi;
        var piece := current[..n];
        TakeFront(total, i, j, current, n);
        assert total[i..j] == piece + total[i + n..j] && piece != [];
        StepFront(n);
        assert Rest() == total[i + n..j];
        chunk := Some(piece);
      }
    }

    /** Moves the front past `n` bytes: the front chunk, or all that is left of it. */
    method StepFront(n: nat)
      requires Valid() && remaining > 0 && n == (if |current| < remaining then |current| else remaining)
      modifies this
      ensures Valid() && lo == old(lo) + n && hi == old(hi) && remaining == old(remaining) - n
    {
      hide Flatten, Start;
      FrontChunk();
      remaining := remaining - n;
      lo := lo + n;
      if remaining == 0 {
        current := [];
      } else {
        StartEnds(all);
        assert at + 1 < |all|;
        at := at + 1;
        current := all[at];
      }
    }

    /** Moves past the front chunk. */
    method Step()
      requires Valid() && 0 < remaining && |current| <= remaining
      modifies this
      ensures Valid() && old(Rest()) == old(current) + Rest() && remaining == old(remaining) - |old(current)|
      ensures old(current) != []
    {
      hide Flatten, Start;
      FrontChunk();
      ghost var total, i, j := Flatten(all), lo, hi;
      TakeFront(total, i, j, current, |current|);
      assert current[..|current|] == current;
      StepFront(|current|);
    }

    /** Skips `n` bytes. */
    method AdvanceBytes(n: nat)
      requires Valid() && n <= remaining
      modifies this
      ensures Valid() && lo == old(lo) + n && hi == old(hi)
      ensures Rest() == old(Rest())[n..]
    {
      hide Flatten, Start;
      if n < |current| {
        current := current[n..];
        remaining := remaining - n;
        lo := lo + n;
        if remaining == 0 {
          current := [];
        }
      } else if n != 0 {
        AdvanceForward(n);
      }
    }

    /** Skips beyond the front chunk: to the next one, or by seeking. */
    method AdvanceForward(n: nat)
      requires Valid() && |current| <= n <= remaining && n != 0
      modifies this
      ensures Valid() && lo == old(lo) + n && hi == old(hi)
    {
      hide Flatten;
      FrontChunk();
      StartEnds(all);
      remaining := remaining - n;
      lo := lo + n;
      if remaining == 0 {
        current := [];
      } else {
        var offset := Length(all) - remaining;
        at := Seek(all, offset);
        current := all[at][offset - StartOf(all, at)..];
      }
    }
  }

  /**
  The next `n` bytes, gathered from as many chunks as they lie in. Without `maintain` the position
  is left behind the last whole chunk and must not be used again.
  */
  method GatherInline(it: ForwardChunks, n: nat, maintain: bool) returns (out: seq<byte>)
    requires it.Valid() && n <= it.remaining
    modifies it
    ensures out == old(it.Rest())[..n]
    ensures maintain ==> it.Valid() && it.Rest() == old(it.Rest())[n..]
  {
    hide Flatten, Start;
    ghost var all := it.Rest();
    out := [];
    var left: nat := n;
    while left > |it.current|
      invariant it.Valid() && left <= it.remaining
      invariant |out| + left == n && out + it.Rest() == all
      decreases left
    {
      var chunk := it.current;
      ghost var was := it.Rest();
      it.Step();
      Absorbed(all, out, chunk, it.Rest(), was);
      out := out + chunk;
      left := left - |chunk|;
    }
    ghost var rest := it.Rest();
    var last := GatherLast(it, left, maintain);
    Gathered(all, out, rest, last, n);
    out := out + last;
  }

  /** The first `n` bytes of the front chunk. */
  method GatherLast(it: ForwardChunks, n: nat, maintain: bool) returns (out: seq<byte>)
    requires it.Valid() && n <= it.remaining && n <= |it.current|
    modifies it
    ensures out == old(it.Rest())[..n] && |out| == n
    ensures maintain ==> it.Valid() && it.Rest() == old(it.Rest())[n..]
  {
    hide Flatten, Start;
    out := [];
    if n != 0 {
      it.FrontChunk();
      TakeFront(Flatten(it.all), it.lo, it.hi, it.current, n);
      out := it.current[..n];
      if maintain {
        it.AdvanceBytes(n);
      }
    }
  }

  lemma Absorbed(all: seq<byte>, out: seq<byte>, chunk: seq<byte>, rest: seq<byte>, was: seq<byte>)
    requires out + was == all && was == chunk + rest
    ensures out + chunk + rest == all
  {
  }

  lemma Gathered(all: seq<byte>, out: seq<byte>, rest: seq<byte>, last: seq<byte>, n: nat)
    requires out + rest == all && |out| + |last| == n <= |all| && last == rest[..|last|]
    ensures out + last == all[..n] && rest[|last|..] == all[n..]
  {
  }

  function StartOf(chunks: seq<seq<byte>>, i: nat): (n: nat)
    requires i <= |chunks|
    ensures n == Start(chunks, i)
  {
    Length(chunks[..i])
  }

  /** The chunk that holds byte `offset`. */
  method Seek(chunks: seq<seq<byte>>, offset: nat) returns (at: nat)
    requires offset < |Flatten(chunks)|
    ensures at < |chunks| && Start(chunks, at) <= offset < Start(chunks, at) + |chunks[at]|
  {
    hide Flatten, Start;
    StartEnds(chunks);
    at := 0;
    var start := 0;
    while true
      invariant at < |chunks| && start == Start(chunks, at) <= offset
      decreases |chunks| - at
    {
      ChunkAt(chunks, at);
      if offset < start + |chunks[at]| {
        return;
      }
      start := start + |chunks[at]|;
      at := at + 1;
    }
  }

  function Length(chunks: seq<seq<byte>>): (n: nat)
    ensures n == |Flatten(chunks)|
  {
    if chunks == [] then 0 else |chunks[0]| + Length(chunks[1..])
  }
}
