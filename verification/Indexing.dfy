/**
The searches of a node for the edge at a byte position (rep/btree.rs). Positions are slot indices;
what they mean is said by the stored lengths of the edges before them.
*/
module Indexing {
  import opened Heap
  import opened Nodes

  /** A node whose stored length is that of its edges. */
  ghost predicate IsSettledNode(h: Heap, node: Rep) {
    IsNode(node) && AllEdges(h, node.height, node.Out()) && node.length == SumLen(h, node.Out())
  }

  /** The stored length of the edges in the slots `[from, to)`. */
  ghost function Span(h: Heap, node: Rep, from: nat, to: nat): nat
    requires IsNode(node) && from <= to <= |node.slots|
  {
    SumLen(h, node.slots[from..to])
  }

  lemma SpanSplit(h: Heap, node: Rep, from: nat, mid: nat, to: nat)
    requires IsNode(node) && from <= mid <= to <= |node.slots|
    ensures Span(h, node, from, to) == Span(h, node, from, mid) + Span(h, node, mid, to)
  {
    assert node.slots[from..to] == node.slots[from..mid] + node.slots[mid..to];
    SumLenAppend(h, node.slots[from..mid], node.slots[mid..to]);
  }

  lemma SpanOne(h: Heap, node: Rep, i: nat)
    requires IsNode(node) && AllEdges(h, node.height, node.Out()) && node.begin <= i < node.end
    ensures node.slots[i] in node.Out() && IsEdge(h, node.height, node.slots[i])
    ensures Span(h, node, i, i + 1) == h[node.slots[i]].rep.Len()
  {
    assert node.slots[i] == node.Out()[i - node.begin];
    assert node.slots[i..i + 1] == [node.slots[i]];
    assert IsEdge(h, node.height, node.slots[i]);
    assert SumLen(h, [node.slots[i]]) == h[node.slots[i]].rep.Len() + SumLen(h, []);
  }

  lemma SpanStep(h: Heap, node: Rep, from: nat, i: nat)
    requires IsNode(node) && AllEdges(h, node.height, node.Out()) && node.begin <= from <= i < node.end
    ensures node.slots[i] in h && Span(h, node, from, i + 1) == Span(h, node, from, i) + h[node.slots[i]].rep.Len()
    ensures Span(h, node, i, node.end) == h[node.slots[i]].rep.Len() + Span(h, node, i + 1, node.end)
  {
    SpanSplit(h, node, from, i, i + 1);
    SpanSplit(h, node, i, i + 1, node.end);
    SpanOne(h, node, i);
  }

  lemma SpanNone(h: Heap, node: Rep, i: nat)
    requires IsNode(node) && i <= |node.slots|
    ensures Span(h, node, i, i) == 0
  {
  }

  /** The last edge starting at or before `offset`, and the offset within it. */
  method IndexOf(h: Heap, node: Rep, offset: nat) returns (index: nat, n: nat)
    requires IsSettledNode(h, node) && offset < node.length
    ensures node.begin <= index < node.end && node.slots[index] in h
    ensures Span(h, node, node.begin, index) + n == offset && n < h[node.slots[index]].rep.Len()
  {
    hide AllEdges, Span;
    index, n := node.begin, offset;
    SpanNone(h, node, node.begin);
    SpanWhole(h, node, node.begin);
    if index < node.end {
      SpanStep(h, node, node.begin, index);
    }
    while n >= h[node.slots[index]].rep.Len()
      invariant node.begin <= index < node.end && node.slots[index] in h
      invariant Span(h, node, node.begin, index) + n == offset
      decreases node.end - index
    {
      SpanStep(h, node, node.begin, index);
      n := n - h[node.slots[index]].rep.Len();
      index := index + 1;
      SpanWhole(h, node, index);
      if index < node.end {
        SpanStep(h, node, node.begin, index);
      }
    }
  }

  lemma SpanWhole(h: Heap, node: Rep, i: nat)
    requires IsNode(node) && node.begin <= i <= node.end
    ensures Span(h, node, node.begin, i) + Span(h, node, i, node.end) == SumLen(h, node.Out())
    ensures i == node.end ==> Span(h, node, i, node.end) == 0
  {
    SpanSplit(h, node, node.begin, i, node.end);
    assert node.slots[node.begin..node.end] == node.Out();
  }

  /** The edge in which `offset` bytes from position (`index0`, `n0`) end. */
  method IndexBeforeFrom(h: Heap, node: Rep, index0: nat, n0: nat, offset: nat) returns (index: nat, n: nat)
    requires IsSettledNode(h, node) && node.begin <= index0 < node.end
    requires 0 < n0 + offset <= Span(h, node, index0, node.end)
    ensures index0 <= index < node.end && node.slots[index] in h
    ensures Span(h, node, index0, index) + n == n0 + offset && 0 < n <= h[node.slots[index]].rep.Len()
  {
    hide AllEdges, Span;
    index, n := index0, n0 + offset;
    SpanNone(h, node, index0);
    SpanStep(h, node, index0, index);
    while n > h[node.slots[index]].rep.Len()
      invariant index0 <= index < node.end && node.slots[index] in h && n > 0
      invariant Span(h, node, index0, index) + n == n0 + offset
      decreases node.end - index
    {
      SpanStep(h, node, index0, index);
      n := n - h[node.slots[index]].rep.Len();
      index := index + 1;
      SpanSplit(h, node, index0, index, node.end);
      if index < node.end {
        SpanStep(h, node, index0, index);
      } else {
        SpanNone(h, node, index);
      }
    }
  }

  /** The edge in which the first `n` bytes end, and how many of them it holds. */
  method IndexOfLength(h: Heap, node: Rep, length: nat) returns (index: nat, n: nat)
    requires IsSettledNode(h, node) && 0 < length <= node.length
    ensures node.begin <= index < node.end && node.slots[index] in h
    ensures Span(h, node, node.begin, index) + n == length && 0 < n <= h[node.slots[index]].rep.Len()
  {
    hide AllEdges, Span;
    SpanWhole(h, node, node.begin);
    SpanWhole(h, node, node.end);
    SpanNone(h, node, node.begin);
    assert node.begin < node.end;
    index := node.end - 1;
    var strip: nat := node.length - length;
    SpanStep(h, node, node.begin, index);
    while strip >= h[node.slots[index]].rep.Len()
      invariant node.begin <= index < node.end && node.slots[index] in h
      invariant Span(h, node, index + 1, node.end) + strip == node.length - length
      decreases index
    {
      SpanStep(h, node, node.begin, index);
      SpanWhole(h, node, index);
      strip := strip - h[node.slots[index]].rep.Len();
      assert index > node.begin;
      index := index - 1;
      SpanStep(h, node, node.begin, index);
    }
    SpanStep(h, node, node.begin, index);
    SpanWhole(h, node, index + 1);
    n := h[node.slots[index]].rep.Len() - strip;
  }

  /** The first edge starting at or beyond `offset`, and how far beyond it starts. */
  method IndexBeyond(h: Heap, node: Rep, offset: nat) returns (index: nat, n: nat)
    requires IsSettledNode(h, node) && offset <= node.length
    ensures node.begin <= index <= node.end
    ensures Span(h, node, node.begin, index) == offset + n
    ensures n > 0 ==> node.begin < index && node.slots[index - 1] in h && n < h[node.slots[index - 1]].rep.Len()
  {
    hide AllEdges, Span;
    var off := 0;
    index := node.begin;
    SpanNone(h, node, node.begin);
    SpanWhole(h, node, node.begin);
    while offset > off
      invariant node.begin <= index <= node.end && off == Span(h, node, node.begin, index)
      invariant off > offset ==>
        node.begin < index && node.slots[index - 1] in h && off - offset < h[node.slots[index - 1]].rep.Len()
      decreases node.end - index
    {
      SpanWhole(h, node, index);
      SpanStep(h, node, node.begin, index);
      off := off + h[node.slots[index]].rep.Len();
      index := index + 1;
    }
    n := off - offset;
  }
}
