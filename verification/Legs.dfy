/**
Legs: paths down the front or the back of a tree, and what a write at their lower end means.

Why a reference count of one along a path licenses writing (rep.rs, module comment): if every
node of the path down to some depth has count one, then outside the path nothing points into
it (`OwnedIsClosed`), so only reps whose path runs through the root can see the write, and the
root has no reference but the writer's.
*/
module Legs {
  import opened Heap
  import opened Counts

  /** `b` is added to `a` at the back or at the front. */
  function Join<T>(back: bool, a: seq<T>, b: seq<T>): seq<T> {
    if back then a + b else b + a
  }

  /** The edges of a node but for the outermost one. */
  function Inner(back: bool, es: seq<Id>): seq<Id>
    requires es != []
  {
    if back then es[..|es| - 1] else es[1..]
  }

  function Outer(back: bool, es: seq<Id>): Id
    requires es != []
  {
    if back then es[|es| - 1] else es[0]
  }

  /** A path of btree nodes along the outermost edges. */
  ghost predicate Leg(h: Heap, back: bool, stack: seq<Id>) {
    && stack != []
    && (forall i :: 0 <= i < |stack| ==> stack[i] in h && h[stack[i]].rep.Btree?)
    && (forall i :: 0 <= i < |stack| ==> h[stack[i]].rep.height == h[stack[0]].rep.height - i)
    && (forall i :: 0 <= i < |stack| - 1 ==> h[stack[i]].rep.Out() != [])
    && (forall i, j :: 0 <= i && j == i + 1 && j < |stack| ==> Outer(back, h[stack[i]].rep.Out()) == stack[j])
  }

  ghost function Ids(stack: seq<Id>): set<Id> {
    set i | 0 <= i < |stack| :: stack[i]
  }

  lemma IdsPrefix(stack: seq<Id>, n: nat, m: nat)
    requires n <= m <= |stack|
    ensures Ids(stack[..n]) <= Ids(stack[..m])
    ensures forall i :: 0 <= i < n ==> stack[i] in Ids(stack[..n])
  {
    forall x | x in Ids(stack[..n]) ensures x in Ids(stack[..m]) {
      var i :| 0 <= i < n && stack[..n][i] == x;
      assert stack[..m][i] == x;
    }
    forall i | 0 <= i < n ensures stack[i] in Ids(stack[..n]) {
      assert stack[..n][i] == stack[i];
    }
  }

  /** The nodes of a leg differ: their heights do. */
  lemma LegDistinct(h: Heap, back: bool, stack: seq<Id>, i: nat, j: nat)
    requires Leg(h, back, stack) && i < |stack| && j < |stack|
    ensures stack[i] == stack[j] ==> i == j
  {
  }

  /** The first `s` nodes of the leg have count one, and the root is held. */
  ghost predicate OwnedLeg(h: Heap, held: multiset<Id>, back: bool, stack: seq<Id>, s: nat) {
    && Leg(h, back, stack) && s <= |stack|
    && stack[0] in held
    && forall i :: 0 <= i < s ==> h[stack[i]].rc == 1
  }

  /** Nothing outside the owned part of a leg points into it. */
  lemma OwnedIsClosed(h: Heap, held: multiset<Id>, back: bool, stack: seq<Id>, s: nat)
    requires Inv(h, held) && OwnedLeg(h, held, back, stack, s)
    ensures Closed(h, Ids(stack[..s]))
    ensures forall x :: x in held - multiset{stack[0]} ==> x !in Ids(stack[..s])
  {
    hide Inv;
    forall x, e | x in h && x !in Ids(stack[..s]) && e in h[x].rep.Out() ensures e !in Ids(stack[..s]) {
      if e in Ids(stack[..s]) {
        var i :| 0 <= i < s && stack[..s][i] == e;
        OwnedHasOneParent(h, held, back, stack, s, i, x);
      }
    }
    forall x | x in held - multiset{stack[0]} ensures x !in Ids(stack[..s]) {
      if x in Ids(stack[..s]) {
        var i :| 0 <= i < s && stack[..s][i] == x;
        OwnedIsHeldOnce(h, held, back, stack, s, i);
      }
    }
  }

  /** No path from any other handle leads to an owned node: nobody else can see a write to it. */
  lemma OwnedIsUnreachable(h: Heap, held: multiset<Id>, back: bool, stack: seq<Id>, s: nat)
    requires Inv(h, held) && OwnedLeg(h, held, back, stack, s)
    ensures forall x :: Reachable(h, held - multiset{stack[0]}, x) ==> x !in Ids(stack[..s])
  {
    hide Inv, Outer;
    OwnedIsClosed(h, held, back, stack, s);
    forall x | Reachable(h, held - multiset{stack[0]}, x) ensures x !in Ids(stack[..s]) {
      var p :| Path(h, p) && p[0] in held - multiset{stack[0]} && p[|p| - 1] == x;
      PathOutside(h, Ids(stack[..s]), p);
    }
  }

  /** A path that begins outside a set into which nothing points stays outside. */
  lemma {:induction false} PathOutside(h: Heap, o: set<Id>, p: seq<Id>)
    requires Closed(h, o) && Path(h, p) && p[0] !in o
    ensures p[|p| - 1] !in o
    decreases |p|
  {
    if |p| > 1 {
      var q := p[..|p| - 1];
      assert Path(h, q);
      PathOutside(h, o, q);
    }
  }

  lemma OwnedHasOneParent(h: Heap, held: multiset<Id>, back: bool, stack: seq<Id>, s: nat, i: nat, x: Id)
    requires Inv(h, held) && OwnedLeg(h, held, back, stack, s) && i < s
    requires x in h && stack[i] in h[x].rep.Out()
    ensures i > 0 && x == stack[i - 1]
  {
    hide EdgeBag, RepOk;
    var e := stack[i];
    assert h[e].rc == EdgeBag(h)[e] + held[e];
    EdgeBagAtLeast(h, x);
    assert multiset(h[x].rep.Out())[e] > 0;
    if i > 0 && x != stack[i - 1] {
      assert e in h[stack[i - 1]].rep.Out();
      EdgeBagTwo(h, x, stack[i - 1], e);
    }
  }

  lemma OwnedIsHeldOnce(h: Heap, held: multiset<Id>, back: bool, stack: seq<Id>, s: nat, i: nat)
    requires Inv(h, held) && OwnedLeg(h, held, back, stack, s) && i < s
    ensures held[stack[i]] == if i == 0 then 1 else 0
  {
    hide EdgeBag, RepOk;
    var e := stack[i];
    assert h[e].rc == EdgeBag(h)[e] + held[e];
    if i > 0 {
      EdgeBagAtLeast(h, stack[i - 1]);
      assert e in h[stack[i - 1]].rep.Out();
      assert multiset(h[stack[i - 1]].rep.Out())[e] > 0;
    }
  }

  /** An owned node is its parent's edge once only. */
  lemma OwnedIsEdgeOnce(h: Heap, held: multiset<Id>, back: bool, stack: seq<Id>, s: nat, i: nat)
    requires Inv(h, held) && OwnedLeg(h, held, back, stack, s) && 0 < i < s
    ensures stack[i] !in Inner(back, h[stack[i - 1]].rep.Out())
  {
    hide EdgeBag, RepOk;
    var e := stack[i];
    var es := h[stack[i - 1]].rep.Out();
    assert h[e].rc == EdgeBag(h)[e] + held[e];
    EdgeBagAtLeast(h, stack[i - 1]);
    SplitOuter(back, es);
    assert multiset(es) == multiset(Inner(back, es)) + multiset{e};
    InBag(Inner(back, es), e);
  }

  lemma InBag(es: seq<Id>, e: Id)
    ensures e in es <==> multiset(es)[e] > 0
  {
  }

  lemma SplitOuter(back: bool, es: seq<Id>)
    requires es != []
    ensures es == Join(back, Inner(back, es), [Outer(back, es)])
    ensures multiset(es) == multiset(Inner(back, es)) + multiset{Outer(back, es)}
  {
  }

  lemma LeavesOfJoin(h: Heap, k: nat, back: bool, a: seq<Id>, b: seq<Id>)
    requires Shape(h) && AllEdges(h, k, a) && AllEdges(h, k, b)
    ensures AllEdges(h, k, Join(back, a, b))
    ensures LeavesOf(h, k, Join(back, a, b)) == Join(back, LeavesOf(h, k, a), LeavesOf(h, k, b))
  {
    if back {
      LeavesOfAppend(h, k, a, b);
    } else {
      LeavesOfAppend(h, k, b, a);
    }
  }

  lemma SumLenJoin(h: Heap, back: bool, a: seq<Id>, b: seq<Id>)
    ensures SumLen(h, Join(back, a, b)) == SumLen(h, a) + SumLen(h, b)
  {
    SumLenAppend(h, a, b);
    SumLenAppend(h, b, a);
  }

  lemma CatJoin(h: Heap, back: bool, a: seq<Id>, b: seq<Id>)
    ensures Cat(h, Join(back, a, b)) == Join(back, Cat(h, a), Cat(h, b))
  {
    CatAppend(h, a, b);
    CatAppend(h, b, a);
  }

  /** The leaves of a node, split at its outermost edge. */
  lemma LeavesSplit(h: Heap, back: bool, x: Id)
    requires Shape(h) && x in h && h[x].rep.Btree? && h[x].rep.Out() != []
    ensures var es := h[x].rep.Out(); var k := h[x].rep.height;
      AllEdges(h, k, Inner(back, es)) && IsEdge(h, k, Outer(back, es)) &&
      Leaves(h, x) == Join(back, LeavesOf(h, k, Inner(back, es)), Leaves(h, Outer(back, es)))
  {
    hide Join, Inner, Outer;
    assert RepOk(h, h[x].rep);
    var es := h[x].rep.Out();
    var k := h[x].rep.height;
    SplitOuter(back, es);
    InnerIn(back, es);
    LeavesOfOne(h, k, Outer(back, es));
    LeavesOfJoin(h, k, back, Inner(back, es), [Outer(back, es)]);
  }

  lemma InnerIn(back: bool, es: seq<Id>)
    requires es != []
    ensures forall e :: e in Inner(back, es) ==> e in es
    ensures Outer(back, es) in es
    ensures forall e :: e in es ==> e in Inner(back, es) || e == Outer(back, es)
  {
  }

  /**
  Leaves added at the lower end of a leg are added to every node of the leg: the nodes above
  keep their edges, and each is the outermost edge of its parent and no other edge of it.
  */
  lemma {:induction false} LegGrows(h: Heap, h': Heap, back: bool, stack: seq<Id>, d: nat, i: nat, added: seq<Id>)
    requires Shape(h) && Shape(h') && Leg(h, back, stack) && i <= d < |stack|
    requires Closed(h, Ids(stack[..d + 1])) && Agree(h, h', Ids(stack[..d + 1]))
    requires forall j :: 0 <= j <= d ==> stack[j] in h' && h'[stack[j]].rep.Btree?
    requires forall j :: 0 <= j < d ==>
      h'[stack[j]].rep.Out() == h[stack[j]].rep.Out() && h'[stack[j]].rep.height == h[stack[j]].rep.height
    requires forall i, j :: 0 <= i && j == i + 1 && j <= d ==> stack[j] !in Inner(back, h[stack[i]].rep.Out())
    requires Leaves(h', stack[d]) == Join(back, Leaves(h, stack[d]), added)
    ensures Leaves(h', stack[i]) == Join(back, Leaves(h, stack[i]), added)
    decreases d - i
  {
    hide Inner, Outer, Join, RepOk;
    if i < d {
      LegGrows(h, h', back, stack, d, i + 1, added);
      LeavesSplit(h, back, stack[i]);
      LeavesSplit(h', back, stack[i]);
      var es := h[stack[i]].rep.Out();
      var k := h[stack[i]].rep.height;
      InnerAvoidsLeg(h, back, stack, d, i);
      LeavesOfFrame(h, h', Ids(stack[..d + 1]), k, Inner(back, es));
      JoinAssoc(back, LeavesOf(h, k, Inner(back, es)), Leaves(h, stack[i + 1]), added);
    }
  }

  /** The same for an owned leg, of which nothing else holds a node. */
  lemma OwnedGrows(h: Heap, held: multiset<Id>, h': Heap, back: bool, stack: seq<Id>, d: nat, added: seq<Id>)
    requires Inv(h, held) && Shape(h) && Shape(h') && OwnedLeg(h, held, back, stack, d + 1) && d < |stack|
    requires Agree(h, h', Ids(stack[..d + 1]))
    requires forall j :: 0 <= j <= d ==> stack[j] in h' && h'[stack[j]].rep.Btree?
    requires forall j :: 0 <= j < d ==>
      h'[stack[j]].rep.Out() == h[stack[j]].rep.Out() && h'[stack[j]].rep.height == h[stack[j]].rep.height
    requires Leaves(h', stack[d]) == Join(back, Leaves(h, stack[d]), added)
    ensures Leaves(h', stack[0]) == Join(back, Leaves(h, stack[0]), added)
  {
    hide Inv, Inner, Outer, Join, RepOk, Leaves;
    OwnedIsClosed(h, held, back, stack, d + 1);
    OwnedOnce(h, held, back, stack, d);
    LegGrows(h, h', back, stack, d, 0, added);
  }

  lemma OwnedOnce(h: Heap, held: multiset<Id>, back: bool, stack: seq<Id>, d: nat)
    requires Inv(h, held) && OwnedLeg(h, held, back, stack, d + 1) && d < |stack|
    ensures forall i, j :: 0 <= i && j == i + 1 && j <= d ==> stack[j] !in Inner(back, h[stack[i]].rep.Out())
  {
    hide Inv, Inner, Outer;
    forall i, j | 0 <= i && j == i + 1 && j <= d ensures stack[j] !in Inner(back, h[stack[i]].rep.Out()) {
      OwnedIsEdgeOnce(h, held, back, stack, d + 1, j);
    }
  }

  lemma JoinAssoc<T>(back: bool, a: seq<T>, b: seq<T>, c: seq<T>)
    ensures Join(back, a, Join(back, b, c)) == Join(back, Join(back, a, b), c)
  {
  }

  lemma InnerAvoidsLeg(h: Heap, back: bool, stack: seq<Id>, d: nat, i: nat)
    requires Shape(h) && Leg(h, back, stack) && i < d < |stack|
    requires stack[i + 1] !in Inner(back, h[stack[i]].rep.Out())
    ensures forall e :: e in Inner(back, h[stack[i]].rep.Out()) ==> e !in Ids(stack[..d + 1])
  {
    var es := h[stack[i]].rep.Out();
    assert RepOk(h, h[stack[i]].rep);
    InnerIn(back, es);
    forall e | e in Inner(back, es) ensures e !in Ids(stack[..d + 1]) {
      assert IsEdge(h, h[stack[i]].rep.height, e);
      assert forall j :: 0 <= j <= d && stack[j] == e ==> j == i + 1;
    }
  }

  // --- Legs of which every node has count one ------------------------------------------

  ghost predicate PrivateLeg(h: Heap, back: bool, x: Id)
    requires Shape(h)
    decreases if x in h then h[x].rep.Level() else 0
  {
    && x in h && h[x].rep.Btree? && h[x].rc == 1
    && (h[x].rep.height > 0 ==>
          h[x].rep.Out() != [] &&
          (assert RepOk(h, h[x].rep); InnerIn(back, h[x].rep.Out());
           PrivateLeg(h, back, Outer(back, h[x].rep.Out()))))
  }

  lemma {:induction false} PrivateLegKept(h: Heap, h': Heap, back: bool, x: Id)
    requires Shape(h) && Shape(h') && PrivateLeg(h, back, x) && x in h'
    requires Same(h[x], h'[x]) && h'[x].rc == 1
    requires forall y :: y in h && y in h' && h[y].rep.Level() < h[x].rep.Level() ==>
      Same(h[y], h'[y]) && (h[y].rc == 1 ==> h'[y].rc == 1)
    ensures PrivateLeg(h', back, x)
    decreases h[x].rep.Level()
  {
    hide Inner, Outer;
    if h[x].rep.height > 0 {
      var es := h[x].rep.Out();
      assert RepOk(h, h[x].rep) && RepOk(h', h'[x].rep);
      InnerIn(back, es);
      PrivateLegKept(h, h', back, Outer(back, es));
    }
  }
}
