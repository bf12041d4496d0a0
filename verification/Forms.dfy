/**
The form of a tree: how its nodes branch, without what the data edges hold. How an edit at the end
of a leg changes the form, and which forms appending and prepending data lead to.
*/
module Forms {
  import opened Heap
  import opened Legs
  import opened Nodes
  import opened Rebuilds

  datatype Form = Data | Node(kids: seq<Form>)

  /** What an edit makes of a node: another one in its place, or one to be put beside it. */
  datatype Grafted = Fits(form: Form) | Pops(form: Form)

  // --- Forms of heap cells ------------------------------------------------------------------------

  ghost function FormOf(h: Heap, x: Id): Form
    requires Shape(h) && x in h
    decreases h[x].rep.Level(), 0
  {
    if h[x].rep.Btree? then
      assert RepOk(h, h[x].rep);
      Node(FormsOf(h, h[x].rep.height, h[x].rep.Out()))
    else Data
  }

  ghost function FormsOf(h: Heap, k: nat, es: seq<Id>): (fs: seq<Form>)
    requires Shape(h) && AllEdges(h, k, es)
    ensures |fs| == |es|
    decreases k, |es|
  {
    if es == [] then [] else
      assert es[0] in es;
      [FormOf(h, es[0])] + FormsOf(h, k, es[1..])
  }

  lemma {:induction false} FormsAppend(h: Heap, k: nat, a: seq<Id>, b: seq<Id>)
    requires Shape(h) && AllEdges(h, k, a) && AllEdges(h, k, b)
    ensures AllEdges(h, k, a + b)
    ensures FormsOf(h, k, a + b) == FormsOf(h, k, a) + FormsOf(h, k, b)
  {
    if a == [] {
      assert a + b == b;
    } else {
      assert (a + b)[1..] == a[1..] + b;
      FormsAppend(h, k, a[1..], b);
    }
  }

  lemma FormsJoin(h: Heap, k: nat, back: bool, a: seq<Id>, b: seq<Id>)
    requires Shape(h) && AllEdges(h, k, a) && AllEdges(h, k, b)
    ensures AllEdges(h, k, Join(back, a, b))
    ensures FormsOf(h, k, Join(back, a, b)) == Join(back, FormsOf(h, k, a), FormsOf(h, k, b))
  {
    FormsAppend(h, k, a, b);
    FormsAppend(h, k, b, a);
  }

  lemma FormsOne(h: Heap, k: nat, e: Id)
    requires Shape(h) && IsEdge(h, k, e)
    ensures AllEdges(h, k, [e]) && FormsOf(h, k, [e]) == [FormOf(h, e)]
  {
    assert [e][1..] == [];
  }

  lemma NodeForm(h: Heap, x: Id)
    requires Shape(h) && x in h && h[x].rep.Btree?
    ensures AllEdges(h, h[x].rep.height, h[x].rep.Out())
    ensures FormOf(h, x) == Node(FormsOf(h, h[x].rep.height, h[x].rep.Out()))
  {
    NodeOk(h, x);
  }

  /** A form does not depend on what is written in a set that nothing else points into. */
  lemma {:induction false} FormFrame(h: Heap, h': Heap, o: set<Id>, x: Id)
    requires Shape(h) && Shape(h') && Closed(h, o) && AgreeEdges(h, h', o)
    requires x in h && x in h' && x !in o
    ensures FormOf(h', x) == FormOf(h, x)
    decreases h[x].rep.Level(), 0
  {
    if h[x].rep.Btree? {
      assert RepOk(h, h[x].rep) && RepOk(h', h'[x].rep);
      FormsFrame(h, h', o, h[x].rep.height, h[x].rep.Out());
    }
  }

  lemma {:induction false} FormsFrame(h: Heap, h': Heap, o: set<Id>, k: nat, es: seq<Id>)
    requires Shape(h) && Shape(h') && Closed(h, o) && AgreeEdges(h, h', o)
    requires AllEdges(h, k, es) && AllEdges(h', k, es) && forall e :: e in es ==> e !in o
    ensures FormsOf(h', k, es) == FormsOf(h, k, es)
    decreases k, |es|
  {
    if es != [] {
      assert es[0] in es;
      FormFrame(h, h', o, es[0]);
      FormsFrame(h, h', o, k, es[1..]);
    }
  }

  /** How many data edges a form has. */
  function Count(f: Form): nat
  {
    if f.Data? then 1 else CountAll(f.kids)
  }

  function CountAll(fs: seq<Form>): nat {
    if fs == [] then 0 else Count(fs[0]) + CountAll(fs[1..])
  }

  lemma {:induction false} CountIsLeaves(h: Heap, x: Id)
    requires Shape(h) && x in h
    ensures Count(FormOf(h, x)) == |Leaves(h, x)|
    decreases h[x].rep.Level(), 0
  {
    if h[x].rep.Btree? {
      NodeForm(h, x);
      CountAllIsLeaves(h, h[x].rep.height, h[x].rep.Out());
    }
  }

  lemma {:induction false} CountAllIsLeaves(h: Heap, k: nat, es: seq<Id>)
    requires Shape(h) && AllEdges(h, k, es)
    ensures CountAll(FormsOf(h, k, es)) == |LeavesOf(h, k, es)|
    decreases k, |es|
  {
    if es != [] {
      assert es[0] in es;
      CountIsLeaves(h, es[0]);
      CountAllIsLeaves(h, k, es[1..]);
      assert FormsOf(h, k, es)[1..] == FormsOf(h, k, es[1..]);
    }
  }

  // --- Edits of forms -------------------------------------------------------------------------------

  /** All but the outermost of the kids, and that one. */
  function Rest(back: bool, kids: seq<Form>): seq<Form>
    requires kids != []
  {
    if back then kids[..|kids| - 1] else kids[1..]
  }

  function End(back: bool, kids: seq<Form>): Form
    requires kids != []
  {
    if back then kids[|kids| - 1] else kids[0]
  }

  /** A form with a leg of `k` nodes above the one at its end. */
  predicate HasLeg(back: bool, f: Form, k: nat) {
    f.Node? && (k > 0 ==> f.kids != [] && HasLeg(back, End(back, f.kids), k - 1))
  }

  /** What becomes of a node when the one `k` levels down its leg becomes `base`. */
  function Graft(back: bool, f: Form, k: nat, base: Grafted): Grafted
    requires HasLeg(back, f, k)
  {
    if k == 0 then base else
      match Graft(back, End(back, f.kids), k - 1, base)
      case Fits(g) => Fits(Node(Join(back, Rest(back, f.kids), [g])))
      case Pops(g) => if |f.kids| < MAX_CAPACITY then Fits(Node(Join(back, f.kids, [g]))) else Pops(Node([g]))
  }

  /** The tree after an edit that made `g` of its root. */
  function Rooted(back: bool, f: Form, g: Grafted): Form {
    if g.Fits? then g.form else Node(Join(back, [f], [g.form]))
  }

  // --- Packed forms -----------------------------------------------------------------------------------

  /** Every node is full; `k` is the level. */
  predicate Full(f: Form, k: nat) {
    if k == 0 then f.Data? else f.Node? && |f.kids| == MAX_CAPACITY && forall g :: g in f.kids ==> Full(g, k - 1)
  }

  predicate FullForms(fs: seq<Form>, k: nat) {
    forall g :: g in fs ==> Full(g, k)
  }

  /** Every node is full but for those on one leg; `k` is the height. */
  predicate SidePacked(back: bool, f: Form, k: nat) {
    && f.Node? && 0 < |f.kids| <= MAX_CAPACITY
    && if k == 0 then FullForms(f.kids, 0)
       else FullForms(Rest(back, f.kids), k) && SidePacked(back, End(back, f.kids), k - 1)
  }

  /** Every node is full but for those on the two legs. */
  predicate PackedForm(f: Form, k: nat) {
    && f.Node? && 0 < |f.kids| <= MAX_CAPACITY
    && if k == 0 then FullForms(f.kids, 0)
       else if |f.kids| == 1 then PackedForm(f.kids[0], k - 1)
       else && SidePacked(false, f.kids[0], k - 1) && SidePacked(true, f.kids[|f.kids| - 1], k - 1)
            && FullForms(f.kids[1..|f.kids| - 1], k)
  }

  /** The leaf at the end of the leg is full. */
  predicate EndFull(back: bool, f: Form, k: nat)
    requires HasLeg(back, f, k)
  {
    if k == 0 then |f.kids| == MAX_CAPACITY else EndFull(back, End(back, f.kids), k - 1)
  }

  /** A leaf of data, in the place of the one at the end of the leg or, if that one is full, beside it. */
  predicate IsBase(back: bool, f: Form, k: nat, base: Grafted)
    requires HasLeg(back, f, k)
  {
    SidePacked(back, base.form, 0) && (base.Pops? ==> EndFull(back, f, k))
  }

  lemma SideHasLeg(back: bool, f: Form, k: nat)
    requires SidePacked(back, f, k)
    ensures HasLeg(back, f, k)
  {
    if k > 0 {
      SideHasLeg(back, End(back, f.kids), k - 1);
    }
  }

  lemma {:induction false} PackedHasLeg(back: bool, f: Form, k: nat)
    requires PackedForm(f, k)
    ensures HasLeg(back, f, k)
  {
    if k > 0 {
      if |f.kids| == 1 {
        PackedHasLeg(back, f.kids[0], k - 1);
      } else {
        SideHasLeg(back, End(back, f.kids), k - 1);
      }
    }
  }

  /** A packed leg whose nodes are full is full. */
  lemma KidsFull(back: bool, kids: seq<Form>, k: nat)
    requires kids != [] && FullForms(Rest(back, kids), k) && Full(End(back, kids), k)
    ensures FullForms(kids, k)
  {
    forall g | g in kids ensures Full(g, k) {
      assert g in Rest(back, kids) || g == End(back, kids);
    }
  }

  lemma JoinedFull(back: bool, kids: seq<Form>, g: Form, k: nat)
    requires FullForms(kids, k)
    ensures FullForms(Rest(back, Join(back, kids, [g])), k) && End(back, Join(back, kids, [g])) == g
    ensures |Join(back, kids, [g])| == |kids| + 1
  {
    assert Rest(back, Join(back, kids, [g])) == kids;
  }

  /** Data added at the end of a packed leg keeps it packed, and pops only if all of it is full. */
  lemma {:induction false} GraftSide(back: bool, f: Form, k: nat, base: Grafted)
    requires SidePacked(back, f, k) && HasLeg(back, f, k) && IsBase(back, f, k, base)
    ensures SidePacked(back, Graft(back, f, k, base).form, k)
    ensures Graft(back, f, k, base).Pops? ==> Full(f, k + 1)
  {
    if k > 0 {
      var kids, end := f.kids, End(back, f.kids);
      GraftSide(back, end, k - 1, base);
      var g := Graft(back, end, k - 1, base);
      if g.Fits? {
        JoinedFull(back, Rest(back, kids), g.form, k);
      } else {
        KidsFull(back, kids, k);
        JoinedFull(back, kids, g.form, k);
        JoinedFull(back, [], g.form, k);
        assert Join(back, [], [g.form]) == [g.form];
      }
    }
  }

  /** A full form is packed on either side. */
  lemma {:induction false} FullIsSide(back: bool, f: Form, k: nat)
    requires Full(f, k + 1)
    ensures SidePacked(back, f, k)
  {
    if k > 0 {
      assert End(back, f.kids) in f.kids;
      assert forall g :: g in Rest(back, f.kids) ==> g in f.kids;
      FullIsSide(back, End(back, f.kids), k - 1);
    }
  }

  /** The three parts of a packed node with several kids, seen from one side. */
  lemma PackedParts(back: bool, f: Form, k: nat)
    requires f.Node? && 1 < |f.kids| <= MAX_CAPACITY && k > 0
    ensures PackedForm(f, k) <==>
      && SidePacked(back, End(back, f.kids), k - 1) && SidePacked(!back, End(!back, f.kids), k - 1)
      && FullForms(Rest(!back, Rest(back, f.kids)), k)
  {
    assert Rest(!back, Rest(back, f.kids)) == f.kids[1..|f.kids| - 1];
  }

  lemma RestJoin(back: bool, kids: seq<Form>, g: Form)
    ensures Rest(back, Join(back, kids, [g])) == kids && End(back, Join(back, kids, [g])) == g
    ensures kids != [] ==> End(!back, Join(back, kids, [g])) == End(!back, kids)
    ensures |Join(back, kids, [g])| == |kids| + 1
  {
  }

  lemma RestEnds(back: bool, kids: seq<Form>)
    requires |kids| > 1
    ensures |Rest(back, kids)| == |kids| - 1 && End(!back, Rest(back, kids)) == End(!back, kids)
    ensures kids == Join(back, Rest(back, kids), [End(back, kids)])
  {
  }

  /**
  Data added to a packed tree keeps it packed. The root pops only if the whole leg is full; what is
  not full then lies on the other leg.
  */
  lemma {:induction false} GraftPacked(back: bool, f: Form, k: nat, base: Grafted)
    requires PackedForm(f, k) && HasLeg(back, f, k) && IsBase(back, f, k, base)
    ensures var g := Graft(back, f, k, base); if g.Fits? then PackedForm(g.form, k) else PoppedRoot(back, f, k, g.form)
  {
    if k > 0 {
      var kids, end := f.kids, End(back, f.kids);
      if |kids| == 1 {
        GraftPacked(back, end, k - 1, base);
        GraftSingle(back, f, k, Graft(back, end, k - 1, base));
      } else {
        PackedParts(back, f, k);
        GraftSide(back, end, k - 1, base);
        GraftSeveral(back, f, k, Graft(back, end, k - 1, base));
      }
    }
  }

  /** The root has popped: only its other leg is not full. */
  predicate PoppedRoot(back: bool, f: Form, k: nat, g: Form) {
    && SidePacked(!back, f, k) && SidePacked(back, g, k) && |f.kids| == MAX_CAPACITY
    && (k > 0 ==> FullForms(Rest(!back, f.kids), k))
  }

  lemma GraftSingle(back: bool, f: Form, k: nat, g: Grafted)
    requires PackedForm(f, k) && k > 0 && |f.kids| == 1
    requires if g.Fits? then PackedForm(g.form, k - 1) else PoppedRoot(back, f.kids[0], k - 1, g.form)
    ensures g.Fits? ==> PackedForm(Node(Join(back, Rest(back, f.kids), [g.form])), k)
    ensures g.Pops? ==> PackedForm(Node(Join(back, f.kids, [g.form])), k)
  {
    if g.Fits? {
      assert Join(back, Rest(back, f.kids), [g.form]) == [g.form];
    } else {
      RestJoin(back, f.kids, g.form);
      var r := Node(Join(back, f.kids, [g.form]));
      assert Rest(!back, f.kids) == [];
      PackedParts(back, r, k);
    }
  }

  lemma GraftSeveral(back: bool, f: Form, k: nat, g: Grafted)
    requires PackedForm(f, k) && k > 0 && |f.kids| > 1
    requires SidePacked(back, g.form, k - 1) && (g.Pops? ==> Full(End(back, f.kids), k))
    ensures g.Fits? ==> PackedForm(Node(Join(back, Rest(back, f.kids), [g.form])), k)
    ensures g.Pops? && |f.kids| < MAX_CAPACITY ==> PackedForm(Node(Join(back, f.kids, [g.form])), k)
    ensures g.Pops? && |f.kids| >= MAX_CAPACITY ==> PoppedRoot(back, f, k, Node([g.form]))
  {
    PackedParts(back, f, k);
    RestEnds(back, f.kids);
    if g.Fits? {
      RestJoin(back, Rest(back, f.kids), g.form);
      PackedParts(back, Node(Join(back, Rest(back, f.kids), [g.form])), k);
    } else {
      AllButFirst(back, f.kids, k);
      if |f.kids| < MAX_CAPACITY {
        RestJoin(back, f.kids, g.form);
        PackedParts(back, Node(Join(back, f.kids, [g.form])), k);
      } else {
        JoinedFull(back, [], g.form, k);
        assert Join(back, [], [g.form]) == [g.form];
      }
    }
  }

  lemma AllButFirst(back: bool, kids: seq<Form>, k: nat)
    requires |kids| > 1 && FullForms(Rest(!back, Rest(back, kids)), k) && Full(End(back, kids), k)
    ensures FullForms(Rest(!back, kids), k)
  {
    assert Rest(!back, kids) == Join(back, Rest(!back, Rest(back, kids)), [End(back, kids)]);
  }

  /** The tree after data was added to it, with its height. */
  function RootedHeight(k: nat, g: Grafted): nat {
    if g.Fits? then k else k + 1
  }

  lemma RootedPacked(back: bool, f: Form, k: nat, base: Grafted)
    requires PackedForm(f, k) && HasLeg(back, f, k) && IsBase(back, f, k, base)
    ensures var g := Graft(back, f, k, base); PackedForm(Rooted(back, f, g), RootedHeight(k, g))
    ensures var g := Graft(back, f, k, base); g.Pops? ==> Count(Rooted(back, f, g)) >= 5 * Pow6(k) + 2
  {
    GraftPacked(back, f, k, base);
    var g := Graft(back, f, k, base);
    if g.Pops? {
      var r := Rooted(back, f, g);
      RestJoin(back, [f], g.form);
      assert Rest(!back, [f]) == [];
      PackedParts(back, r, k + 1);
      PoppedCount(back, f, k, g.form);
      SideCount(back, g.form, k);
      CountJoin(back, [f], [g.form]);
      CountOne(f);
      CountOne(g.form);
    }
  }

  /** After a full leaf was put at its end, the leg ends in a full leaf. */
  lemma {:induction false} GraftEnd(back: bool, f: Form, k: nat, base: Grafted)
    requires HasLeg(back, f, k) && base.form.Node? && |base.form.kids| == MAX_CAPACITY
    ensures HasLeg(back, Graft(back, f, k, base).form, k) && EndFull(back, Graft(back, f, k, base).form, k)
  {
    if k > 0 {
      var g := Graft(back, End(back, f.kids), k - 1, base);
      GraftEnd(back, End(back, f.kids), k - 1, base);
      RestJoin(back, Rest(back, f.kids), g.form);
      RestJoin(back, f.kids, g.form);
      RestJoin(back, [], g.form);
      assert Join(back, [], [g.form]) == [g.form];
    }
  }

  lemma RootedEnd(back: bool, f: Form, k: nat, base: Grafted)
    requires HasLeg(back, f, k) && base.form.Node? && |base.form.kids| == MAX_CAPACITY
    ensures
      var g := Graft(back, f, k, base); var r := Rooted(back, f, g);
      HasLeg(back, r, RootedHeight(k, g)) && EndFull(back, r, RootedHeight(k, g))
  {
    GraftEnd(back, f, k, base);
    RestJoin(back, [f], Graft(back, f, k, base).form);
  }

  // --- Counting -------------------------------------------------------------------------------------------

  lemma {:induction false} CountAppend(a: seq<Form>, b: seq<Form>)
    ensures CountAll(a + b) == CountAll(a) + CountAll(b)
  {
    if a == [] {
      assert a + b == b;
    } else {
      assert (a + b)[1..] == a[1..] + b;
      CountAppend(a[1..], b);
    }
  }

  lemma CountJoin(back: bool, a: seq<Form>, b: seq<Form>)
    ensures CountAll(Join(back, a, b)) == CountAll(a) + CountAll(b)
  {
    CountAppend(a, b);
    CountAppend(b, a);
  }

  lemma CountOne(f: Form)
    ensures CountAll([f]) == Count(f)
  {
    assert [f][1..] == [];
  }

  lemma {:induction false} FullCount(f: Form, k: nat)
    requires Full(f, k)
    ensures Count(f) == Pow6(k)
    decreases k, 0
  {
    if k > 0 {
      AllFullCount(f.kids, k - 1);
    }
  }

  lemma {:induction false} AllFullCount(fs: seq<Form>, k: nat)
    requires FullForms(fs, k)
    ensures CountAll(fs) == |fs| * Pow6(k)
    decreases k, |fs| + 1
  {
    if fs != [] {
      assert fs[0] in fs;
      FullCount(fs[0], k);
      AllFullCount(fs[1..], k);
      Distribute(|fs[1..]|, Pow6(k));
    }
  }

  lemma {:induction false} SideCount(back: bool, f: Form, k: nat)
    requires SidePacked(back, f, k)
    ensures Count(f) >= 1
  {
    if k == 0 {
      AllFullCount(f.kids, 0);
    } else {
      var end := End(back, f.kids);
      SideCount(back, end, k - 1);
      assert f.kids == Join(back, Rest(back, f.kids), [end]);
      CountJoin(back, Rest(back, f.kids), [end]);
      CountOne(end);
    }
  }

  /** A tree whose root pops has all but one of its edges full. */
  lemma PoppedCount(back: bool, f: Form, k: nat, g: Form)
    requires PoppedRoot(back, f, k, g)
    ensures Count(f) >= 5 * Pow6(k) + 1
  {
    if k == 0 {
      AllFullCount(f.kids, 0);
    } else {
      var end := End(!back, f.kids);
      SideCount(!back, end, k - 1);
      assert f.kids == Join(!back, Rest(!back, f.kids), [end]);
      CountJoin(!back, Rest(!back, f.kids), [end]);
      CountOne(end);
      AllFullCount(Rest(!back, f.kids), k);
    }
  }
}
