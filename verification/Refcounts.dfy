/**
The reference count as a protocol between threads (`Refcount` in rep.rs).

Any number of threads clone and drop references on one rep. A drop is two atomic steps, a load
and, unless that saw the last reference, a subtraction; other threads may act between the two.
*/
module Refcounts {

  /** What a thread is doing: nothing, or dropping a reference after having loaded the count. */
  datatype Doing = Idle | Loaded(one: bool)

  /** The references a thread owns, including the one it is dropping. */
  datatype Thread = Thread(refs: nat, doing: Doing)

  /** The stored count, the threads, and how often a drop has reported that the rep must be destroyed. */
  datatype State = State(count: int, threads: seq<Thread>, destroys: nat)

  /** One atomic step of thread `t`. */
  datatype Step =
    | Clone(t: nat)
    | Send(t: nat, u: nat)
    | Load(t: nat)
    | Subtract(t: nat)
    | SubtractHigh(t: nat)
    | CheckOne(t: nat)

  function Total(threads: seq<Thread>): nat {
    if threads == [] then 0 else threads[0].refs + Total(threads[1..])
  }

  function Put(s: State, t: nat, thread: Thread): State
    requires t < |s.threads|
  {
    s.(threads := s.threads[t := thread])
  }

  /** A thread needs a reference to act on the rep, and a dropping thread first finishes its drop. */
  predicate Enabled(s: State, step: Step) {
    && step.t < |s.threads| && s.threads[step.t].refs > 0
    && (if step.Subtract? then s.threads[step.t].doing.Loaded? else s.threads[step.t].doing.Idle?)
    && (step.Send? ==> step.u < |s.threads| && step.u != step.t)
  }

  /** One reference fewer, and whether the drop reports that it was the last. */
  function Dropped(s: State, t: nat, count: int, last: bool): State
    requires t < |s.threads| && s.threads[t].refs > 0
  {
    Put(s, t, Thread(s.threads[t].refs - 1, Idle))
      .(count := count, destroys := if last then s.destroys + 1 else s.destroys)
  }

  function Next(s: State, step: Step): State
    requires Enabled(s, step)
  {
    var thread := s.threads[step.t];
    match step
    case Clone(t) => Put(s, t, thread.(refs := thread.refs + 1)).(count := s.count + 1)
    case Send(t, u) =>
      Put(Put(s, t, thread.(refs := thread.refs - 1)), u, s.threads[u].(refs := s.threads[u].refs + 1))
    case Load(t) => Put(s, t, thread.(doing := Loaded(s.count == 1)))
    case Subtract(t) =>
      if thread.doing.one then Dropped(s, t, s.count, true) else Dropped(s, t, s.count - 1, s.count == 1)
    case SubtractHigh(t) => Dropped(s, t, s.count - 1, s.count == 1)
    case CheckOne(t) => s
  }

  /**
  What a step does to the references: a clone adds one for its thread, a send moves one, a finished
  drop takes one away, and no other thread is touched.
  */
  lemma StepMoves(s: State, step: Step)
    requires Enabled(s, step)
    ensures
      var threads, threads', t := s.threads, Next(s, step).threads, step.t;
      && |threads'| == |threads|
      && (forall v :: 0 <= v < |threads| && v != t && !(step.Send? && v == step.u) ==> threads'[v] == threads[v])
      && threads'[t].refs - threads[t].refs ==
           (if step.Clone? then 1 else if step.Send? || step.Subtract? || step.SubtractHigh? then -1 else 0)
      && (step.Send? ==> threads'[step.u] == threads[step.u].(refs := threads[step.u].refs + 1))
      && (step.Load? <==> threads'[t].doing.Loaded?)
    ensures step.Load? ==> Next(s, step).threads[step.t].doing.one == (s.count == 1)
    ensures Next(s, step).count - s.count ==
      if step.Clone? then 1
      else if step.SubtractHigh? || (step.Subtract? && !s.threads[step.t].doing.one) then -1 else 0
  {
  }

  lemma {:induction false} TotalPut(threads: seq<Thread>, t: nat, thread: Thread)
    requires t < |threads|
    ensures Total(threads[t := thread]) == Total(threads) - threads[t].refs + thread.refs
    ensures threads[t].refs <= Total(threads)
  {
    if t > 0 {
      TotalPut(threads[1..], t - 1, thread);
      assert threads[t := thread][1..] == threads[1..][t - 1 := thread];
    } else {
      assert threads[t := thread][1..] == threads[1..];
    }
  }

  lemma TotalTwo(threads: seq<Thread>, t: nat, u: nat)
    requires t < |threads| && u < |threads| && t != u
    ensures threads[t].refs + threads[u].refs <= Total(threads)
  {
    TotalPut(threads, t, Thread(0, Idle));
    TotalPut(threads[t := Thread(0, Idle)], u, Thread(0, Idle));
  }

  /** The count is exact until a drop reports destruction; a thread that saw one is the only owner. */
  ghost predicate Inv(s: State) {
    && s.destroys == (if Total(s.threads) == 0 then 1 else 0)
    && (s.destroys == 0 ==> s.count == Total(s.threads))
    && forall t :: 0 <= t < |s.threads| && s.threads[t].doing == Loaded(true)
        ==> s.threads[t].refs == 1 == Total(s.threads)
  }

  /** The threads other than `t` and what they saw are as before, and so is the total of `t` and the count. */
  lemma PutKeeps(s: State, t: nat, thread: Thread, count: int)
    requires Inv(s) && t < |s.threads| && s.threads[t].refs > 0 && s.threads[t].doing.Idle?
    requires thread.refs >= s.threads[t].refs
    requires count == s.count + thread.refs - s.threads[t].refs
    requires thread.doing == Loaded(true) ==> s.count == 1 && thread.refs == s.threads[t].refs
    ensures Inv(Put(s, t, thread).(count := count))
  {
    hide Total;
    TotalPut(s.threads, t, thread);
    forall v | 0 <= v < |s.threads| && v != t && s.threads[v].doing == Loaded(true) ensures false {
      TotalTwo(s.threads, t, v);
    }
  }

  lemma SendKeeps(s: State, t: nat, u: nat)
    requires Inv(s) && Enabled(s, Send(t, u))
    ensures Inv(Next(s, Send(t, u)))
  {
    hide Total;
    var thread := s.threads[t];
    var mid := s.threads[t := thread.(refs := thread.refs - 1)];
    TotalPut(s.threads, t, thread.(refs := thread.refs - 1));
    TotalPut(mid, u, s.threads[u].(refs := s.threads[u].refs + 1));
    forall v | 0 <= v < |s.threads| && v != t && s.threads[v].doing == Loaded(true) ensures false {
      TotalTwo(s.threads, t, v);
    }
  }

  /** A drop, after the count was seen to be one or by subtracting from it. */
  lemma DropKeeps(s: State, t: nat, sawOne: bool)
    requires Inv(s) && t < |s.threads| && s.threads[t].refs > 0
    requires sawOne ==> s.threads[t].doing == Loaded(true)
    requires !sawOne ==> s.threads[t].doing != Loaded(true)
    ensures Inv(if sawOne then Dropped(s, t, s.count, true) else Dropped(s, t, s.count - 1, s.count == 1))
  {
    hide Total;
    TotalPut(s.threads, t, Thread(s.threads[t].refs - 1, Idle));
    forall v | 0 <= v < |s.threads| && v != t && s.threads[v].doing == Loaded(true) ensures false {
      TotalTwo(s.threads, t, v);
    }
  }

  /** Every step keeps the invariant. */
  lemma StepKeeps(s: State, step: Step)
    requires Inv(s) && Enabled(s, step)
    ensures Inv(Next(s, step))
  {
    hide Inv;
    var t, thread := step.t, s.threads[step.t];
    match step {
      case Clone(_) => PutKeeps(s, t, thread.(refs := thread.refs + 1), s.count + 1);
      case Send(_, u) => SendKeeps(s, t, u);
      case Load(_) =>
        PutKeeps(s, t, thread.(doing := Loaded(s.count == 1)), s.count);
        assert Next(s, step) == Put(s, t, thread.(doing := Loaded(s.count == 1))).(count := s.count);
      case Subtract(_) => DropKeeps(s, t, thread.doing.one);
      case SubtractHigh(_) => DropKeeps(s, t, false);
      case CheckOne(_) =>
    }
  }

  // --- Runs --------------------------------------------------------------------------------------

  /** One reference, owned by thread `t`; the others own none. */
  ghost predicate Start(s: State, t: nat) {
    && t < |s.threads| && s.count == 1 && s.destroys == 0
    && forall u :: 0 <= u < |s.threads| ==> s.threads[u] == Thread(if u == t then 1 else 0, Idle)
  }

  ghost predicate Runs(s: State, steps: seq<Step>)
    decreases |steps|
  {
    steps == [] || (Enabled(s, steps[0]) && Runs(Next(s, steps[0]), steps[1..]))
  }

  ghost function After(s: State, steps: seq<Step>): State
    requires Runs(s, steps)
    decreases |steps|
  {
    if steps == [] then s else After(Next(s, steps[0]), steps[1..])
  }

  lemma {:induction false} TotalOfStart(threads: seq<Thread>, t: int)
    requires forall u :: 0 <= u < |threads| ==> threads[u] == Thread(if u == t then 1 else 0, Idle)
    ensures Total(threads) == if 0 <= t < |threads| then 1 else 0
  {
    if threads != [] {
      forall u | 0 <= u < |threads[1..]| ensures threads[1..][u] == Thread(if u == t - 1 then 1 else 0, Idle) {
        assert threads[1..][u] == threads[u + 1];
      }
      TotalOfStart(threads[1..], t - 1);
    }
  }

  lemma {:induction false} RunKeeps(s: State, steps: seq<Step>)
    requires Inv(s) && Runs(s, steps)
    ensures Inv(After(s, steps))
    decreases |steps|
  {
    if steps != [] {
      StepKeeps(s, steps[0]);
      RunKeeps(Next(s, steps[0]), steps[1..]);
    }
  }

  /**
  In every interleaving of any number of threads, destruction is reported exactly when no thread
  owns a reference any more, and it is reported once.
  */
  lemma DestroyedExactlyOnce(s: State, t: nat, steps: seq<Step>)
    requires Start(s, t) && Runs(s, steps)
    ensures
      var s' := After(s, steps);
      s'.destroys <= 1 && (s'.destroys == 1 <==> Total(s'.threads) == 0)
  {
    TotalOfStart(s.threads, t);
    assert Inv(s);
    RunKeeps(s, steps);
  }

  function Clones(steps: seq<Step>): nat {
    if steps == [] then 0 else (if steps[0].Clone? then 1 else 0) + Clones(steps[1..])
  }

  /** The drops that have been finished. */
  function Drops(steps: seq<Step>): nat {
    if steps == [] then 0 else (if steps[0].Subtract? || steps[0].SubtractHigh? then 1 else 0) + Drops(steps[1..])
  }

  /** A step adds what it clones and takes away what it drops. */
  lemma StepTotal(s: State, step: Step)
    requires Enabled(s, step)
    ensures Total(Next(s, step).threads) + Drops([step]) == Total(s.threads) + Clones([step])
  {
    hide Total;
    var thread := s.threads[step.t];
    TotalPut(s.threads, step.t, Next(s, step).threads[step.t]);
    assert s.threads[step.t := thread] == s.threads;
    if step.Send? {
      var mid := s.threads[step.t := thread.(refs := thread.refs - 1)];
      TotalPut(s.threads, step.t, thread.(refs := thread.refs - 1));
      TotalPut(mid, step.u, s.threads[step.u].(refs := s.threads[step.u].refs + 1));
    }
  }

  /** References are neither made nor lost but by cloning and dropping. */
  lemma {:induction false} RunTotal(s: State, steps: seq<Step>)
    requires Runs(s, steps)
    ensures Total(After(s, steps).threads) + Drops(steps) == Total(s.threads) + Clones(steps)
    decreases |steps|
  {
    hide Total;
    if steps != [] {
      StepTotal(s, steps[0]);
      RunTotal(Next(s, steps[0]), steps[1..]);
    }
  }

  /**
  In every interleaving, the references that are left are the first one and the clones without those
  dropped, and destruction has been reported exactly when as many were dropped as there ever were.
  */
  lemma DestroyedByTheLastDrop(s: State, t: nat, steps: seq<Step>)
    requires Start(s, t) && Runs(s, steps)
    ensures
      var s' := After(s, steps);
      && Total(s'.threads) + Drops(steps) == 1 + Clones(steps)
      && (s'.destroys == 1 <==> Drops(steps) == 1 + Clones(steps))
      && s'.destroys <= 1
  {
    hide Total;
    TotalOfStart(s.threads, t);
    RunTotal(s, steps);
    DestroyedExactlyOnce(s, t, steps);
  }

  /** No step of a thread other than `t` is enabled while `t` owns the only reference. */
  lemma OnlyOwnerActs(s: State, t: nat, step: Step)
    requires Inv(s) && t < |s.threads| && s.threads[t].refs == 1 == Total(s.threads) && Enabled(s, step)
    ensures step.t == t
  {
    if step.t != t {
      TotalTwo(s.threads, t, step.t);
    }
  }

  /**
  A thread that owns a reference and sees a count of one owns the only reference, and goes on
  doing so in every run in which it neither clones nor passes it on nor drops it.
  */
  lemma {:induction false} SeesOneIsAlone(s: State, t: nat, steps: seq<Step>)
    requires Inv(s) && Runs(s, steps) && t < |s.threads| && s.threads[t].refs > 0 && s.threads[t].doing.Idle?
    requires s.count == 1
    requires forall k :: 0 <= k < |steps| && steps[k].t == t ==> steps[k].CheckOne?
    ensures
      var s' := After(s, steps);
      s' == s && s.threads[t].refs == 1 == Total(s.threads)
    decreases |steps|
  {
    TotalPut(s.threads, t, s.threads[t]);
    assert s.threads[t := s.threads[t]] == s.threads;
    if steps != [] {
      OnlyOwnerActs(s, t, steps[0]);
      SeesOneIsAlone(s, t, steps[1..]);
    }
  }
}
