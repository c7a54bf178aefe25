/** The reusable barrier, as a protocol between threads that call `wait` again and again.

    A call is two steps: `Arrive`, from taking the lock to returning or to going
    to sleep on the condition variable, and `Leave`, when a woken thread has the
    lock back and returns. The lock makes each step atomic. There are no
    spurious wake-ups. */
module Barrier {

  /** What a thread is doing: outside `wait`, asleep in it, or woken but not yet out. */
  datatype Phase = Outside | Asleep | Woken

  datatype Thread = Thread(phase: Phase, begun: nat, finished: nat)

  /** `calls` is the barrier's counter. */
  datatype System = System(calls: nat, threads: seq<Thread>)

  datatype Event = Arrive(t: nat) | Leave(t: nat)

  predicate Enabled(s: System, e: Event) {
    match e
    case Arrive(t) => t < |s.threads| && s.threads[t].phase == Outside
    case Leave(t) => t < |s.threads| && s.threads[t].phase == Woken
  }

  function WakeAll(threads: seq<Thread>): (r: seq<Thread>)
    ensures |r| == |threads|
    ensures forall u :: 0 <= u < |r| ==>
      r[u] == if threads[u].phase == Asleep then threads[u].(phase := Woken) else threads[u]
  {
    if threads == [] then []
    else
      var t := threads[|threads| - 1];
      WakeAll(threads[..|threads| - 1]) + [if t.phase == Asleep then t.(phase := Woken) else t]
  }

  function Step(s: System, e: Event, required: nat): (r: System)
    requires Enabled(s, e)
    ensures |r.threads| == |s.threads|
  {
    match e
    case Arrive(t) =>
      var me := s.threads[t];
      if s.calls + 1 != required then
        System(s.calls + 1, s.threads[t := Thread(Asleep, me.begun + 1, me.finished)])
      else
        System(0, WakeAll(s.threads)[t := Thread(Outside, me.begun + 1, me.finished + 1)])
    case Leave(t) =>
      var me := s.threads[t];
      System(s.calls, s.threads[t := Thread(Outside, me.begun, me.finished + 1)])
  }

  function Start(threads: nat): System {
    System(0, seq(threads, _ => Thread(Outside, 0, 0)))
  }

  /** All events of the run were possible when they happened. */
  predicate Possible(threads: nat, required: nat, es: seq<Event>)
    decreases |es|, 0
  {
    es == [] ||
    (Possible(threads, required, es[..|es| - 1])
     && Enabled(After(threads, required, es[..|es| - 1]), es[|es| - 1]))
  }

  function After(threads: nat, required: nat, es: seq<Event>): (s: System)
    requires Possible(threads, required, es)
    ensures |s.threads| == threads
    decreases |es|, 1
  {
    if es == [] then Start(threads)
    else Step(After(threads, required, es[..|es| - 1]), es[|es| - 1], required)
  }

  function CountAsleep(threads: seq<Thread>): (n: nat)
    ensures n <= |threads|
  {
    if threads == [] then 0
    else CountAsleep(threads[..|threads| - 1]) + if threads[|threads| - 1].phase == Asleep then 1 else 0
  }

  /** No thread has finished its k-th wait before every thread has begun its k-th. */
  ghost predicate Synchronised(s: System) {
    forall t, u :: 0 <= t < |s.threads| && 0 <= u < |s.threads| ==> s.threads[t].finished <= s.threads[u].begun
  }

  /** In generation `g` a thread has begun g waits, if asleep one more. */
  predicate InStep(t: Thread, g: nat) {
    match t.phase
    case Outside => t.begun == t.finished == g
    case Asleep => t.begun == g + 1 && t.finished == g
    case Woken => t.begun == g == t.finished + 1
  }

  ghost predicate InGeneration(s: System, g: nat, required: nat) {
    && s.calls == CountAsleep(s.threads) < required
    && forall t :: 0 <= t < |s.threads| ==> InStep(s.threads[t], g)
  }

  lemma {:induction false} CountUpdate(threads: seq<Thread>, t: nat, x: Thread)
    requires t < |threads|
    ensures CountAsleep(threads[t := x]) - (if x.phase == Asleep then 1 else 0)
         == CountAsleep(threads) - (if threads[t].phase == Asleep then 1 else 0)
  {
    var n := |threads|;
    if t < n - 1 {
      assert threads[t := x][..n - 1] == threads[..n - 1][t := x];
      CountUpdate(threads[..n - 1], t, x);
    } else {
      assert threads[t := x][..n - 1] == threads[..n - 1];
    }
  }

  /** If all but thread `t` must be asleep by count, they are. */
  lemma {:induction false} AllOthersAsleep(threads: seq<Thread>, t: nat)
    requires t < |threads| && threads[t].phase != Asleep
    ensures CountAsleep(threads) < |threads|
    ensures CountAsleep(threads) == |threads| - 1 ==>
      forall u :: 0 <= u < |threads| && u != t ==> threads[u].phase == Asleep
  {
    var init := threads[..|threads| - 1];
    if t < |init| {
      AllOthersAsleep(init, t);
    } else {
      AllAsleep(init);
    }
  }

  lemma {:induction false} AllAsleep(threads: seq<Thread>)
    ensures CountAsleep(threads) == |threads| <==> forall u :: 0 <= u < |threads| ==> threads[u].phase == Asleep
  {
    if threads != [] {
      AllAsleep(threads[..|threads| - 1]);
    }
  }

  lemma {:induction false} NoneAsleep(threads: seq<Thread>)
    requires forall u :: 0 <= u < |threads| ==> threads[u].phase != Asleep
    ensures CountAsleep(threads) == 0
  {
    if threads != [] {
      NoneAsleep(threads[..|threads| - 1]);
    }
  }

  /** The last thread to arrive wakes the others: the next generation. */
  lemma TripKept(s: System, t: nat, g: nat, required: nat)
    requires InGeneration(s, g, required) && Enabled(s, Arrive(t)) && |s.threads| <= required
    requires s.calls + 1 == required
    ensures InGeneration(Step(s, Arrive(t), required), g + 1, required)
  {
    AllOthersAsleep(s.threads, t);
    hide CountAsleep;
    NoneAsleep(Step(s, Arrive(t), required).threads);
  }

  /** Going to sleep and leaving stay in the generation. */
  lemma MoveKept(s: System, e: Event, g: nat, required: nat)
    requires InGeneration(s, g, required) && Enabled(s, e)
    requires e.Arrive? ==> s.calls + 1 != required
    ensures InGeneration(Step(s, e, required), g, required)
  {
    hide CountAsleep, WakeAll;
    CountUpdate(s.threads, e.t, Step(s, e, required).threads[e.t]);
  }

  lemma GenerationKept(s: System, e: Event, g: nat, required: nat)
    requires InGeneration(s, g, required) && Enabled(s, e) && |s.threads| <= required
    ensures InGeneration(Step(s, e, required), g, required) || InGeneration(Step(s, e, required), g + 1, required)
  {
    hide InGeneration, Step;
    if e.Arrive? && s.calls + 1 == required {
      TripKept(s, e.t, g, required);
    } else {
      MoveKept(s, e, g, required);
    }
  }

  lemma {:induction false} GenerationOf(threads: nat, required: nat, es: seq<Event>) returns (g: nat)
    requires threads <= required && required > 0 && Possible(threads, required, es)
    ensures InGeneration(After(threads, required, es), g, required)
  {
    if es == [] {
      g := 0;
      NoneAsleep(Start(threads).threads);
    } else {
      g := GenerationOf(threads, required, es[..|es| - 1]);
      var s := After(threads, required, es[..|es| - 1]);
      GenerationKept(s, es[|es| - 1], g, required);
      if !InGeneration(After(threads, required, es), g, required) {
        g := g + 1;
      }
    }
  }

  /** Over every interleaving of at most `required` threads: nobody is a wait
      ahead; the counter equals the number of sleepers and stays below `required`. */
  lemma {:induction false} BarrierSynchronises(threads: nat, required: nat, es: seq<Event>)
    requires threads <= required && required > 0 && Possible(threads, required, es)
    ensures var s := After(threads, required, es);
      Synchronised(s) && s.calls == CountAsleep(s.threads) < required
  {
    var g := GenerationOf(threads, required, es);
  }

  /** With exactly `required` threads some thread can always move: the barrier never blocks them all. */
  lemma {:induction false} NeverAllBlocked(required: nat, es: seq<Event>)
    requires required > 0 && Possible(required, required, es)
    ensures exists e :: Enabled(After(required, required, es), e)
  {
    var s := After(required, required, es);
    var g := GenerationOf(required, required, es);
    AllAsleep(s.threads);
    var u :| 0 <= u < |s.threads| && s.threads[u].phase != Asleep;
    assert Enabled(s, if s.threads[u].phase == Outside then Arrive(u) else Leave(u));
  }

  // --------------------------------------------------------------- progress

  lemma OneEventMore(threads: nat, required: nat, es: seq<Event>, e: Event)
    requires Possible(threads, required, es) && Enabled(After(threads, required, es), e)
    ensures Possible(threads, required, es + [e])
    ensures After(threads, required, es + [e]) == Step(After(threads, required, es), e, required)
  {
    assert (es + [e])[..|es|] == es;
  }

  /** A woken thread can return, and has then finished all the waits it has begun; nothing else changes. */
  lemma WokenReturns(threads: nat, required: nat, es: seq<Event>, t: nat)
    requires threads <= required && required > 0 && Possible(threads, required, es)
    requires t < threads && After(threads, required, es).threads[t].phase == Woken
    ensures Possible(threads, required, es + [Leave(t)])
    ensures var s, r := After(threads, required, es), After(threads, required, es + [Leave(t)]);
      && r.calls == s.calls
      && r.threads[t].phase == Outside && r.threads[t].finished == r.threads[t].begun == s.threads[t].begun
      && forall u :: 0 <= u < threads && u != t ==> r.threads[u] == s.threads[u]
  {
    var g := GenerationOf(threads, required, es);
    OneEventMore(threads, required, es, Leave(t));
  }

  function WorkOf(t: Thread): nat {
    match t.phase
    case Asleep => 0
    case Outside => 1
    case Woken => 2
  }

  /** Steps until all are asleep, if nobody wakes them. */
  function Work(threads: seq<Thread>): nat {
    if threads == [] then 0 else Work(threads[..|threads| - 1]) + WorkOf(threads[|threads| - 1])
  }

  lemma {:induction false} WorkUpdate(threads: seq<Thread>, t: nat, x: Thread)
    requires t < |threads|
    ensures Work(threads[t := x]) - WorkOf(x) == Work(threads) - WorkOf(threads[t])
  {
    var n := |threads|;
    if t < n - 1 {
      assert threads[t := x][..n - 1] == threads[..n - 1][t := x];
      WorkUpdate(threads[..n - 1], t, x);
    } else {
      assert threads[t := x][..n - 1] == threads[..n - 1];
    }
  }

  /** No thread has begun fewer waits than before. */
  ghost predicate Onward(s: System, r: System) {
    |s.threads| == |r.threads| && forall u :: 0 <= u < |s.threads| ==> s.threads[u].begun <= r.threads[u].begun
  }

  lemma StepOnward(s: System, e: Event, required: nat)
    requires Enabled(s, e)
    ensures Onward(s, Step(s, e, required))
    ensures (e.Arrive? ==> s.calls + 1 != required) ==> Work(Step(s, e, required).threads) < Work(s.threads)
  {
    if e.Leave? || s.calls + 1 != required {
      WorkUpdate(s.threads, e.t, Step(s, e, required).threads[e.t]);
    }
  }

  /** Woken threads return one after another. */
  lemma {:induction false} AllReturn(required: nat, es: seq<Event>) returns (more: seq<Event>)
    requires required > 0 && Possible(required, required, es)
    requires forall u :: 0 <= u < required ==> After(required, required, es).threads[u].phase != Asleep
    ensures Possible(required, required, es + more)
    ensures Onward(After(required, required, es), After(required, required, es + more))
    ensures forall u :: 0 <= u < required ==> After(required, required, es + more).threads[u].phase == Outside
    decreases Work(After(required, required, es).threads)
  {
    hide Possible, After, Step, Work;
    var s := After(required, required, es);
    more := [];
    assert es + more == es;
    if t :| 0 <= t < required && s.threads[t].phase == Woken {
      OneEventMore(required, required, es, Leave(t));
      WokenReturns(required, required, es, t);
      StepOnward(s, Leave(t), required);
      var rest := AllReturn(required, es + [Leave(t)]);
      more := [Leave(t)] + rest;
      assert es + more == es + [Leave(t)] + rest;
    }
  }

  /** Threads go on until the last one arrives. */
  lemma {:induction false} AllWake(required: nat, es: seq<Event>) returns (more: seq<Event>)
    requires required > 0 && Possible(required, required, es)
    ensures Possible(required, required, es + more)
    ensures Onward(After(required, required, es), After(required, required, es + more))
    ensures forall u :: 0 <= u < required ==> After(required, required, es + more).threads[u].phase != Asleep
    decreases Work(After(required, required, es).threads)
  {
    hide Possible, After, Work, InStep;
    var s := After(required, required, es);
    var g := GenerationOf(required, required, es);
    AllAsleep(s.threads);
    var u :| 0 <= u < required && s.threads[u].phase != Asleep;
    var e := if s.threads[u].phase == Outside then Arrive(u) else Leave(u);
    OneEventMore(required, required, es, e);
    StepOnward(s, e, required);
    if e.Arrive? && s.calls + 1 == required {
      more := [e];
    } else {
      var rest := AllWake(required, es + [e]);
      more := [e] + rest;
      assert es + more == es + [e] + rest;
    }
  }

  /** With exactly `required` threads every run can go on to a point where all are outside and
      have finished equally many waits, among them all those that they had begun. */
  lemma GenerationCompletes(required: nat, es: seq<Event>) returns (more: seq<Event>)
    requires required > 0 && Possible(required, required, es)
    ensures Possible(required, required, es + more)
    ensures var s, r := After(required, required, es), After(required, required, es + more);
      forall t, u :: 0 <= t < required && 0 <= u < required ==>
        && r.threads[t].phase == Outside
        && s.threads[u].begun <= r.threads[t].finished == r.threads[u].finished == r.threads[u].begun
  {
    hide Possible, After;
    var first := AllWake(required, es);
    var rest := AllReturn(required, es + first);
    more := first + rest;
    assert es + more == es + first + rest;
    var g := GenerationOf(required, required, es + more);
  }

  /** Threads 0 .. n - 1 arrive in turn. */
  function Arrivals(n: nat): (es: seq<Event>)
    ensures |es| == n
  {
    if n == 0 then [] else Arrivals(n - 1) + [Arrive(n - 1)]
  }

  lemma LastStep(threads: nat, required: nat, es: seq<Event>)
    requires es != [] && Possible(threads, required, es)
    ensures After(threads, required, es)
         == Step(After(threads, required, es[..|es| - 1]), es[|es| - 1], required)
  {
  }

  lemma {:induction false} ArrivalsSleep(threads: nat, required: nat, n: nat)
    requires n < required <= threads
    ensures Possible(threads, required, Arrivals(n))
    ensures var s := After(threads, required, Arrivals(n));
      && s.calls == n
      && forall u :: 0 <= u < threads ==>
           s.threads[u] == if u < n then Thread(Asleep, 1, 0) else Thread(Outside, 0, 0)
  {
    if n > 0 {
      ArrivalsSleep(threads, required, n - 1);
      hide WakeAll, Possible, After;
      OneEventMore(threads, required, Arrivals(n - 1), Arrive(n - 1));
    }
  }

  ghost predicate SafeFor(threads: nat, required: nat) {
    forall es :: Possible(threads, required, es) ==> Synchronised(After(threads, required, es))
  }

  lemma {:induction false} Overtaken(threads: nat, required: nat)
    requires 0 < required < threads
    ensures Possible(threads, required, Arrivals(required))
    ensures !Synchronised(After(threads, required, Arrivals(required)))
  {
    var es, last := Arrivals(required), Arrive(required - 1);
    ArrivalsSleep(threads, required, required - 1);
    assert es[..|es| - 1] == Arrivals(required - 1) && es[|es| - 1] == last;
    hide WakeAll, Arrivals, After;
    var s := After(threads, required, Arrivals(required - 1));
    TripGetsAhead(s, required - 1, required, required);
    assert After(threads, required, es) == Step(s, last, required) by {
      LastStep(threads, required, es);
    }
  }

  lemma TripGetsAhead(s: System, t: nat, u: nat, required: nat)
    requires Enabled(s, Arrive(t)) && u < |s.threads| && t != u && s.calls + 1 == required
    requires s.threads[t] == s.threads[u] == Thread(Outside, 0, 0)
    ensures !Synchronised(Step(s, Arrive(t), required))
  {
    var r := Step(s, Arrive(t), required);
    assert r.threads[t].finished == 1 && r.threads[u].begun == 0;
  }

  /** The bound on the number of threads is exact: with one thread more the
      first generation can finish without it. */
  lemma {:induction false} SafeExactlyUpToRequired(threads: nat, required: nat)
    requires required > 0
    ensures SafeFor(threads, required) <==> threads <= required
  {
    hide After, Synchronised;
    if threads <= required {
      forall es | Possible(threads, required, es)
        ensures Synchronised(After(threads, required, es))
      {
        BarrierSynchronises(threads, required, es);
      }
    } else {
      Overtaken(threads, required);
    }
  }

  /** The barrier object. `system` is the protocol state that the calls so far have led to. */
  class Barrier {
    const required: nat
    var calls: nat
    ghost var system: System

    ghost predicate Valid()
      reads this
    {
      calls == system.calls
    }

    constructor (required: nat, ghost threads: nat)
      ensures Valid() && this.required == required && system == Start(threads)
    {
      this.required, calls := required, 0;
      system := Start(threads);
    }

    /** The critical section of `wait` by thread `t`, up to going to sleep or returning. */
    method Wait(ghost t: nat) returns (sleeps: bool)
      requires Valid() && Enabled(system, Arrive(t))
      modifies this`calls, this`system
      ensures Valid() && system == Step(old(system), Arrive(t), required)
      ensures sleeps <==> system.threads[t].phase == Asleep
      ensures sleeps <==> old(calls) + 1 != required
      ensures calls == if sleeps then old(calls) + 1 else 0
    {
      calls := calls + 1;
      if calls != required {
        sleeps := true;
      } else {
        calls := 0;
        sleeps := false;
      }
      system := Step(system, Arrive(t), required);
    }
  }
}
