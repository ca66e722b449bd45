// The engine that drives one thread without a memory simulator: it advances the clock
// to the event of the thread's oldest operation, over and over.
module Driving {
  import opened Programs
  import opened ProgramOrder
  import opened OrderSafety
  import opened OrderRuns
  import opened Progress
  import opened Liveness

  // The cycle the engine advances to next.
  function NextStep(m: Machine): nat
    requires HeadInside(m)
  {
    var t := EventOf(m.ops[m.head]);
    if t > 0 then t else NEVER
  }

  predicate CanStep(m: Machine) {
    !m.isDone && HeadInside(m) && NextStep(m) >= m.now
  }

  // The thread after n steps of the engine, if it is not done before.
  ghost function Driven(s: Thread, n: nat): (m: Machine)
    requires Runnable(s)
    ensures InOrder(s, m)
  {
    hide InOrder, Start, Advance;
    if n == 0 then
      StartIsInOrder(s);
      Start(s)
    else
      var m := Driven(s, n - 1);
      if CanStep(m) then Advanced(s, m, NextStep(m)).0 else m
  }

  // The cache answers every load at once, later than it leaves, and has room.
  ghost predicate Prompt(s: Thread) {
    AnswersLater(s.l1) && AnswersAtOnce(s.l1) && BuffersFree(s)
  }

  // Between two steps.
  ghost predicate Steady(s: Thread, m: Machine) {
    InOrder(s, m) && Live(s, m) && (m.now == 0 || GoesOn(s, m))
  }

  // The next step reaches the oldest operation's event.
  lemma StepReaches(s: Thread, m: Machine)
    requires Steady(s, m) && Prompt(s) && !m.isDone
    ensures CanStep(m) && Reaches(m, NextStep(m))
  {
    hide InOrder, AnswersLater, BuffersFree, Settled, OpAt;
    HeadWaits(s, m);
  }

  lemma StepLeavesLess(s: Thread, m: Machine)
    requires Steady(s, m) && Prompt(s) && s.core.st == 1 && !m.isDone
    ensures CanStep(m) && var m' := Advanced(s, m, NextStep(m)).0;
      Steady(s, m') && m.head <= |m.ops| && m'.head <= |m'.ops| && Rest(m') < Rest(m)
  {
    hide Advanced, Keeps, Zones, Runnable, SentOnce, Listed, CountersExact, Exact, Settled;
    StepReaches(s, m);
    assert BuffersFree(s) && Unhurried(s);
    hide InOrder, Live, GoesOn, NextStep, Unhurried, BuffersFree, Prompt, Rest, Advance, EdgesInside, Able, Reaches;
    AdvanceLeavesLess(s, m, NextStep(m));
  }

  lemma {:induction false} DrivenLeavesLess(s: Thread, n: nat)
    requires Runnable(s) && Prompt(s) && s.core.st == 1
    ensures var m := Driven(s, n);
      Steady(s, m) && m.head <= |m.ops| == Total(s) && (m.isDone || Rest(m) + n <= 2 * Total(s))
  {
    hide Keeps, Live, GoesOn, NextStep, AnswersLater, AnswersAtOnce, BuffersFree, Start, Advance, EdgesInside, Able, CanStep, Exact;
    if n == 0 {
      StartIsLive(s);
      StartsAtZero(s);
      EndsWhenNothingIsLeft(s, Start(s));
    } else {
      DrivenLeavesLess(s, n - 1);
      var m := Driven(s, n - 1);
      if !m.isDone {
        StepLeavesLess(s, m);
      } else {
        assert !CanStep(m) by { DoneStops(m); }
      }
      EndsWhenNothingIsLeft(s, Driven(s, n));
    }
  }

  lemma DoneStops(m: Machine)
    requires m.isDone
    ensures !CanStep(m)
  {
  }

  lemma StartsAtZero(s: Thread)
    requires Runnable(s)
    ensures Start(s).now == 0 && Start(s).head <= |Start(s).ops|
  {
    FilledKeeps(s, Least(s.core.rob, Total(s)));
    hide Keeps, Filled, Exact;
  }

  // On a core that sends one store a cycle the engine brings every program to its end,
  // in at most two steps for every operation.
  lemma EngineFinishes(s: Thread)
    requires Runnable(s) && Prompt(s) && s.core.st == 1
    ensures Driven(s, 2 * Total(s)).isDone
  {
    hide InOrder, Driven, Steady, Prompt, Runnable, Total;
    DrivenLeavesLess(s, 2 * Total(s));
    EndsWhenNothingIsLeft(s, Driven(s, 2 * Total(s)));
  }
}
