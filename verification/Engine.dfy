// The engine's loop over one thread, without a memory simulator: on a core that sends one
// store a cycle it ends, and with it every operation of the program has retired.
module Engines {
  import opened Programs
  import opened ProgramOrder
  import opened OrderSafety
  import opened OrderRuns
  import opened Progress
  import opened Driving
  import opened Contexts

  // Not done yet: the next step is there, and few steps have been taken.
  lemma NotDoneYet(s: Thread, n: nat)
    requires Runnable(s) && Prompt(s) && s.core.st == 1 && !Driven(s, n).isDone
    ensures var m := Driven(s, n);
      && n < 2 * Total(s) && CanStep(m) && Driven(s, n + 1) == Advanced(s, m, NextStep(m)).0
  {
    hide Steady, Prompt, CanStep, Runnable, Advance;
    DrivenLeavesLess(s, n);
    StepLeavesLess(s, Driven(s, n));
  }

  lemma StartsDriven(s: Thread)
    requires Runnable(s)
    ensures var m := Driven(s, 0); m == Start(s) && !m.isDone && HeadInside(m)
  {
    assert Total(s) >= 1 by { LastHasNoEdges(s); }
    FilledKeeps(s, Least(s.core.rob, Total(s)));
    hide CountersExact, Listed, Zones, SentOnce, Filled, Exact, Prompt, PortsOpen;
  }

  // An advance tells whether it was the last one.
  lemma DoneIsTold(s: Thread, m: Machine, t: nat)
    requires InOrder(s, m) && t >= m.now && !m.isDone
    ensures var (m', done) := Advanced(s, m, t); done == m'.isDone
  {
    hide CountersExact, Listed, Zones, SentOnce, Exact, PortsOpen, Advance, EdgesInside;
    var (m', done) := Advanced(s, m, t);
    AdvanceKeeps(s, m, t);
  }

  method AskNextStep(ctx: Context, ghost s: Thread, ghost m: Machine) returns (t: nat)
    requires ctx.Shows(s, m) && ctx.Full(s) && HeadInside(m)
    ensures t == NextStep(m)
  {
    hide Context.Shows, Context.Full;
    t := ctx.GetNextEvent(false, s, m);
    if t == 0 {
      t := NEVER;
    }
  }

  // Engine::exec_node_longstep
  method ExecNode(ctx: Context, ghost s: Thread) returns (steps: nat, panic: bool)
    requires ctx.Runs(s) && ctx.Unfilled() && Prompt(s) && s.core.st == 1
    modifies ctx
    ensures !panic && Runnable(s) && steps <= 2 * Total(s)
    ensures Driven(s, steps).isDone && ctx.isDone && ctx.Shows(s, Driven(s, steps))
  {
    hide Context.Shows, Context.Runs, Context.Full, Runnable, Prompt, Driven, Advance, InOrder, EdgesInside, Total, NextStep, Able;
    ctx.ThreadRuns(s);
    ctx.InitWindow(s);
    StartsDriven(s);
    steps, panic := 0, false;
    ghost var m := Driven(s, 0);
    var done := false;
    var nextStep := AskNextStep(ctx, s, m);
    while !done
      invariant !panic && ctx.Shows(s, m) && ctx.Full(s) && m == Driven(s, steps) && done == m.isDone && steps <= 2 * Total(s)
      invariant !done ==> HeadInside(m) && nextStep == NextStep(m)
      decreases 2 * Total(s) - steps, !done
    {
      NotDoneYet(s, steps);
      DoneIsTold(s, m, nextStep);
      done, panic := ctx.Advance(nextStep, s, m);
      m := Advanced(s, m, nextStep).0;
      steps := steps + 1;
      if !done {
        NotDoneYet(s, steps);
        nextStep := AskNextStep(ctx, s, m);
      }
    }
    ctx.Clock(s, m);
  }
}
