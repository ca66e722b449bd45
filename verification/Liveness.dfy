// Whole runs go on: what is left to do shrinks whenever the clock reaches the oldest
// operation's event, so a run ends after so many of these at the latest.
module Liveness {
  import opened Wrappers
  import opened Programs
  import opened ProgramOrder
  import opened OrderSafety
  import opened OrderRuns
  import opened Progress

  // ---- The start ----

  lemma DispatchElsewhere(s: Thread, m: Machine, p: nat)
    requires Able(s, m) && p < |m.ops|
    ensures |Dispatch(s, m, p).ops| == |m.ops|
    ensures forall q :: 0 <= q < |m.ops| && q != p ==> Dispatch(s, m, p).ops[q] == m.ops[q]
  {
    hide PortsOpen, TakeAlu, OpAt, Total;
  }

  lemma NewIsUntouched(s: Thread, n: nat)
    requires Runnable(s) && n < Total(s)
    ensures !Started(Filled(s, n).ops[n])
  {
    hide Runnable, InDegree;
    FilledKeeps(s, n);
    hide CountersExact, Listed, SentOnce, Exact, PortsOpen, OpAt, Filled;
  }

  lemma UnstartedIsSettled(s: Thread)
    requires Runnable(s)
    ensures Settled(s, Unstarted(s)) && Told(s, Unstarted(s))
  {
    hide Exact, OpAt, Total, BuffersFree, AnswersAtOnce;
  }

  // The operations taken up so far wait for something, the first one among them.
  ghost predicate Filling(s: Thread, m: Machine, n: nat) {
    && m.now == 0 && m.head == 0 && Settled(s, m) && Told(s, m)
    && (0 < n <= |m.ops| ==> m.ops[0].status != Completed && m.nextEvent <= EventOf(m.ops[0]))
  }

  lemma FillingGoesOn(s: Thread, m: Machine, m1: Machine, n: nat)
    requires Filling(s, m, n) && n < |m.ops| && TakesUp(s, m, m1) && m1.head == 0 && m1.nextEvent == m.nextEvent
    requires !Started(m.ops[n])
    requires forall q :: 0 <= q < |m.ops| && q != n ==> m1.ops[q] == m.ops[q]
    ensures Filling(s, m1.(nextEvent := Least(EventOf(m1.ops[n]), m1.nextEvent)), n + 1)
  {
    hide AnswersAtOnce, BuffersFree, AllAfter;
  }

  lemma DispatchKeepsEvent(s: Thread, m: Machine, p: nat)
    requires Able(s, m) && p < |m.ops|
    ensures Dispatch(s, m, p).nextEvent == m.nextEvent
  {
    hide PortsOpen, TakeAlu, OpAt, Total;
  }

  lemma {:induction false} FilledIsFilling(s: Thread, n: nat)
    requires Runnable(s) && Unhurried(s) && n <= Total(s)
    ensures Filling(s, Filled(s, n), n) && |Filled(s, n).ops| == Total(s) && Filled(s, n).head == 0
    decreases n
  {
    hide Exact, Dispatch, PortsOpen, OpAt, Unhurried, Filling, TakesUp, Started;
    if n == 0 {
      UnstartedIsSettled(s);
      assert Filling(s, Unstarted(s), 0) by { NothingFilled(s); }
    } else {
      FilledIsFilling(s, n - 1);
      NewIsUntouched(s, n - 1);
      var m := Filled(s, n - 1);
      DispatchTakesUp(s, m, n - 1);
      DispatchElsewhere(s, m, n - 1);
      DispatchKeepsEvent(s, m, n - 1);
      FillingGoesOn(s, m, Dispatch(s, m, n - 1), n - 1);
    }
  }

  lemma NothingFilled(s: Thread)
    requires |s.prog.ops| > 0 && Settled(s, Unstarted(s)) && Told(s, Unstarted(s))
    ensures Filling(s, Unstarted(s), 0)
  {
    hide Settled, Told;
  }

  lemma StartIsLive(s: Thread)
    requires Runnable(s) && Unhurried(s)
    ensures InOrder(s, Start(s)) && Live(s, Start(s))
  {
    hide Zones, SentOnce, Listed, CountersExact, InDegree;
    StartIsInOrder(s);
    LastHasNoEdges(s);
    hide Keeps, Filled, Exact, Unhurried, Settled, Told, OpAt;
    FilledIsFilling(s, Least(s.core.rob, Total(s)));
  }

  // ---- Runs ----

  lemma LoadedIsLive(s: Thread, m: Machine, p: nat, complete: nat)
    requires Live(s, m) && Possible(m, Loaded(p, complete))
    ensures Live(s, CompleteOp(m, p, complete)) && Onward(m, CompleteOp(m, p, complete))
  {
    hide InOrder, AnswersAtOnce, BuffersFree, OpAt, AllAfter;
  }

  // What is left to do: every operation has to leave and to retire.
  function Rest(m: Machine): nat
    requires m.head <= |m.ops|
  {
    2 * (|m.ops| - m.head) - if HeadInside(m) && Started(m.ops[m.head]) then 1 else 0
  }

  lemma OnwardLeavesLess(m: Machine, m': Machine)
    requires Onward(m, m') && m.head <= |m.ops| && m'.head <= |m'.ops|
    ensures Rest(m') <= Rest(m)
    ensures m'.head > m.head ==> Rest(m') < Rest(m)
    ensures HeadInside(m) && Started(m'.ops[m.head]) && !Started(m.ops[m.head]) ==> Rest(m') < Rest(m)
  {
  }

  // The clock has reached the oldest operation's event.
  predicate Reaches(m: Machine, t: nat) {
    HeadInside(m) && !AwaitsMemory(m) && EventOf(m.ops[m.head]) <= t
  }

  lemma {:induction false} SweepMovesAhead(s: Thread, m: Machine, p: nat, n: nat)
    requires Able(s, m) && m.head <= p && p + n <= |m.ops| && s.core.rob >= 1
    requires forall q :: 0 <= q < Total(s) ==> EdgesInside(s, q)
    ensures var r := Sweep(s, m, p, n);
      r.Ok? ==> r.value.head >= m.head && (n > 0 && Leaves(m, p) ==> r.value.head > m.head)
    decreases n
  {
    hide Visit, PortsOpen, EdgesInside, OpAt;
    if n > 0 && Visit(s, m, p).Ok? {
      SweepMovesAhead(s, Visit(s, m, p).value, p + 1, n - 1);
    }
  }

  // An operation that is due when the clock gets to t retires.
  lemma HeadRetires(s: Thread, m: Machine, t: nat)
    requires InOrder(s, m) && Unhurried(s) && t >= m.now && Live(s, m) && !m.isDone && HeadInside(m)
    requires m.ops[m.head].status == Dispatched && 0 < m.ops[m.head].complete <= t
    ensures Advanced(s, m, t).0.head > m.head
  {
    hide CountersExact, Listed, Zones, SentOnce, Exact, PortsOpen, RetryLoads, RetryStores, Sweep, NextEvent, EdgesInside, Unhurried,
         Told, Settled, OpAt, Later;
    var m' := Advanced(s, m, t).0;
    OfferSends(s, m, t);
    var m1 := Offer(s, m, t);
    var m2 := m1.(hasCompleteOp := false);
    assert SameCourse(m.ops[m.head], m1.ops[m.head]);
    SweepMovesAhead(s, m2, m2.head, RobLoad(s, m2));
  }

  // An operation that may leave when the clock gets to t leaves.
  lemma HeadIsSent(s: Thread, m: Machine, t: nat)
    requires InOrder(s, m) && Unhurried(s) && BuffersFree(s) && t >= m.now && Live(s, m) && !m.isDone && HeadInside(m)
    requires m.ops[m.head].status == Pending && m.ops[m.head].dispatch <= t
    ensures m.head < |Advanced(s, m, t).0.ops| && Started(Advanced(s, m, t).0.ops[m.head])
  {
    hide CountersExact, Listed, Zones, SentOnce, Exact, PortsOpen, RetryLoads, RetryStores, Sweep, NextEvent, EdgesInside, Unhurried,
         Told, Settled, OpAt, Later, RobLoad, AwaitsBuffer, BuffersFree;
    var m' := Advanced(s, m, t).0;
    OfferSends(s, m, t);
    var m1 := Offer(s, m, t);
    HeadWaits(s, m1);
    assert Started(m1.ops[m.head]);
    SweepIsLive(s, m1);
  }

  // An advance leaves no more to do, and less when it reaches the event.
  lemma AdvanceLeavesLess(s: Thread, m: Machine, t: nat)
    requires InOrder(s, m) && Unhurried(s) && t >= m.now && Live(s, m)
    ensures var m' := Advanced(s, m, t).0;
      && Live(s, m') && GoesOn(s, m') && m.head <= |m.ops| && m'.head <= |m'.ops| && Rest(m') <= Rest(m)
      && (BuffersFree(s) && !m.isDone && Reaches(m, t) ==> Rest(m') < Rest(m))
  {
    hide InOrder, Advance, EdgesInside, Unhurried, Told, Settled, OpAt, Onward, BuffersFree, Rest, GoesOn, Able;
    var m' := Advanced(s, m, t).0;
    AdvanceIsLive(s, m, t);
    HeadInProgram(s, m');
    OnwardLeavesLess(m, m');
    if BuffersFree(s) && !m.isDone && Reaches(m, t) {
      HeadWaits(s, m);
      AdvanceIsOnward(s, m, t);
      if m.ops[m.head].status == Pending {
        HeadIsSent(s, m, t);
      } else {
        HeadRetires(s, m, t);
      }
    }
  }

  lemma AdvanceIsOnward(s: Thread, m: Machine, t: nat)
    requires InOrder(s, m) && Unhurried(s) && t >= m.now && Live(s, m)
    ensures Onward(m, Advanced(s, m, t).0)
  {
    hide InOrder, Advance, EdgesInside, Unhurried, Live, Onward, Able;
    var m' := Advanced(s, m, t).0;
    AdvanceIsLive(s, m, t);
  }

  // How many advances of a run reach the oldest operation's event before the end.
  ghost function Reached(s: Thread, m: Machine, events: seq<Event>): nat
    requires InOrder(s, m)
    decreases |events|
  {
    hide InOrder;
    if events == [] then 0
    else if !Possible(m, events[0]) then Reached(s, m, events[1..])
    else
      match events[0]
      case AdvanceTo(t) =>
        (if !m.isDone && Reaches(m, t) then 1 else 0) + Reached(s, Advanced(s, m, t).0, events[1..])
      case Loaded(p, complete) =>
        CompletionTimeKeeps(s, m, p, complete);
        Reached(s, CompleteOp(m, p, complete), events[1..])
  }

  // Along a run: as often as the clock reaches the oldest operation's event, so much
  // less is left to do.
  lemma {:induction false} RunLeavesLess(s: Thread, m: Machine, events: seq<Event>)
    requires InOrder(s, m) && Unhurried(s) && Live(s, m)
    ensures var m' := Run(s, m, events).value;
      && Live(s, m') && m.head <= |m.ops| && m'.head <= |m'.ops|
      && (BuffersFree(s) ==> Rest(m') + Reached(s, m, events) <= Rest(m))
    decreases |events|
  {
    hide InOrder, Live, Unhurried, BuffersFree, Rest, Advance, EdgesInside, Able, Reaches, Keeps, Zones, Runnable,
         SentOnce, Listed, CountersExact, Exact, Settled, GoesOn;
    HeadInProgram(s, m);
    if events != [] {
      if !Possible(m, events[0]) {
        RunLeavesLess(s, m, events[1..]);
      } else {
        match events[0]
        case AdvanceTo(t) =>
          AdvanceLeavesLess(s, m, t);
          RunLeavesLess(s, Advanced(s, m, t).0, events[1..]);
        case Loaded(p, complete) =>
          CompletionTimeKeeps(s, m, p, complete);
          LoadedIsLive(s, m, p, complete);
          var m1 := CompleteOp(m, p, complete);
          HeadInProgram(s, m1);
          OnwardLeavesLess(m, m1);
          RunLeavesLess(s, m1, events[1..]);
      }
    }
  }

  // On a core that sends one store a cycle, when loads take time, no run gets stuck.
  // After every advance the run is over, or its oldest operation waits for the memory or
  // for a line-fill buffer, or its event is still to come and the context knows of one
  // that is no later. When the clock reaches a completion the oldest operation retires.
  lemma EveryRunGoesOn(s: Thread, events: seq<Event>, t: nat)
    requires Runnable(s) && Unhurried(s)
    ensures var m := RunThread(s, events).value;
      t >= m.now ==>
        var m' := Advanced(s, m, t).0;
        && GoesOn(s, m')
        && (!m.isDone && HeadInside(m) && m.ops[m.head].status == Dispatched && 0 < m.ops[m.head].complete <= t ==>
              m'.head > m.head)
        && (BuffersFree(s) && !m.isDone && HeadInside(m) && m.ops[m.head].status == Pending && m.ops[m.head].dispatch <= t ==>
              m.head < |m'.ops| && Started(m'.ops[m.head]))
  {
    hide InOrder, Live, Unhurried, BuffersFree, Run, Start, Advance, EdgesInside, Able, Rest, GoesOn, Started;
    StartIsLive(s);
    RunLeavesLess(s, Start(s), events);
    var m := RunThread(s, events).value;
    if t >= m.now {
      AdvanceLeavesLess(s, m, t);
      if !m.isDone && HeadInside(m) && m.ops[m.head].status == Dispatched && 0 < m.ops[m.head].complete <= t {
        HeadRetires(s, m, t);
      }
      if BuffersFree(s) && !m.isDone && HeadInside(m) && m.ops[m.head].status == Pending && m.ops[m.head].dispatch <= t {
        HeadIsSent(s, m, t);
      }
    }
  }

  // It ends: the clock can reach the event of an oldest operation at most twice for every
  // operation of the program, and after that many times everything has retired.
  lemma EveryRunEnds(s: Thread, events: seq<Event>)
    requires Runnable(s) && Unhurried(s) && BuffersFree(s)
    ensures InOrder(s, Start(s)) && Reached(s, Start(s), events) <= 2 * Total(s)
    ensures Reached(s, Start(s), events) == 2 * Total(s) ==> RunThread(s, events).value.isDone
  {
    hide Reached, Filled, Zones, Runnable, SentOnce, Listed, CountersExact, Settled, Told;
    StartIsLive(s);
    RunLeavesLess(s, Start(s), events);
    EndsWhenNothingIsLeft(s, RunThread(s, events).value);
    hide Keeps, Live, Unhurried, BuffersFree, Run, Start, Exact;
  }

  lemma EndsWhenNothingIsLeft(s: Thread, m: Machine)
    requires InOrder(s, m) && m.head <= |m.ops|
    ensures |m.ops| == Total(s) && (Rest(m) == 0 ==> m.isDone)
  {
    hide CountersExact, Listed, Zones, SentOnce, Exact, PortsOpen;
  }
}
