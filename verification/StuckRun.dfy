// Loads and a store that get stuck on every core that can send two stores a cycle: the
// store enters the reorder window behind the sweep and completes in that very cycle.
module StuckRun {
  import opened Wrappers
  import opened ExecGraph
  import opened Programs
  import opened ProgramOrder
  import opened OrderSafety
  import opened OrderRuns
  import opened Progress
  import opened Driving

  // As many loads as the reorder window holds, then one store; nothing to compute and
  // no edges.
  function HangingOps(rob: nat): (ops: seq<ProgramOp>)
    ensures |ops| == rob + 1
  {
    seq(rob + 1, i => ProgramOp(if i < rob then LOAD else STORE, 0, 0, []))
  }

  // The cycle in which all the loads are complete.
  function AllDone(rob: nat): nat {
    rob + 1
  }

  function HangingCache(rob: nat): Cache {
    Cache(k => 0, (k, t) => Latest(t, rob) + 1)
  }

  function HangingThread(core: Core): Thread {
    Thread(Program(HangingOps(core.rob)), 1, core, HangingCache(core.rob))
  }

  predicate WideStore(core: Core) {
    core.rob >= 1 && core.lfb >= 1 && core.alu >= 1 && core.ld >= 1 && core.st >= 2 && AllDone(core.rob) < NEVER
  }

  lemma {:induction false} NoEdges(prog: Program, n: nat, q: nat)
    requires n <= |prog.ops| && forall i :: 0 <= i < |prog.ops| ==> prog.ops[i].next == []
    ensures InDegree(prog, n, q) == 0
    decreases n
  {
    if n > 0 {
      NoEdges(prog, n - 1, q);
    }
  }

  lemma HangingIsRunnable(core: Core)
    requires WideStore(core)
    ensures var s := HangingThread(core); Runnable(s) && Prompt(s) && Total(s) == core.rob + 1
  {
    var s := HangingThread(core);
    forall q | 0 <= q < |s.prog.ops| ensures s.prog.ops[q].prev == InDegree(s.prog, |s.prog.ops|, q) {
      NoEdges(s.prog, |s.prog.ops|, q);
    }
  }

  lemma OpIs(core: Core, p: nat)
    requires p <= core.rob
    ensures OpAt(HangingThread(core), p) == ProgramOp(if p < core.rob then LOAD else STORE, 0, 0, [])
  {
  }

  // ---- The first fill ----

  // The first n loads have left.
  ghost predicate Loading(core: Core, m: Machine, n: nat) {
    && |m.ops| == core.rob + 1 && m.now == 0 && m.head == 0 && m.pendingLd == [] && m.pendingSt == []
    && !m.hasCompleteOp && !m.isDone && (n > 0 ==> m.nextEvent == AllDone(core.rob))
    && m.ports.tSt == 1 && m.ports.availSt == core.st && 1 <= m.ports.tLd <= n + 1
    && (forall p :: 0 <= p < n && p <= core.rob ==> m.ops[p].status == Dispatched && m.ops[p].complete == AllDone(core.rob))
    && (forall p :: n <= p <= core.rob ==> m.ops[p] == OpState(Issued, 0, 0, 0, 0))
  }

  lemma LoadLeaves(core: Core, m: Machine, p: nat)
    requires WideStore(core) && Loading(core, m, p) && p < core.rob && Able(HangingThread(core), m)
    requires p == 0 ==> m.nextEvent == NEVER
    ensures var m' := Dispatch(HangingThread(core), m, p);
      Loading(core, m'.(nextEvent := Least(EventOf(m'.ops[p]), m'.nextEvent)), p + 1)
  {
    OpIs(core, p);
    hide HangingOps;
  }

  lemma {:induction false} FilledIsLoading(core: Core, n: nat)
    requires WideStore(core) && n <= core.rob
    ensures var s := HangingThread(core);
      && Runnable(s) && n <= Total(s) && Loading(core, Filled(s, n), n)
      && (n == 0 ==> Filled(s, n).nextEvent == NEVER)
    decreases n
  {
    hide HangingThread, Loading, Runnable, Prompt, Dispatch, PortsOpen, Total, Exact, Able, InDegree;
    HangingIsRunnable(core);
    var s := HangingThread(core);
    if n == 0 {
      NothingLoaded(core);
    } else {
      FilledIsLoading(core, n - 1);
      LoadLeaves(core, Filled(s, n - 1), n - 1);
    }
  }

  lemma StartIsLoading(core: Core)
    requires WideStore(core)
    ensures var s := HangingThread(core); Runnable(s) && Prompt(s) && InOrder(s, Start(s)) && Loading(core, Start(s), core.rob)
  {
    hide Filled, Keeps, Loading, Exact, HangingOps, HangingCache, Prompt;
    HangingIsRunnable(core);
    FilledIsLoading(core, core.rob);
    StartIsInOrder(HangingThread(core));
  }

  lemma NothingLoaded(core: Core)
    requires WideStore(core)
    ensures Loading(core, Unstarted(HangingThread(core)), 0)
  {
    var s := HangingThread(core);
    forall p | 0 <= p <= core.rob ensures FreshOp(s, p) == OpState(Issued, 0, 0, 0, 0) {
      OpIs(core, p);
    }
  }

  // ---- The advance to their completion ----

  // The first n loads have retired, and behind the sweep the store has completed.
  ghost predicate Retiring(core: Core, m: Machine, n: nat) {
    var c := AllDone(core.rob);
    && |m.ops| == core.rob + 1 && m.now == c && m.head == n <= core.rob && m.pendingLd == [] && m.pendingSt == []
    && !m.hasCompleteOp && !m.isDone
    && (forall p :: 0 <= p < n ==> m.ops[p].status == Completed)
    && (forall p :: n <= p < core.rob ==> m.ops[p].status == Dispatched && m.ops[p].complete == c)
    && (if n == 0 then m.ops[core.rob] == OpState(Issued, 0, 0, 0, 0) && m.ports.tSt == 1 && m.ports.availSt == core.st
        else m.ops[core.rob].status == Dispatched && m.ops[core.rob].complete == c)
  }

  // The store enters and leaves at once.
  lemma StoreLeaves(core: Core, m: Machine)
    requires WideStore(core) && Able(HangingThread(core), m) && |m.ops| == core.rob + 1 && m.now == AllDone(core.rob)
    requires m.ops[core.rob] == OpState(Issued, 0, 0, 0, 0) && m.ports.tSt == 1 && m.ports.availSt == core.st
    ensures var m' := Dispatch(HangingThread(core), m, core.rob);
      && m'.ops[core.rob].status == Dispatched && m'.ops[core.rob].complete == AllDone(core.rob)
      && m' == m.(ops := m.ops[core.rob := m'.ops[core.rob]], ports := m'.ports, sent := m'.sent)
  {
    OpIs(core, core.rob);
    hide HangingOps;
  }

  lemma LoadRetires(core: Core, m: Machine, n: nat)
    requires WideStore(core) && Able(HangingThread(core), m) && Retiring(core, m, n) && n < core.rob
    ensures var r := Visit(HangingThread(core), m, n); r.Ok? && Retiring(core, r.value, n + 1)
  {
    OpIs(core, n);
    var m1 := m.(ops := m.ops[n := m.ops[n].(status := Completed)], head := n + 1);
    hide HangingOps, Dispatch, PortsOpen;
    if n == 0 {
      assert Able(HangingThread(core), m1);
      StoreLeaves(core, m1);
    }
  }

  lemma {:induction false} SweepRetires(core: Core, m: Machine, n: nat, left: nat)
    requires WideStore(core) && Able(HangingThread(core), m) && Retiring(core, m, n) && n + left == core.rob
    requires forall q :: 0 <= q < Total(HangingThread(core)) ==> EdgesInside(HangingThread(core), q)
    ensures var r := Sweep(HangingThread(core), m, n, left); r.Ok? && Retiring(core, r.value, core.rob)
    decreases left
  {
    hide HangingOps, Visit, PortsOpen, EdgesInside;
    if left > 0 {
      LoadRetires(core, m, n);
      SweepRetires(core, Visit(HangingThread(core), m, n).value, n + 1, left - 1);
    }
  }

  // ---- Stuck ----

  // Nothing is left that could make the context look at its window again.
  ghost predicate Stuck(core: Core, m: Machine) {
    && |m.ops| == core.rob + 1 && m.head == core.rob && AllDone(core.rob) <= m.now < NEVER
    && m.pendingLd == [] && m.pendingSt == [] && !m.hasCompleteOp && !m.isDone && m.nextEvent == NEVER
    && (forall p :: 0 <= p < core.rob ==> m.ops[p].status == Completed)
    && m.ops[core.rob].status == Dispatched && m.ops[core.rob].complete == AllDone(core.rob)
  }

  // With no request waiting and nothing due only the clock moves.
  lemma OnlyClockMoves(s: Thread, m: Machine, t: nat)
    requires InOrder(s, m) && m.pendingLd == [] && m.pendingSt == [] && !m.isDone && !m.hasCompleteOp && t >= m.now
    requires m.nextEvent > t
    ensures Advanced(s, m, t).0 == m.(now := t)
  {
    hide Keeps, EdgesInside, PortsOpen, Exact, Sweep, NextEvent;
    var m' := Advanced(s, m, t).0;
  }

  // With no request waiting an advance is a sweep.
  lemma OnlySweeps(s: Thread, m: Machine, t: nat, m3: Machine)
    requires InOrder(s, m) && m.pendingLd == [] && m.pendingSt == [] && !m.isDone && !m.hasCompleteOp && t >= m.now
    requires m.nextEvent <= t && Able(s, m.(now := t)) && m.head <= |m.ops| && s.core.rob >= 1 && m3.head <= |m3.ops|
    requires forall q :: 0 <= q < Total(s) ==> EdgesInside(s, q)
    requires Sweep(s, m.(now := t), m.head, RobLoad(s, m)) == Ok(m3)
    ensures Advanced(s, m, t).0 == m3.(nextEvent := NextEvent(m3, m3.head, RobLoad(s, m3), NEVER))
  {
    hide InOrder, EdgesInside, PortsOpen, Sweep, NextEvent;
    var m1 := Offer(s, m, t);
    assert m1 == m1.(hasCompleteOp := false) == m.(now := t);
  }

  lemma AdvanceGetsStuck(core: Core, m: Machine)
    requires WideStore(core) && InOrder(HangingThread(core), m) && Loading(core, m, core.rob)
    ensures var m' := Advanced(HangingThread(core), m, AllDone(core.rob)).0; Stuck(core, m') && m'.now == AllDone(core.rob)
  {
    hide Advanced, SentOnce, Listed, CountersExact, Exact, InDegree;
    var s, t := HangingThread(core), AllDone(core.rob);
    LoadingIsAble(s, core, m);
    hide HangingThread, InOrder, Sweep, EdgesInside, Able, Advance, NextEvent;
    var m2 := m.(now := t);
    LoadingRetires(core, m, t);
    assert RobLoad(s, m) == core.rob;
    SweepRetires(core, m2, 0, core.rob);
    var m3 := Sweep(s, m2, 0, core.rob).value;
    assert RobLoad(s, m3) == 1;
    OneEvent(m3, core.rob);
    OnlySweeps(s, m, t, m3);
  }

  lemma LoadingRetires(core: Core, m: Machine, t: nat)
    requires WideStore(core) && Loading(core, m, core.rob) && t == AllDone(core.rob)
    ensures Retiring(core, m.(now := t), 0)
  {
  }

  lemma LoadingIsAble(s: Thread, core: Core, m: Machine)
    requires InOrder(s, m) && s == HangingThread(core)
    ensures Able(s, m) && s.core == core && |m.ops| == Total(s)
  {
    hide CountersExact, Listed, Zones, SentOnce, Exact, HangingOps, HangingCache;
  }

  lemma OneEvent(m: Machine, p: nat)
    requires p + 1 == |m.ops| && EventOf(m.ops[p]) <= m.now
    ensures NextEvent(m, p, 1, NEVER) == NEVER
  {
    assert NextEvent(m, p + 1, 0, NEVER) == NEVER;
  }

  // From then on only the clock moves.
  lemma StaysStuck(core: Core, m: Machine, t: nat)
    requires InOrder(HangingThread(core), m) && Stuck(core, m) && m.now <= t < NEVER
    ensures Advanced(HangingThread(core), m, t).0 == m.(now := t) && Stuck(core, m.(now := t))
  {
    hide HangingThread, InOrder, Advance, EdgesInside, Able;
    OnlyClockMoves(HangingThread(core), m, t);
  }

  predicate AllBefore(events: seq<Event>, end: nat) {
    forall i :: 0 <= i < |events| && events[i].AdvanceTo? ==> events[i].t < end
  }

  lemma {:induction false} RunStaysStuck(core: Core, m: Machine, events: seq<Event>)
    requires WideStore(core) && InOrder(HangingThread(core), m) && Stuck(core, m) && AllBefore(events, NEVER)
    ensures Stuck(core, Run(HangingThread(core), m, events).value)
    decreases |events|
  {
    hide HangingThread, InOrder, EdgesInside, Able, Advance;
    if events != [] {
      assert !Possible(m, events[0]) || events[0].AdvanceTo?;
      if events[0].AdvanceTo? && Possible(m, events[0]) {
        StaysStuck(core, m, events[0].t);
        RunStaysStuck(core, m.(now := events[0].t), events[1..]);
      } else {
        RunStaysStuck(core, m, events[1..]);
      }
    }
  }

  // On every core that can send two stores a cycle there is a program, and a cache that
  // answers every load at once, for which no run that begins with the advance to the
  // loads' completion ever comes to an end: the store completes and never retires.
  lemma StoreNeverRetires(core: Core, events: seq<Event>)
    requires WideStore(core) && AllBefore(events, NEVER)
    ensures var s := HangingThread(core);
      && Runnable(s) && Prompt(s)
      && var m := RunThread(s, [AdvanceTo(AllDone(core.rob))] + events).value;
         && !m.isDone && m.head == core.rob < |m.ops|
         && m.ops[core.rob].status == Dispatched && 0 < m.ops[core.rob].complete <= m.now
  {
    hide HangingThread, InOrder, EdgesInside, Able, Advance, Filled, Runnable, Prompt;
    StartIsLoading(core);
    var s, t := HangingThread(core), AllDone(core.rob);
    AdvanceGetsStuck(core, Start(s));
    var all := [AdvanceTo(t)] + events;
    assert all[0] == AdvanceTo(t) && all[1..] == events;
    RunStaysStuck(core, Advanced(s, Start(s), t).0, events);
  }

  lemma FirstStep(core: Core, m: Machine)
    requires WideStore(core) && Loading(core, m, core.rob)
    ensures CanStep(m) && NextStep(m) == AllDone(core.rob)
  {
  }

  lemma NoStepFurther(core: Core, m: Machine)
    requires WideStore(core) && Stuck(core, m) && m.now == AllDone(core.rob)
    ensures CanStep(m) && NextStep(m) == m.now && m.(now := m.now) == m && !m.isDone
  {
  }

  lemma StuckIsNotDone(core: Core, m: Machine)
    requires Stuck(core, m)
    ensures !m.isDone
  {
  }

  // One step of the engine.
  lemma HangingStep(core: Core, m: Machine)
    requires WideStore(core) && InOrder(HangingThread(core), m)
    requires Loading(core, m, core.rob) || (Stuck(core, m) && m.now == AllDone(core.rob))
    ensures CanStep(m)
    ensures var m' := Advanced(HangingThread(core), m, NextStep(m)).0; Stuck(core, m') && m'.now == AllDone(core.rob) && !m'.isDone
  {
    hide InOrder, HangingThread, Advance, Stuck, Loading, CanStep, NextStep, Able, EdgesInside;
    if Loading(core, m, core.rob) {
      FirstStep(core, m);
      AdvanceGetsStuck(core, m);
    } else {
      NoStepFurther(core, m);
      StaysStuck(core, m, AllDone(core.rob));
    }
    StuckIsNotDone(core, Advanced(HangingThread(core), m, NextStep(m)).0);
  }

  // The engine does not bring it to its end either.
  lemma {:induction false} EngineNeverFinishes(core: Core, n: nat)
    requires WideStore(core)
    ensures var s := HangingThread(core); Runnable(s) && Prompt(s) && Loading(core, Driven(s, 0), core.rob)
    ensures var m := Driven(HangingThread(core), n + 1); Stuck(core, m) && m.now == AllDone(core.rob) && !m.isDone
    decreases n
  {
    hide InOrder, HangingThread, Advance, Stuck, Loading, CanStep, NextStep, WideStore, Start, Runnable, Prompt, Able, EdgesInside,
         AllDone;
    StartIsLoading(core);
    if n > 0 {
      EngineNeverFinishes(core, n - 1);
    }
    HangingStep(core, Driven(HangingThread(core), n));
  }

  lemma HangingIsNotFinished(core: Core)
    requires WideStore(core)
    ensures var s := HangingThread(core); Runnable(s) && Prompt(s) && !Driven(s, 2 * Total(s)).isDone
  {
    hide InOrder, Prompt, Driven, Stuck, Loading, WideStore;
    HangingIsRunnable(core);
    EngineNeverFinishes(core, 2 * core.rob + 1);
  }

  // The engine brings every program to its end exactly on the cores that send one store
  // a cycle.
  lemma FinishesExactlyWhen(core: Core)
    requires core.rob >= 1 && core.lfb >= 1 && core.alu >= 1 && core.ld >= 1 && core.st >= 1 && AllDone(core.rob) < NEVER
    ensures (forall s: Thread :: s.core == core && Runnable(s) && Prompt(s) ==> Driven(s, 2 * Total(s)).isDone)
        <==> core.st == 1
  {
    hide Runnable, Prompt, Driven, HangingOps, HangingCache, Total;
    if core.st == 1 {
      forall s: Thread | s.core == core && Runnable(s) && Prompt(s) ensures Driven(s, 2 * Total(s)).isDone {
        EngineFinishes(s);
      }
    } else {
      HangingIsNotFinished(core);
    }
  }

  // A load and a store, one operation in the reorder window, two stores a cycle.
  lemma TwoOperationsHang(events: seq<Event>)
    requires AllBefore(events, NEVER)
    ensures var s := HangingThread(Core(1, 1, 1, 1, 2));
      && s.prog.ops == [ProgramOp(LOAD, 0, 0, []), ProgramOp(STORE, 0, 0, [])] && Runnable(s)
      && !RunThread(s, [AdvanceTo(2)] + events).value.isDone
  {
    hide InOrder, Keeps, Zones, SentOnce, Listed, CountersExact, Able, InDegree;
    StoreNeverRetires(Core(1, 1, 1, 1, 2), events);
    hide Exact, RunThread;
  }
}
