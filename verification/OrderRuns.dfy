// Every run of a thread, from the first fill of its window on.
module OrderRuns {
  import opened Wrappers
  import opened Bits
  import opened Counting
  import opened ExecGraph
  import opened Programs
  import opened ProgramOrder
  import opened OrderSafety

  // ---- The first counters ----

  lemma {:induction false} NoEdgesFrom(s: Thread, ops: seq<OpState>, n: nat, q: nat)
    requires Exact(s.prog) && n <= |ops| == Total(s) && q < Total(s)
    requires n <= q / |s.prog.ops| * |s.prog.ops|
    ensures Owed(s, ops, n, q) == 0
    decreases n
  {
    hide Exact;
    if n > 0 {
      NoEdgesFrom(s, ops, n - 1, q);
      EdgeAcross(s, n - 1, q);
    }
  }

  // No edge leads to another global step.
  lemma EdgeAcross(s: Thread, p: nat, q: nat)
    requires Exact(s.prog) && q < Total(s) && p < q / |s.prog.ops| * |s.prog.ops|
    ensures Edges(s, p, q) == 0
  {
    var w := |s.prog.ops|;
    assert q == q / w * w + q % w;
    EdgesStayInside(s, p);
    FarApart(p, q / w, w);
    CountNone<nat>(OpAt(s, p).next, q - p);
  }

  // Between p and the start of a later step b lies the rest of p's own step.
  lemma FarApart(p: nat, b: nat, w: nat)
    requires w > 0 && p < b * w
    ensures p % w + (b * w - p) >= w
  {
    var a := p / w;
    assert p == a * w + p % w;
    if a + 1 <= b {
      MulLe(a + 1, b, w);
    } else {
      MulLe(b, a, w);
    }
    assert (a + 1) * w == a * w + w;
  }

  // Inside a global step the edges are those of the program.
  lemma EdgeInside(s: Thread, step: nat, p: nat, q: nat)
    requires p < |s.prog.ops| && q < |s.prog.ops|
    ensures Edges(s, step * |s.prog.ops| + p, step * |s.prog.ops| + q) == EdgeCount(s.prog, p, q)
  {
    DivUnique(step * |s.prog.ops| + p, |s.prog.ops|, step, p);
  }

  // Counting up from position `base`, when nothing before it leads to base + q.
  lemma {:induction false} OwedFrom(s: Thread, ops: seq<OpState>, base: nat, n: nat, q: nat)
    requires |s.prog.ops| > 0 && n <= |s.prog.ops| && base + n <= |ops|
    requires forall p :: 0 <= p < |ops| ==> ops[p].status == Issued
    requires Owed(s, ops, base, base + q) == 0
    requires forall p :: 0 <= p < n ==> Edges(s, base + p, base + q) == EdgeCount(s.prog, p, q)
    ensures Owed(s, ops, base + n, base + q) == InDegree(s.prog, n, q)
    decreases n
  {
    hide Edges, EdgeCount;
    if n > 0 {
      OwedFrom(s, ops, base, n - 1, q);
      assert base + n - 1 == base + (n - 1);
      assert Edges(s, base + (n - 1), base + q) == EdgeCount(s.prog, n - 1, q);
    }
  }

  // One edge inside the step that begins at `base`.
  lemma EdgeFrom(s: Thread, step: nat, base: nat, p: nat, q: nat)
    requires Exact(s.prog) && p < |s.prog.ops| && q < |s.prog.ops| && base == step * |s.prog.ops|
    ensures Edges(s, base + p, base + q) == EdgeCount(s.prog, p, q)
  {
    hide Exact, Edges, EdgeCount;
    EdgeInside(s, step, p, q);
  }

  lemma NoneBefore(s: Thread, ops: seq<OpState>, step: nat, base: nat, q: nat)
    requires Exact(s.prog) && step < s.steps && q < |s.prog.ops| && |ops| == Total(s) && base == step * |s.prog.ops| <= |ops|
    ensures Owed(s, ops, base, base + q) == 0
  {
    var w := |s.prog.ops|;
    DivUnique(base + q, w, step, q);
    MulLe(step + 1, s.steps, w);
    assert (step + 1) * w == step * w + w;
    hide Exact, Edges, EdgeCount;
    NoEdgesFrom(s, ops, base, base + q);
  }

  lemma OwedInStep(s: Thread, ops: seq<OpState>, step: nat, n: nat, q: nat)
    requires Exact(s.prog) && step < s.steps && n <= |s.prog.ops| && q < |s.prog.ops| && |ops| == Total(s)
    requires step * |s.prog.ops| + n <= |ops|
    requires forall p :: 0 <= p < |ops| ==> ops[p].status == Issued
    ensures Owed(s, ops, step * |s.prog.ops| + n, step * |s.prog.ops| + q) == InDegree(s.prog, n, q)
  {
    OwedAt(s, ops, step, step * |s.prog.ops|, n, q);
  }

  lemma OwedAt(s: Thread, ops: seq<OpState>, step: nat, base: nat, n: nat, q: nat)
    requires Exact(s.prog) && step < s.steps && n <= |s.prog.ops| && q < |s.prog.ops| && |ops| == Total(s)
    requires base == step * |s.prog.ops| && base + n <= |ops|
    requires forall p :: 0 <= p < |ops| ==> ops[p].status == Issued
    ensures Owed(s, ops, base + n, base + q) == InDegree(s.prog, n, q)
  {
    hide Edges, EdgeCount, InDegree, Owed;
    NoneBefore(s, ops, step, base, q);
    forall p | 0 <= p < n ensures Edges(s, base + p, base + q) == EdgeCount(s.prog, p, q) {
      EdgeFrom(s, step, base, p, q);
    }
    OwedFrom(s, ops, base, n, q);
  }

  lemma {:induction false} OwedBeyond(s: Thread, ops: seq<OpState>, step: nat, n: nat, q: nat)
    requires Exact(s.prog) && step < s.steps && q < |s.prog.ops| && |ops| == Total(s)
    requires (step + 1) * |s.prog.ops| <= n <= |ops|
    requires forall p :: 0 <= p < |ops| ==> ops[p].status == Issued
    ensures Owed(s, ops, n, step * |s.prog.ops| + q) == InDegree(s.prog, |s.prog.ops|, q)
    decreases n
  {
    var w := |s.prog.ops|;
    assert (step + 1) * w == step * w + w;
    if n == (step + 1) * w {
      OwedInStep(s, ops, step, w, q);
    } else {
      OwedBeyond(s, ops, step, n - 1, q);
    }
  }

  lemma FirstCounters(s: Thread)
    requires Runnable(s)
    ensures CountersExact(s, Unstarted(s), NO_DEBT)
  {
    var m, w := Unstarted(s), |s.prog.ops|;
    forall q | 0 <= q < |m.ops| ensures m.ops[q].prev == Owed(s, m.ops, |m.ops|, q) + DebtTo(NO_DEBT, q) {
      var step := q / w;
      assert q == step * w + q % w;
      if step >= s.steps {
        MulLe(s.steps, step, w);
      }
      MulLe(step + 1, s.steps, w);
      OwedBeyond(s, m.ops, step, |m.ops|, q % w);
      assert DebtTo(NO_DEBT, q) == 0;
    }
  }

  lemma UnstartedKeeps(s: Thread)
    requires Runnable(s)
    ensures Keeps(s, Unstarted(s), NO_DEBT, Total(s), 0)
  {
    FirstCounters(s);
    assert Total(s) >= 1 by { LastHasNoEdges(s); }
    hide CountersExact, Exact, Owed;
  }

  lemma {:induction false} FilledKeeps(s: Thread, n: nat)
    requires Runnable(s) && n <= Total(s)
    ensures Keeps(s, Filled(s, n), NO_DEBT, Total(s), n) && Filled(s, n).head == 0 && Filled(s, n).now == 0
    decreases n
  {
    hide CountersExact, Listed, Zones, SentOnce, Dispatch, PortsOpen, Exact;
    if n == 0 {
      UnstartedKeeps(s);
    } else {
      FilledKeeps(s, n - 1);
      var m := Filled(s, n - 1);
      DueNow(s, m, n - 1);
      DispatchKeeps(s, m, NO_DEBT, n - 1, n - 1);
      PortsKeep(s, Dispatch(s, m, n - 1), Filled(s, n), NO_DEBT, Total(s), n);
    }
  }

  // The next operation of the first fill is due.
  lemma DueNow(s: Thread, m: Machine, p: nat)
    requires Keeps(s, m, NO_DEBT, Total(s), p) && p < Total(s)
    ensures Keeps(s, m, NO_DEBT, p, p)
  {
    NotListed(s, m, p, LOAD);
    NotListed(s, m, p, STORE);
    hide CountersExact, Listed, SentOnce, Exact, OpAt;
  }

  lemma StartIsInOrder(s: Thread)
    requires Runnable(s)
    ensures InOrder(s, Start(s))
  {
    hide Dispatch, Runnable, SentOnce, Listed, CountersExact, Exact, InDegree;
    FilledKeeps(s, Least(s.core.rob, Total(s)));
  }

  // ---- Runs ----

  // The engine lets time pass; the memory completes a load that was left open.
  datatype Event = AdvanceTo(t: nat) | Loaded(pos: nat, complete: nat)

  // The memory only completes an operation that is dispatched and has no completion
  // time yet, and time does not run backwards.
  predicate Possible(m: Machine, e: Event) {
    match e
    case AdvanceTo(t) => t >= m.now
    case Loaded(p, _) => p < |m.ops| && m.ops[p].status == Dispatched && m.ops[p].complete == 0
  }

  // Where an advance to cycle t leads, and whether it reports the end.
  ghost function Advanced(s: Thread, m: Machine, t: nat): (out: (Machine, bool))
    requires InOrder(s, m) && t >= m.now
    ensures InOrder(s, out.0)
    ensures Able(s, m) && s.core.rob >= 1 && m.head <= |m.ops|
    ensures forall q :: 0 <= q < Total(s) ==> EdgesInside(s, q)
    ensures Advance(s, m, t) == Ok(out)
  {
    AllEdgesInside(s);
    AdvanceKeeps(s, m, t);
    Advance(s, m, t).value
  }

  lemma CompletionTimeKeeps(s: Thread, m: Machine, p: nat, complete: nat)
    requires InOrder(s, m) && Possible(m, Loaded(p, complete))
    ensures InOrder(s, CompleteOp(m, p, complete))
  {
    hide CountersExact, Listed, Zones, SentOnce, Exact, PortsOpen;
    var m' := CompleteOp(m, p, complete);
    ListsStay(s, m, m', LOAD);
    ListsStay(s, m, m', STORE);
    CountersStay(s, m, m', NO_DEBT);
    CompletionTimeZones(s, m, m', p);
  }

  lemma CompletionTimeZones(s: Thread, m: Machine, m': Machine, p: nat)
    requires InProgram(s, m) && p < |m.ops| == |m'.ops| && m.ops[p].status == Dispatched
    requires Zones(s, m, Tail(s, m.head), Total(s)) && SentOnce(s, m)
    requires m' == CompleteOp(m, p, m'.ops[p].complete)
    ensures InProgram(s, m') && Zones(s, m', Tail(s, m.head), Total(s)) && SentOnce(s, m')
  {
    hide OpAt, SentCount;
  }

  // The state after a sequence of events; an impossible event does not happen.
  function Run(s: Thread, m: Machine, events: seq<Event>): (r: Result<Machine, Fault>)
    requires InOrder(s, m)
    ensures r.Ok? && InOrder(s, r.value)
    decreases |events|
  {
    if events == [] then Ok(m)
    else
      AllEdgesInside(s);
      if !Possible(m, events[0]) then Run(s, m, events[1..])
      else
        match events[0]
        case AdvanceTo(t) =>
          AdvanceKeeps(s, m, t);
          var out :- Advance(s, m, t);
          Run(s, out.0, events[1..])
        case Loaded(p, complete) =>
          CompletionTimeKeeps(s, m, p, complete);
          Run(s, CompleteOp(m, p, complete), events[1..])
  }

  // No operation goes to the cache before all its producers have completed.
  lemma ProducersFirst(s: Thread, m: Machine, p: nat, q: nat)
    requires InOrder(s, m) && p < |m.ops| && q < |m.ops| && Edges(s, p, q) > 0 && Started(m.ops[q])
    ensures m.ops[p].status == Completed && 0 < m.ops[p].complete <= m.now
  {
    hide Edges;
    if m.ops[p].status != Completed {
      OwedAtLeast(s, m.ops, |m.ops|, p, q);
    }
  }

  lemma {:induction false} OwedAtLeast(s: Thread, ops: seq<OpState>, n: nat, p: nat, q: nat)
    requires |s.prog.ops| > 0 && p < n <= |ops| && ops[p].status != Completed
    ensures Owed(s, ops, n, q) >= Edges(s, p, q)
    decreases n
  {
    if p < n - 1 {
      OwedAtLeast(s, ops, n - 1, p, q);
    }
  }

  // Operations wait for earlier ones only.
  lemma {:induction false} NothingOwed(s: Thread, ops: seq<OpState>, n: nat, q: nat)
    requires |s.prog.ops| > 0 && n <= |ops| && forall p :: 0 <= p < q && p < |ops| ==> ops[p].status == Completed
    ensures Owed(s, ops, n, q) == 0
    decreases n
  {
    if n > 0 {
      NothingOwed(s, ops, n - 1, q);
    }
  }

  // Until the run is done the oldest operation waits for no producer: it has completed, it
  // is with the cache, or it waits for its port.
  lemma HeadIsUnderWay(s: Thread, m: Machine)
    requires InOrder(s, m) && !m.isDone
    ensures m.head < |m.ops| && m.ops[m.head].prev == 0
    ensures Started(m.ops[m.head]) || Waits(Queue(m, OpAt(s, m.head).kind), m.head)
  {
    NothingOwed(s, m.ops, |m.ops|, m.head);
    hide Owed, Waits, SentCount, OpAt;
    assert DebtTo(NO_DEBT, m.head) == 0;
  }

  // A run from the first fill of the window.
  function RunThread(s: Thread, events: seq<Event>): (r: Result<Machine, Fault>)
    requires Runnable(s)
    ensures r.Ok? && InOrder(s, r.value)
  {
    StartIsInOrder(s);
    Run(s, Start(s), events)
  }

  // In every run no counter underflows; what has retired is a prefix of the program;
  // an operation is sent to the cache exactly once, after all its producers; and the
  // run reports its end exactly when every operation of every global step has been
  // sent, has completed and has retired.
  lemma EveryRunIsInOrder(s: Thread, events: seq<Event>)
    requires Runnable(s)
    ensures RunThread(s, events).Ok?
    ensures var m := RunThread(s, events).value;
      && m.head <= |m.ops| == Total(s)
      && (forall p :: 0 <= p < m.head ==> m.ops[p].status == Completed)
      && (forall p :: 0 <= p < Total(s) ==> SentCount(m.sent, p) == if Started(m.ops[p]) then 1 else 0)
      && (forall p, q :: 0 <= p < Total(s) && 0 <= q < Total(s) && Edges(s, p, q) > 0 && Started(m.ops[q]) ==>
            m.ops[p].status == Completed)
      && (m.isDone <==> m.head == s.steps * |s.prog.ops|)
      && (m.isDone ==> forall p :: 0 <= p < Total(s) ==> SentCount(m.sent, p) == 1)
  {
    var m := RunThread(s, events).value;
    hide Edges, Run, Start;
    forall p, q | 0 <= p < Total(s) && 0 <= q < Total(s) && Edges(s, p, q) > 0 && Started(m.ops[q])
      ensures m.ops[p].status == Completed
    {
      ProducersFirst(s, m, p, q);
    }
    hide CountersExact, Listed, Exact;
  }

  // Every run of a linked and laid-out block is in order, whatever the core, the cache and
  // the engine do, and reports its end exactly when all of it has retired: counting
  // producers ahead of time is enough.
  lemma EveryBlockRunsInOrder(g: Graph, steps: nat, core: Core, l1: Cache, events: seq<Event>)
    requires Grouped(g) && Linked(g) && |Walk(g)| >= 1 && steps >= 1
    requires core.rob >= 1 && core.alu >= 1 && core.ld >= 1 && core.st >= 1
    ensures var s := Thread(ProgramOf(g), steps, core, l1);
      && Runnable(s) && RunThread(s, events).Ok?
      && var m := RunThread(s, events).value;
      && (m.isDone <==> m.head == steps * |Walk(g)|)
      && (m.isDone ==> forall p :: 0 <= p < steps * |Walk(g)| ==> SentCount(m.sent, p) == 1)
  {
    hide RunThread, Walk, Exact, ProgramOf, InOrder, Keeps, OpOf, Zones, Base, IsInst, Grouped, SentOnce;
    BlockIsExact(g);
    EveryRunIsInOrder(Thread(ProgramOf(g), steps, core, l1), events);
  }
}
