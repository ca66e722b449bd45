// Issue ports over whole runs: no cycle carries more loads or stores than the core
// has ports, nothing leaves before it is ready, and arithmetic slots are counted
// exactly.
module PortBounds {
  import opened ExecGraph
  import opened Programs
  import opened ProgramOrder
  import opened OrderSafety
  import opened OrderRuns
  import opened Sequences

  // Requests of one kind that leave in cycle t.
  function SentAt(sent: seq<Sent>, kind: OpType, t: nat): nat
    decreases |sent|
  {
    if sent == [] then 0
    else
      SentAt(sent[..|sent| - 1], kind, t)
      + if sent[|sent| - 1].kind == kind && sent[|sent| - 1].time == t then 1 else 0
  }

  ghost predicate PortFair(sent: seq<Sent>, kind: OpType, width: nat, t: nat, avail: nat) {
    && (forall c: nat :: SentAt(sent, kind, c) <= width)
    && (forall c: nat :: c > t ==> SentAt(sent, kind, c) == 0)
    && SentAt(sent, kind, t) + avail <= width
  }

  ghost predicate PortsFair(s: Thread, m: Machine) {
    && PortFair(m.sent, LOAD, s.core.ld, m.ports.tLd, m.ports.availLd)
    && PortFair(m.sent, STORE, s.core.st, m.ports.tSt, m.ports.availSt)
    && forall i :: 0 <= i < |m.sent| ==> m.sent[i].ready <= m.sent[i].time
  }

  lemma Appended(sent: seq<Sent>, x: Sent, kind: OpType, t: nat)
    ensures SentAt(sent + [x], kind, t) == SentAt(sent, kind, t) + if x.kind == kind && x.time == t then 1 else 0
  {
    assert (sent + [x])[..|sent|] == sent;
  }

  // A port moved to a later cycle has nothing sent there yet.
  lemma Moved(sent: seq<Sent>, kind: OpType, width: nat, t: nat, avail: nat, now: nat)
    requires PortFair(sent, kind, width, t, avail)
    ensures PortFair(sent, kind, width, Latest(t, now), avail)
  {
    hide SentAt;
  }

  // A request that leaves by a free slot of its port.
  lemma Left(sent: seq<Sent>, x: Sent, kind: OpType, width: nat, t: nat, avail: nat)
    requires PortFair(sent, kind, width, t, avail)
    requires x.kind == kind ==> x.time == t
    ensures x.kind == kind && avail == 1 ==> PortFair(sent + [x], kind, width, t + 1, width)
    ensures x.kind == kind && avail > 1 ==> PortFair(sent + [x], kind, width, t, avail - 1)
    ensures x.kind != kind ==> PortFair(sent + [x], kind, width, t, avail)
  {
    hide SentAt;
    forall c: nat
      ensures SentAt(sent + [x], kind, c) == SentAt(sent, kind, c) + if x.kind == kind && x.time == c then 1 else 0
    {
      Appended(sent, x, kind, c);
    }
  }

  lemma TryLoadFair(s: Thread, m: Machine, r: Request)
    requires Able(s, m) && r.pos < |m.ops| && PortsFair(s, m)
    ensures PortsFair(s, TryLoad(s, m, r).0)
  {
    hide SentAt, PortFair, OpAt;
    Moved(m.sent, LOAD, s.core.ld, m.ports.tLd, m.ports.availLd, m.now);
    var t := Latest(m.ports.tLd, m.now);
    var x := Sent(LOAD, r.pos, r.dispatch, t);
    Left(m.sent, x, LOAD, s.core.ld, t, m.ports.availLd);
    Left(m.sent, x, STORE, s.core.st, m.ports.tSt, m.ports.availSt);
  }

  lemma TryStoreFair(s: Thread, m: Machine, r: Request)
    requires Able(s, m) && r.pos < |m.ops| && PortsFair(s, m)
    ensures PortsFair(s, TryStore(s, m, r).0)
  {
    hide SentAt, PortFair, OpAt;
    Moved(m.sent, STORE, s.core.st, m.ports.tSt, m.ports.availSt, m.now);
    var t := Latest(m.ports.tSt, m.now);
    var x := Sent(STORE, r.pos, r.dispatch, t);
    Left(m.sent, x, STORE, s.core.st, t, m.ports.availSt);
    Left(m.sent, x, LOAD, s.core.ld, m.ports.tLd, m.ports.availLd);
  }

  lemma DispatchFair(s: Thread, m: Machine, p: nat)
    requires Able(s, m) && p < |m.ops| && PortsFair(s, m)
    ensures PortsFair(s, Dispatch(s, m, p))
  {
    hide PortFair, TryLoad, TryStore, PortsOpen, OpAt;
    var m1 := Compute(s, m, p);
    TryLoadFair(s, m1, Request(p, m1.ops[p].dispatch));
    TryStoreFair(s, m1, Request(p, m1.ops[p].dispatch));
  }

  lemma RetireFair(s: Thread, m: Machine)
    requires Able(s, m) && m.head < |m.ops| && s.core.rob >= 1 && PortsFair(s, m)
    ensures PortsFair(s, RetireHead(s, m))
  {
    hide PortFair, Dispatch, PortsOpen;
    var m1 := m.(head := m.head + 1);
    if m1.head + s.core.rob <= |m.ops| {
      DispatchFair(s, m1, m1.head + s.core.rob - 1);
    }
  }

  lemma {:induction false} NotifyFair(s: Thread, m: Machine, p: nat, next: seq<nat>)
    requires Able(s, m) && (forall e :: 0 <= e < |next| ==> p + next[e] < |m.ops|) && PortsFair(s, m)
    ensures var r := Notify(s, m, p, next); r.Ok? ==> PortsFair(s, r.value)
    decreases |next|
  {
    hide PortFair, PassEdge, PortsOpen;
    if next != [] {
      var child := p + next[0];
      if m.ops[child].prev > 0 {
        PassEdgeFair(s, m, child);
        NotifyFair(s, PassEdge(s, m, child), p, next[1..]);
      }
    }
  }

  lemma PassEdgeFair(s: Thread, m: Machine, child: nat)
    requires Able(s, m) && child < |m.ops| && m.ops[child].prev > 0 && PortsFair(s, m)
    ensures PortsFair(s, PassEdge(s, m, child))
  {
    hide PortFair, Dispatch, PortsOpen;
    var op := m.ops[child];
    var m1 := m.(ops := m.ops[child := op.(prev := op.prev - 1)]);
    if op.prev == 1 && op.status == Pending {
      DispatchFair(s, m1, child);
    }
  }

  lemma VisitFair(s: Thread, m: Machine, p: nat)
    requires Able(s, m) && p < |m.ops| && m.head < |m.ops| && s.core.rob >= 1 && EdgesInside(s, p) && PortsFair(s, m)
    ensures var r := Visit(s, m, p); r.Ok? ==> PortsFair(s, r.value)
  {
    hide PortFair, RetireHead, Notify, PortsOpen;
    if m.ops[p].status == Dispatched && 0 < m.ops[p].complete <= m.now {
      var m1 := m.(ops := m.ops[p := m.ops[p].(status := Completed)]);
      RetireFair(s, m1);
      var m2 := if p == m.head then RetireHead(s, m1) else m1;
      if !m2.isDone {
        NotifyFair(s, m2, p, OpAt(s, p).next);
      }
    } else if m.ops[p].status == Completed && p == m.head {
      RetireFair(s, m);
    }
  }

  lemma {:induction false} SweepFair(s: Thread, m: Machine, p: nat, n: nat)
    requires Able(s, m) && m.head <= p && p + n <= |m.ops| && s.core.rob >= 1 && PortsFair(s, m)
    requires forall q :: 0 <= q < Total(s) ==> EdgesInside(s, q)
    ensures var r := Sweep(s, m, p, n); r.Ok? ==> PortsFair(s, r.value)
    decreases n
  {
    hide PortsFair, Visit, PortsOpen, EdgesInside;
    if n > 0 {
      VisitFair(s, m, p);
      if Visit(s, m, p).Ok? {
        SweepFair(s, Visit(s, m, p).value, p + 1, n - 1);
      }
    }
  }

  lemma {:induction false} RetryLoadsFair(s: Thread, m: Machine, i: nat)
    requires Able(s, m) && i <= |m.pendingLd| && PortsFair(s, m)
    ensures PortsFair(s, RetryLoads(s, m, i))
    decreases |m.pendingLd| - i
  {
    hide PortFair, TryLoad, PortsOpen, TryStore;
    if i < |m.pendingLd| {
      TryLoadFair(s, m, m.pendingLd[i]);
      ListsKept(s, m, m.pendingLd[i]);
      var (m1, sent) := TryLoad(s, m, m.pendingLd[i]);
      if sent {
        RetryLoadsFair(s, m1.(pendingLd := Drop(m1.pendingLd, i), hasCompleteOp := true), i);
      } else {
        RetryLoadsFair(s, m1, i + 1);
      }
    }
  }

  lemma {:induction false} RetryStoresFair(s: Thread, m: Machine, i: nat)
    requires Able(s, m) && i <= |m.pendingSt| && PortsFair(s, m)
    ensures PortsFair(s, RetryStores(s, m, i))
    decreases |m.pendingSt| - i
  {
    hide PortFair, TryStore, PortsOpen;
    if i < |m.pendingSt| {
      TryStoreFair(s, m, m.pendingSt[i]);
      ListsKept(s, m, m.pendingSt[i]);
      var (m1, sent) := TryStore(s, m, m.pendingSt[i]);
      if sent {
        RetryStoresFair(s, m1.(pendingSt := Drop(m1.pendingSt, i), hasCompleteOp := true), i);
      } else {
        RetryStoresFair(s, m1, i + 1);
      }
    }
  }

  lemma AdvanceFair(s: Thread, m: Machine, t: nat)
    requires Able(s, m) && s.core.rob >= 1 && m.head <= |m.ops| && PortsFair(s, m)
    requires forall q :: 0 <= q < Total(s) ==> EdgesInside(s, q)
    ensures var r := Advance(s, m, t); r.Ok? ==> PortsFair(s, r.value.0)
  {
    hide PortFair, RetryLoads, RetryStores, Sweep, PortsOpen, EdgesInside, NextEvent;
    if !m.isDone {
      var m0 := m.(now := t);
      RetryLoadsFair(s, m0, 0);
      RetryStoresFair(s, RetryLoads(s, m0, 0), 0);
      var m1 := RetryStores(s, RetryLoads(s, m0, 0), 0);
      var m2 := m1.(hasCompleteOp := false);
      SweepFair(s, m2, m2.head, RobLoad(s, m2));
    }
  }

  lemma {:induction false} FilledFair(s: Thread, n: nat)
    requires Runnable(s) && n <= Total(s)
    ensures PortsFair(s, Filled(s, n))
    decreases n
  {
    hide Dispatch, Exact;
    if n > 0 {
      FilledFair(s, n - 1);
      DispatchFair(s, Filled(s, n - 1), n - 1);
      hide PortFair;
    }
  }

  lemma {:induction false} RunIsFair(s: Thread, m: Machine, events: seq<Event>)
    requires InOrder(s, m) && PortsFair(s, m)
    ensures PortsFair(s, Run(s, m, events).value)
    decreases |events|
  {
    hide PortFair, Advance, CountersExact, Listed, Zones, SentOnce, EdgesInside;
    if events != [] {
      AllEdgesInside(s);
      if !Possible(m, events[0]) {
        RunIsFair(s, m, events[1..]);
      } else {
        match events[0]
        case AdvanceTo(t) =>
          HeadInProgram(s, m);
          AdvanceKeeps(s, m, t);
          AdvanceFair(s, m, t);
          RunIsFair(s, Advance(s, m, t).value.0, events[1..]);
        case Loaded(p, complete) =>
          CompletionTimeKeeps(s, m, p, complete);
          RunIsFair(s, CompleteOp(m, p, complete), events[1..]);
      }
    }
  }

  // In every run, at most `ld` loads and `st` stores leave in any one cycle, and
  // nothing leaves before it is ready.
  lemma EveryRunIsFair(s: Thread, events: seq<Event>)
    requires Runnable(s)
    ensures var m := RunThread(s, events).value;
      && (forall t: nat :: SentAt(m.sent, LOAD, t) <= s.core.ld && SentAt(m.sent, STORE, t) <= s.core.st)
      && forall i :: 0 <= i < |m.sent| ==> m.sent[i].ready <= m.sent[i].time
  {
    hide Run, Filled, SentAt;
    StartIsInOrder(s);
    FilledFair(s, Least(s.core.rob, Total(s)));
    RunIsFair(s, Start(s), events);
  }

  // Arithmetic slots are used one by one: from the cycle an operation may start in,
  // the count of slots behind the port advances by exactly what it computes.
  lemma AluIsExact(core: Core, p: Ports, now: nat, comp: nat)
    requires core.alu >= 1 && 1 <= p.availAlu <= core.alu
    ensures var p' := TakeAlu(core, p, now, comp);
      && p'.tAlu * core.alu - p'.availAlu == Latest(p.tAlu, now) * core.alu - p.availAlu + comp
      && 1 <= p'.availAlu <= core.alu && p'.tAlu >= now
      && p' == p.(tAlu := p'.tAlu, availAlu := p'.availAlu)
  {
    if comp >= p.availAlu {
      var t, rest := Latest(p.tAlu, now), comp - p.availAlu;
      var q, r := rest / core.alu, rest % core.alu;
      assert rest == q * core.alu + r;
      assert (t + 1 + q) * core.alu == t * core.alu + core.alu + q * core.alu;
    }
  }
}
