// The steps of an advance one by one, as a context takes them: each operation visited,
// each edge passed on, each waiting request offered its port.
module OrderSteps {
  import opened Wrappers
  import opened ExecGraph
  import opened Programs
  import opened ProgramOrder
  import opened OrderSafety
  import opened OrderRuns
  import opened Sequences

  lemma FilledNone(s: Thread)
    requires Runnable(s)
    ensures Filled(s, 0) == Unstarted(s)
  {
  }

  lemma FilledNext(s: Thread, n: nat)
    requires Runnable(s) && n < Total(s)
    ensures var m := Filled(s, n);
      && Able(s, m) && m.head == 0 && n < |m.ops|
      && var m1 := Dispatch(s, m, n);
      && m1.head == 0 && n < |m1.ops|
      && Filled(s, n + 1) == m1.(nextEvent := Least(EventOf(m1.ops[n]), m1.nextEvent))
  {
    hide Runnable, Dispatch, Keeps;
    FilledKeeps(s, n);
  }

  // Operation p has completed and owes all its consumers.
  ghost predicate Completing(s: Thread, m: Machine, p: nat, tail: nat) {
    Runnable(s) && p < Total(s) && Keeps(s, m, Debt(p, OpAt(s, p).next), Total(s), tail)
  }

  // The machine once they have been told.
  ghost function Notified(s: Thread, m: Machine, p: nat, tail: nat): (m': Machine)
    requires Completing(s, m, p, tail)
    ensures Keeps(s, m', NO_DEBT, Total(s), tail) && EdgesInside(s, p)
    ensures Notify(s, m, p, OpAt(s, p).next) == Ok(m')
  {
    EdgesStayInside(s, p);
    NotifyKeeps(s, m, p, OpAt(s, p).next, tail);
    Notify(s, m, p, OpAt(s, p).next).value
  }

  // The machine after the sweep has looked at position p.
  ghost function Visited(s: Thread, m: Machine, p: nat): (m': Machine)
    requires InOrder(s, m) && m.head <= p < |m.ops|
    ensures InOrder(s, m') && m.head <= m'.head <= p + 1
  {
    EdgesStayInside(s, p);
    VisitKeeps(s, m, p);
    Visit(s, m, p).value
  }

  // The machine after operation p has completed, and has left if it is the head.
  ghost function AfterCompletion(s: Thread, m: Machine, p: nat): Machine
    requires InOrder(s, m) && m.head <= p < |m.ops|
    requires m.ops[p].status == Dispatched && 0 < m.ops[p].complete <= m.now
  {
    var m1 := m.(ops := m.ops[p := m.ops[p].(status := Completed)]);
    if p == m.head then RetireHead(s, m1) else m1
  }

  lemma CompletionCase(s: Thread, m: Machine, p: nat)
    requires InOrder(s, m) && m.head <= p < |m.ops|
    requires m.ops[p].status == Dispatched && 0 < m.ops[p].complete <= m.now
    ensures var m1 := m.(ops := m.ops[p := m.ops[p].(status := Completed)]);
      Able(s, m1) && s.core.rob >= 1 && !Waits(m1.pendingLd, p) && !Waits(m1.pendingSt, p)
    ensures var m2 := AfterCompletion(s, m, p);
      && m2.head <= p + 1
      && (m2.isDone ==> m2 == Visited(s, m, p))
      && (!m2.isDone ==>
            Completing(s, m2, p, Tail(s, m2.head)) && Notified(s, m2, p, Tail(s, m2.head)) == Visited(s, m, p))
  {
    hide CountersExact, Listed, Zones, SentOnce, RetireHead, Notify, PortsOpen, Exact;
    CompletionKeeps(s, m, p, Tail(s, m.head));
    NotListed(s, m, p, LOAD);
    NotListed(s, m, p, STORE);
    var m1 := m.(ops := m.ops[p := m.ops[p].(status := Completed)]);
    if p == m.head {
      RetireKeeps(s, m1, Debt(p, OpAt(s, p).next));
    }
  }

  lemma VisitCases(s: Thread, m: Machine, p: nat)
    requires InOrder(s, m) && m.head <= p < |m.ops|
    ensures s.core.rob >= 1 && Able(s, m)
    ensures m.ops[p].status == Completed && p == m.head ==> Visited(s, m, p) == RetireHead(s, m)
    ensures m.ops[p].status == Completed ==> !Waits(m.pendingLd, p) && !Waits(m.pendingSt, p)
    ensures m.ops[p].status != Completed
            && (m.ops[p].status == Dispatched ==> m.ops[p].complete == 0 || m.ops[p].complete > m.now) ==>
      Visited(s, m, p) == m
    ensures m.ops[p].status == Completed && p != m.head ==> Visited(s, m, p) == m
  {
    hide CountersExact, Listed, Zones, SentOnce, RetireHead, Notify, PortsOpen, Exact;
    if m.ops[p].status == Completed {
      NotListed(s, m, p, LOAD);
      NotListed(s, m, p, STORE);
    }
  }

  // The machine after the sweep of n operations from p on.
  ghost function Swept(s: Thread, m: Machine, p: nat, n: nat): (m': Machine)
    requires InOrder(s, m) && m.head <= p && p + n <= |m.ops|
    ensures InOrder(s, m')
    decreases n
  {
    if n == 0 then m else Swept(s, Visited(s, m, p), p + 1, n - 1)
  }

  // Of n operations, the last `left` from p on are still to be looked at: from there
  // the machine `now` leads to the same end.
  ghost predicate SweptUpTo(s: Thread, m: Machine, n: nat, now: Machine, p: nat, left: nat) {
    && InOrder(s, m) && InOrder(s, now) && m.head + n <= |m.ops| && |now.ops| == |m.ops|
    && m.head <= now.head <= p && p + left == m.head + n
    && Swept(s, now, p, left) == Swept(s, m, m.head, n)
  }

  lemma SweptNext(s: Thread, m: Machine, n: nat, now: Machine, p: nat, left: nat)
    requires SweptUpTo(s, m, n, now, p, left) && left > 0
    ensures now.head <= p < |now.ops| && InOrder(s, now) && m.head <= now.head && p < m.head + n
    ensures SweptUpTo(s, m, n, Visited(s, now, p), p + 1, left - 1)
  {
    hide Keeps, Visited;
    SameLength(s, now, p);
  }

  lemma SameLength(s: Thread, m: Machine, p: nat)
    requires InOrder(s, m) && m.head <= p < |m.ops|
    ensures |Visited(s, m, p).ops| == |m.ops|
  {
    hide Visited, CountersExact, Listed, Zones, SentOnce;
  }

  lemma SweptEnd(s: Thread, m: Machine, n: nat, now: Machine, p: nat)
    requires SweptUpTo(s, m, n, now, p, 0)
    ensures m.head + n <= |m.ops| && now == Swept(s, m, m.head, n)
  {
    hide Keeps, Visited;
  }

  lemma {:induction false} SweptIsSweep(s: Thread, m: Machine, p: nat, n: nat)
    requires InOrder(s, m) && m.head <= p && p + n <= |m.ops|
    requires forall q :: 0 <= q < Total(s) ==> EdgesInside(s, q)
    ensures Sweep(s, m, p, n) == Ok(Swept(s, m, p, n))
    decreases n
  {
    hide CountersExact, Listed, Zones, SentOnce, Visit, PortsOpen, Exact, EdgesInside;
    if n > 0 {
      VisitKeeps(s, m, p);
      SweptIsSweep(s, Visited(s, m, p), p + 1, n - 1);
    }
  }

  // The machine after the waiting loads from the i-th on have been retried.
  ghost function LoadsRetried(s: Thread, m: Machine, i: nat): (m': Machine)
    requires InOrder(s, m) && i <= |m.pendingLd|
    ensures InOrder(s, m')
  {
    RetryLoadsKeeps(s, m, i);
    RetryLoads(s, m, i)
  }

  lemma LoadRetry(s: Thread, m: Machine, i: nat)
    requires InOrder(s, m) && i < |m.pendingLd|
    ensures Able(s, m) && m.pendingLd[i].pos < |m.ops|
    ensures var (m1, sent) := TryLoad(s, m, m.pendingLd[i]);
      && m1.pendingLd == m.pendingLd
      && var m2 := if sent then m1.(pendingLd := Drop(m1.pendingLd, i), hasCompleteOp := true) else m1;
         var j := if sent then i else i + 1;
         InOrder(s, m2) && LoadsRetried(s, m2, j) == LoadsRetried(s, m, i)
  {
    hide CountersExact, Listed, Zones, SentOnce, TryLoad, PortsOpen, Exact;
    ListsKept(s, m, m.pendingLd[i]);
    RetriedLoadKeeps(s, m, i);
  }

  lemma LoadRetryEnds(s: Thread, m: Machine)
    requires InOrder(s, m)
    ensures LoadsRetried(s, m, |m.pendingLd|) == m
  {
    hide Keeps;
  }

  // The machine after the waiting stores from the i-th on have been retried.
  ghost function StoresRetried(s: Thread, m: Machine, i: nat): (m': Machine)
    requires InOrder(s, m) && i <= |m.pendingSt|
    ensures InOrder(s, m')
  {
    RetryStoresKeeps(s, m, i);
    RetryStores(s, m, i)
  }

  lemma StoreRetry(s: Thread, m: Machine, i: nat)
    requires InOrder(s, m) && i < |m.pendingSt|
    ensures Able(s, m) && m.pendingSt[i].pos < |m.ops|
    ensures var (m1, sent) := TryStore(s, m, m.pendingSt[i]);
      && m1.pendingSt == m.pendingSt
      && var m2 := if sent then m1.(pendingSt := Drop(m1.pendingSt, i), hasCompleteOp := true) else m1;
         var j := if sent then i else i + 1;
         InOrder(s, m2) && StoresRetried(s, m2, j) == StoresRetried(s, m, i)
  {
    hide CountersExact, Listed, Zones, SentOnce, TryStore, PortsOpen, Exact;
    ListsKept(s, m, m.pendingSt[i]);
    RetriedStoreKeeps(s, m, i);
  }

  lemma StoreRetryEnds(s: Thread, m: Machine)
    requires InOrder(s, m)
    ensures StoresRetried(s, m, |m.pendingSt|) == m
  {
    hide Keeps;
  }

  // Time has passed and every waiting request has been offered its port.
  ghost function Offered(s: Thread, m: Machine, t: nat): (m': Machine)
    requires InOrder(s, m) && t >= m.now
    ensures InOrder(s, m.(now := t)) && InOrder(s, m')
  {
    TimePasses(s, m, t);
    StoresRetried(s, LoadsRetried(s, m.(now := t), 0), 0)
  }

  // The reorder window has been swept.
  ghost function SweptRob(s: Thread, m: Machine): (m': Machine)
    requires InOrder(s, m)
    ensures InOrder(s, m.(hasCompleteOp := false)) && InOrder(s, m')
    ensures m.head <= |m.ops| && m.head + RobLoad(s, m) <= |m.ops| && m'.head <= |m'.ops|
  {
    SweepCase(s, m);
    var m3 := m.(hasCompleteOp := false);
    Swept(s, m3, m3.head, RobLoad(s, m3))
  }

  lemma SweepCase(s: Thread, m: Machine)
    requires InOrder(s, m)
    ensures var m3 := m.(hasCompleteOp := false);
      && InOrder(s, m3) && m3.head <= |m3.ops| && m3.head + RobLoad(s, m3) <= |m3.ops|
      && Swept(s, m3, m3.head, RobLoad(s, m3)).head <= |Swept(s, m3, m3.head, RobLoad(s, m3)).ops|
  {
    hide CountersExact, Listed, Zones, SentOnce, PortsOpen, Exact, EdgesInside, Swept;
    var m3 := m.(hasCompleteOp := false);
    PortsKeep(s, m, m3, NO_DEBT, Total(s), Tail(s, m.head));
    HeadInProgram(s, m3);
    HeadInProgram(s, Swept(s, m3, m3.head, RobLoad(s, m3)));
  }

  lemma AdvanceWhenDone(s: Thread, m: Machine, t: nat)
    requires InOrder(s, m) && t >= m.now && m.isDone
    ensures Advanced(s, m, t) == (m, false)
  {
    hide InOrder, Able, EdgesInside;
  }

  // Nothing completed and nothing is due: only the waiting requests were offered.
  lemma AdvanceWhenIdle(s: Thread, m: Machine, t: nat)
    requires InOrder(s, m) && t >= m.now && !m.isDone
    requires var m2 := Offered(s, m, t); !m2.hasCompleteOp && m2.nextEvent > m2.now
    ensures Advanced(s, m, t) == (Offered(s, m, t), false)
  {
    hide InOrder, Able, EdgesInside, RetryLoads, RetryStores;
  }

  lemma OfferedIs(s: Thread, m: Machine, t: nat)
    requires InOrder(s, m) && t >= m.now && Able(s, m.(now := t))
    ensures Offered(s, m, t) == RetryStores(s, RetryLoads(s, m.(now := t), 0), 0)
  {
    hide InOrder, Able, RetryLoads, RetryStores;
  }

  lemma SweptRobIs(s: Thread, m: Machine)
    requires InOrder(s, m) && forall q :: 0 <= q < Total(s) ==> EdgesInside(s, q)
    ensures var m3 := m.(hasCompleteOp := false);
      && Able(s, m3) && s.core.rob >= 1 && m3.head <= |m3.ops| && m3.head + RobLoad(s, m3) <= |m3.ops|
      && Sweep(s, m3, m3.head, RobLoad(s, m3)) == Ok(SweptRob(s, m))
  {
    hide CountersExact, Listed, Zones, SentOnce, PortsOpen, Exact, EdgesInside, Swept, Sweep;
    var m3 := m.(hasCompleteOp := false);
    SweepCase(s, m);
    SweptIsSweep(s, m3, m3.head, RobLoad(s, m3));
  }

  lemma AdvanceWhenDue(s: Thread, m: Machine, t: nat)
    requires InOrder(s, m) && t >= m.now && !m.isDone
    requires var m2 := Offered(s, m, t); m2.hasCompleteOp || m2.nextEvent <= m2.now
    ensures var m4 := SweptRob(s, Offered(s, m, t)); Advanced(s, m, t) == (WithNextEvent(s, m4), m4.isDone)
  {
    hide InOrder, Able, EdgesInside, RetryLoads, RetryStores, Sweep, Offered,
      SweptRob, NextEvent, RobLoad, LoadsRetried, StoresRetried, Swept;
    TimeKeepsAble(s, m, t);
    OfferedIs(s, m, t);
    SweptRobIs(s, Offered(s, m, t));
  }

  // The machine once it knows its next event.
  ghost function WithNextEvent(s: Thread, m: Machine): Machine
    requires m.head <= |m.ops|
  {
    m.(nextEvent := NextEvent(m, m.head, RobLoad(s, m), NEVER))
  }

  lemma TimeKeepsAble(s: Thread, m: Machine, t: nat)
    requires InOrder(s, m)
    ensures Able(s, m.(now := t)) && forall q :: 0 <= q < Total(s) ==> EdgesInside(s, q)
  {
    hide CountersExact, Listed, Zones, SentOnce, Exact, EdgesInside;
    AllEdgesInside(s);
  }

  ghost predicate EdgesLeft(s: Thread, m: Machine, p: nat, tail: nat, e: nat) {
    && Runnable(s) && p < Total(s) && e <= |OpAt(s, p).next|
    && Keeps(s, m, Debt(p, OpAt(s, p).next[e..]), Total(s), tail)
  }

  // What is left to tell after the first e edges.
  ghost function NotifyFrom(s: Thread, m: Machine, p: nat, tail: nat, e: nat): Machine
    requires EdgesLeft(s, m, p, tail, e)
  {
    EdgesStayInside(s, p);
    NotifyKeeps(s, m, p, OpAt(s, p).next[e..], tail);
    Notify(s, m, p, OpAt(s, p).next[e..]).value
  }

  // After e edges the machine `now` still leads to the same end.
  ghost predicate NotifiedUpTo(s: Thread, m: Machine, p: nat, tail: nat, now: Machine, e: nat) {
    && Completing(s, m, p, tail) && EdgesLeft(s, now, p, tail, e) && now.head == m.head
    && NotifyFrom(s, now, p, tail, e) == Notified(s, m, p, tail)
  }

  lemma NotifyStart(s: Thread, m: Machine, p: nat, tail: nat)
    requires Completing(s, m, p, tail)
    ensures NotifiedUpTo(s, m, p, tail, m, 0)
  {
    hide Keeps, Notify, Exact;
    assert OpAt(s, p).next[0..] == OpAt(s, p).next;
  }

  lemma NotifyNext(s: Thread, m: Machine, p: nat, tail: nat, now: Machine, e: nat, child: nat)
    requires NotifiedUpTo(s, m, p, tail, now, e) && e < |OpAt(s, p).next| && child == p + OpAt(s, p).next[e]
    ensures Able(s, now) && child < |now.ops| && now.ops[child].prev > 0
    ensures NotifiedUpTo(s, m, p, tail, PassEdge(s, now, child), e + 1)
  {
    hide CountersExact, Listed, Zones, SentOnce, PassEdge, PortsOpen, Exact, Notified, Completing, OpAt;
    var rest := OpAt(s, p).next[e..];
    EdgesStayInside(s, p);
    PassEdgeKeeps(s, now, Debt(p, rest), child, tail);
    assert rest[1..] == OpAt(s, p).next[e + 1..];
  }

  lemma NotifyEnd(s: Thread, m: Machine, p: nat, tail: nat, now: Machine, e: nat)
    requires NotifiedUpTo(s, m, p, tail, now, e) && e == |OpAt(s, p).next|
    ensures now == Notified(s, m, p, tail)
  {
    hide Keeps, Exact, Completing, Notified;
    assert OpAt(s, p).next[e..] == [];
  }
}
