// Progress: when a core can send one store a cycle and its loads take time, every
// advance leaves something to wait for, and reaching it moves the oldest operation on.
module Progress {
  import opened Wrappers
  import opened ExecGraph
  import opened Programs
  import opened ProgramOrder
  import opened OrderSafety
  import opened OrderRuns
  import opened Sequences

  // ---- The first-level cache ----

  // A load is complete after it has left, or that is told later.
  ghost predicate AnswersLater(l1: Cache) {
    forall k: nat, t: nat :: l1.loadTime(k, t) == 0 || l1.loadTime(k, t) > t
  }

  // Every load is answered at once.
  ghost predicate AnswersAtOnce(l1: Cache) {
    forall k: nat, t: nat :: l1.loadTime(k, t) > 0
  }

  // A line-fill buffer is free whenever one is asked for.
  ghost predicate BuffersFree(s: Thread) {
    forall k: nat :: s.l1.pendingLines(k) < s.core.lfb
  }

  // No store completes in the cycle it leaves in, and neither does a load.
  ghost predicate Unhurried(s: Thread) {
    s.core.st == 1 && AnswersLater(s.l1)
  }

  // ---- What cannot complete yet ----

  // The operation has not completed, and cannot by cycle t.
  ghost predicate Later(s: Thread, op: OpState, t: nat) {
    && op.status != Completed
    && (op.status == Dispatched ==> op.complete > t || (op.complete == 0 && !AnswersAtOnce(s.l1)))
  }

  // The same operation as far as the memory can see.
  predicate SameCourse(a: OpState, b: OpState) {
    a.status == b.status && a.dispatch == b.dispatch && a.complete == b.complete
  }

  // Whatever changes from m to m' is an operation taken up that cannot complete yet.
  ghost predicate TakesUp(s: Thread, m: Machine, m': Machine) {
    && |m'.ops| == |m.ops| && m'.now == m.now
    && (forall q :: 0 <= q < |m.ops| ==>
          SameCourse(m.ops[q], m'.ops[q]) || (!Started(m.ops[q]) && Later(s, m'.ops[q], m.now)))
    && (Settled(s, m) ==> Settled(s, m'))
  }

  ghost predicate AllAfter(list: seq<Request>, t: nat) {
    forall i :: 0 <= i < |list| ==> list[i].dispatch > t
  }

  // What waits for a port could not have left yet.
  ghost predicate Settled(s: Thread, m: Machine) {
    AllAfter(m.pendingSt, m.now) && (BuffersFree(s) ==> AllAfter(m.pendingLd, m.now))
  }

  lemma TakesUpTwice(s: Thread, m: Machine, m1: Machine, m2: Machine)
    requires TakesUp(s, m, m1) && TakesUp(s, m1, m2)
    ensures TakesUp(s, m, m2)
  {
    hide Settled, AnswersAtOnce;
  }

  lemma TryLoadTakesUp(s: Thread, m: Machine, r: Request)
    requires Able(s, m) && r.pos < |m.ops| && Unhurried(s) && !Started(m.ops[r.pos])
    ensures var (m', sent) := TryLoad(s, m, r); TakesUp(s, m, m') && (!sent && BuffersFree(s) ==> r.dispatch > m.now)
  {
    hide PortsOpen, OpAt, Total;
  }

  lemma TryStoreTakesUp(s: Thread, m: Machine, r: Request)
    requires Able(s, m) && r.pos < |m.ops| && Unhurried(s) && !Started(m.ops[r.pos])
    ensures var (m', sent) := TryStore(s, m, r); TakesUp(s, m, m') && (!sent ==> r.dispatch > m.now)
  {
    hide OpAt, Total;
  }

  lemma ToPortTakesUp(s: Thread, m: Machine, p: nat)
    requires Able(s, m) && p < |m.ops| && Unhurried(s) && !Started(m.ops[p])
    ensures TakesUp(s, m, ToPort(s, m, p))
  {
    hide TryLoad, TryStore, PortsOpen, OpAt, AnswersAtOnce, BuffersFree, Unhurried;
    var r := Request(p, m.ops[p].dispatch);
    TryLoadTakesUp(s, m, r);
    TryStoreTakesUp(s, m, r);
    ListsKept(s, m, r);
  }

  lemma DispatchTakesUp(s: Thread, m: Machine, p: nat)
    requires Able(s, m) && p < |m.ops| && Unhurried(s) && !Started(m.ops[p])
    ensures TakesUp(s, m, Dispatch(s, m, p))
  {
    hide ToPort, PortsOpen, OpAt, TakeAlu, AnswersAtOnce, BuffersFree, Unhurried;
    if m.ops[p].prev == 0 {
      var m1 := Compute(s, m, p);
      assert TakesUp(s, m, m1);
      ToPortTakesUp(s, m1, p);
      TakesUpTwice(s, m, m1, ToPort(s, m1, p));
    }
  }

  lemma RetireTakesUp(s: Thread, m: Machine)
    requires Able(s, m) && m.head < |m.ops| && s.core.rob >= 1 && Unhurried(s)
    requires m.head + s.core.rob < |m.ops| ==> !Started(m.ops[m.head + s.core.rob])
    ensures TakesUp(s, m, RetireHead(s, m))
  {
    hide Dispatch, PortsOpen, OpAt, AnswersAtOnce, BuffersFree, Unhurried, Later;
    var m1 := m.(head := m.head + 1);
    if m1.head + s.core.rob <= |m.ops| {
      DispatchTakesUp(s, m1, m1.head + s.core.rob - 1);
    }
  }

  lemma PassEdgeTakesUp(s: Thread, m: Machine, child: nat)
    requires Able(s, m) && child < |m.ops| && m.ops[child].prev > 0 && Unhurried(s)
    ensures TakesUp(s, m, PassEdge(s, m, child))
  {
    hide Dispatch, PortsOpen, OpAt, AnswersAtOnce, BuffersFree, Unhurried, Later;
    var op := m.ops[child];
    var m1 := m.(ops := m.ops[child := op.(prev := op.prev - 1)]);
    if op.prev == 1 && op.status == Pending {
      DispatchTakesUp(s, m1, child);
      TakesUpTwice(s, m, m1, Dispatch(s, m1, child));
    }
  }

  lemma {:induction false} NotifyTakesUp(s: Thread, m: Machine, p: nat, next: seq<nat>)
    requires Able(s, m) && (forall e :: 0 <= e < |next| ==> p + next[e] < |m.ops|) && Unhurried(s)
    ensures var r := Notify(s, m, p, next); r.Ok? ==> TakesUp(s, m, r.value)
    decreases |next|
  {
    hide PassEdge, PortsOpen, OpAt, AnswersAtOnce, BuffersFree, Unhurried, Later, TakesUp, Total;
    if next == [] {
      assert TakesUp(s, m, m) by { NothingTakenUp(s, m); }
    } else {
      var child := p + next[0];
      if m.ops[child].prev > 0 {
        var m1 := PassEdge(s, m, child);
        PassEdgeTakesUp(s, m, child);
        NotifyTakesUp(s, m1, p, next[1..]);
        if Notify(s, m1, p, next[1..]).Ok? {
          TakesUpTwice(s, m, m1, Notify(s, m1, p, next[1..]).value);
        }
      }
    }
  }

  lemma NothingTakenUp(s: Thread, m: Machine)
    ensures TakesUp(s, m, m)
  {
  }

  // ---- The sweep ----

  // The sweep has reached position p and goes up to `end`: an oldest operation that it
  // has left behind, and all it will not look at, cannot complete yet.
  ghost predicate SweptTo(s: Thread, m: Machine, p: nat, end: nat) {
    && (m.head < p && m.head < |m.ops| ==> Later(s, m.ops[m.head], m.now))
    && (forall q :: end <= q < |m.ops| ==> Later(s, m.ops[q], m.now))
  }

  // Time and the head do not go back, and nothing that has started starts again.
  ghost predicate Onward(m: Machine, m': Machine) {
    && |m'.ops| == |m.ops| && m'.now >= m.now && m'.head >= m.head
    && forall q :: 0 <= q < |m.ops| && Started(m.ops[q]) ==> Started(m'.ops[q])
  }

  // Every operation that has gone to an answering cache knows when it completes.
  ghost predicate Told(s: Thread, m: Machine) {
    AnswersAtOnce(s.l1) ==> forall q :: 0 <= q < |m.ops| && m.ops[q].status == Dispatched ==> m.ops[q].complete > 0
  }

  // Operation p completes, it may leave, and others are taken up.
  lemma CompletionSweeps(s: Thread, m: Machine, m1: Machine, m2: Machine, p: nat, end: nat)
    requires p < end && p < |m.ops| && m.head <= p && SweptTo(s, m, p, end) && Settled(s, m) && Told(s, m)
    requires m1 == m.(ops := m.ops[p := m.ops[p].(status := Completed)]) && TakesUp(s, m1, m2)
    requires m2.head == if p == m.head then m.head + 1 else m.head
    ensures SweptTo(s, m2, p + 1, end) && Settled(s, m2) && Told(s, m2) && Onward(m, m2)
  {
    hide AnswersAtOnce, BuffersFree, AllAfter;
  }

  // The operation at p is due.
  lemma DueSweeps(s: Thread, m: Machine, p: nat, end: nat)
    requires Able(s, m) && s.core.rob >= 1 && Unhurried(s) && m.head <= p < end && p < |m.ops| && EdgesInside(s, p)
    requires m.head + s.core.rob < |m.ops| ==> !Started(m.ops[m.head + s.core.rob])
    requires m.ops[p].status == Dispatched && 0 < m.ops[p].complete <= m.now
    requires SweptTo(s, m, p, end) && Settled(s, m) && Told(s, m)
    ensures var r := Visit(s, m, p); r.Ok? ==>
      SweptTo(s, r.value, p + 1, end) && Settled(s, r.value) && Told(s, r.value) && Onward(m, r.value)
  {
    hide RetireHead, Notify, PortsOpen, OpAt, Unhurried, TakesUp, Settled, Told, Total, SweptTo, Onward, Later;
    var m1 := m.(ops := m.ops[p := m.ops[p].(status := Completed)]);
    var m2 := if p == m.head then RetireHead(s, m1) else m1;
    if p == m.head {
      RetireTakesUp(s, m1);
    } else {
      NothingTakenUp(s, m1);
    }
    var r := Visit(s, m, p);
    if r.Ok? {
      if !m2.isDone {
        NotifyTakesUp(s, m2, p, OpAt(s, p).next);
        TakesUpTwice(s, m1, m2, r.value);
      }
      CompletionSweeps(s, m, m1, r.value, p, end);
    }
  }

  lemma VisitSweeps(s: Thread, m: Machine, p: nat, end: nat)
    requires InOrder(s, m) && Unhurried(s) && m.head <= p < end && p < |m.ops| && EdgesInside(s, p)
    requires SweptTo(s, m, p, end) && Settled(s, m) && Told(s, m)
    ensures var r := Visit(s, m, p); r.Ok? ==>
      SweptTo(s, r.value, p + 1, end) && Settled(s, r.value) && Told(s, r.value) && Onward(m, r.value)
  {
    RobEnters(s, m);
    hide InOrder, RetireHead, Notify, PortsOpen, OpAt, Unhurried, TakesUp, Settled, Told, Total, SweptTo, Onward, Later;
    if m.ops[p].status == Dispatched && 0 < m.ops[p].complete <= m.now {
      DueSweeps(s, m, p, end);
    } else if m.ops[p].status == Completed && p == m.head {
      RetireTakesUp(s, m);
      assert m.ops[p := m.ops[p].(status := Completed)] == m.ops;
      CompletionSweeps(s, m, m, RetireHead(s, m), p, end);
    } else {
      PassedBy(s, m, p, end);
    }
  }

  // What enters the reorder window next has not started.
  lemma RobEnters(s: Thread, m: Machine)
    requires InOrder(s, m)
    ensures Able(s, m) && s.core.rob >= 1
    ensures m.head + s.core.rob < |m.ops| ==> !Started(m.ops[m.head + s.core.rob])
  {
    hide CountersExact, Listed, SentOnce, PortsOpen, Exact;
  }

  lemma PassedBy(s: Thread, m: Machine, p: nat, end: nat)
    requires p < |m.ops| && m.head <= p && SweptTo(s, m, p, end) && Told(s, m)
    requires m.ops[p].status == Dispatched ==> m.ops[p].complete == 0 || m.ops[p].complete > m.now
    requires m.ops[p].status == Completed ==> p != m.head
    ensures SweptTo(s, m, p + 1, end) && Onward(m, m)
  {
    hide AnswersAtOnce;
  }

  lemma {:induction false} SweepSweeps(s: Thread, m: Machine, p: nat, n: nat, end: nat)
    requires InOrder(s, m) && Unhurried(s) && m.head <= p && p + n == end <= |m.ops|
    requires forall q :: 0 <= q < Total(s) ==> EdgesInside(s, q)
    requires SweptTo(s, m, p, end) && Settled(s, m) && Told(s, m)
    ensures var r := Sweep(s, m, p, n);
      r.Ok? && InOrder(s, r.value) && SweptTo(s, r.value, end, end) && Settled(s, r.value) && Told(s, r.value) && Onward(m, r.value)
    decreases n
  {
    hide CountersExact, Listed, Zones, SentOnce, Exact, Visit, PortsOpen, Unhurried, EdgesInside, SweptTo, Settled, Told, Onward;
    assert Onward(m, m) by { NoStep(m); }
    SweepKeeps(s, m, p, n);
    if n > 0 {
      VisitKeeps(s, m, p);
      VisitSweeps(s, m, p, end);
      var m1 := Visit(s, m, p).value;
      SweepSweeps(s, m1, p + 1, n - 1, end);
      OnwardTwice(m, m1, Sweep(s, m1, p + 1, n - 1).value);
    }
  }

  lemma NoStep(m: Machine)
    ensures Onward(m, m)
  {
  }

  lemma OnwardTwice(m: Machine, m1: Machine, m2: Machine)
    requires Onward(m, m1) && Onward(m1, m2)
    ensures Onward(m, m2)
  {
  }

  // ---- Waiting requests ----

  // Some operations that waited for their port have left, and cannot complete yet. If
  // none has, hasCompleteOp tells.
  ghost predicate Sends(s: Thread, m: Machine, m': Machine) {
    && |m'.ops| == |m.ops| && m'.now == m.now && m'.head == m.head && m'.isDone == m.isDone && m'.nextEvent == m.nextEvent
    && (forall q :: 0 <= q < |m.ops| ==>
          SameCourse(m.ops[q], m'.ops[q])
          || (!Started(m.ops[q]) && m'.ops[q].status == Dispatched && Later(s, m'.ops[q], m.now)))
    && (m.hasCompleteOp ==> m'.hasCompleteOp)
    && (!m'.hasCompleteOp ==> m'.ops == m.ops)
  }

  lemma NoneSent(s: Thread, m: Machine)
    ensures Sends(s, m, m)
  {
  }

  lemma SendsTwice(s: Thread, m: Machine, m1: Machine, m2: Machine)
    requires Sends(s, m, m1) && Sends(s, m1, m2)
    ensures Sends(s, m, m2)
  {
    hide AnswersAtOnce;
  }

  // One waiting load is offered its port.
  lemma LoadOffered(s: Thread, m: Machine, i: nat)
    requires Able(s, m) && i < |m.pendingLd| && Unhurried(s) && !Started(m.ops[m.pendingLd[i].pos])
    ensures var (m1, sent) := TryLoad(s, m, m.pendingLd[i]);
      && m1.pendingLd == m.pendingLd && m1.pendingSt == m.pendingSt
      && Sends(s, m, if sent then m1.(pendingLd := Drop(m1.pendingLd, i), hasCompleteOp := true) else m1)
      && (!sent && BuffersFree(s) ==> m.pendingLd[i].dispatch > m.now)
  {
    hide PortsOpen, OpAt, Total, Drop;
  }

  lemma StoreOffered(s: Thread, m: Machine, i: nat)
    requires Able(s, m) && i < |m.pendingSt| && Unhurried(s) && !Started(m.ops[m.pendingSt[i].pos])
    ensures var (m1, sent) := TryStore(s, m, m.pendingSt[i]);
      && m1.pendingLd == m.pendingLd && m1.pendingSt == m.pendingSt
      && Sends(s, m, if sent then m1.(pendingSt := Drop(m1.pendingSt, i), hasCompleteOp := true) else m1)
      && (!sent ==> m.pendingSt[i].dispatch > m.now)
  {
    hide OpAt, Total, Drop;
  }

  lemma WaitingNotStarted(s: Thread, m: Machine, kind: OpType, i: nat)
    requires InOrder(s, m) && i < |Queue(m, kind)|
    ensures Able(s, m) && Queue(m, kind)[i].pos < |m.ops| && !Started(m.ops[Queue(m, kind)[i].pos])
  {
    WaitingKind(s, m, kind, i);
    hide CountersExact, Listed, Zones, SentOnce, Exact, PortsOpen, OpAt;
  }

  lemma {:induction false} RetryLoadsSends(s: Thread, m: Machine, i: nat)
    requires InOrder(s, m) && i <= |m.pendingLd| && Unhurried(s)
    requires BuffersFree(s) ==> AllAfter(m.pendingLd[..i], m.now)
    ensures var m' := RetryLoads(s, m, i);
      && InOrder(s, m') && Sends(s, m, m') && m'.pendingSt == m.pendingSt
      && (BuffersFree(s) ==> AllAfter(m'.pendingLd, m'.now))
    decreases |m.pendingLd| - i
  {
    hide CountersExact, Listed, Zones, SentOnce, TryLoad, PortsOpen, Exact, Unhurried, Sends, BuffersFree, Runnable,
         Later, InDegree;
    RetryLoadsKeeps(s, m, i);
    if i == |m.pendingLd| {
      NoneSent(s, m);
      assert m.pendingLd[..i] == m.pendingLd;
    } else {
      WaitingNotStarted(s, m, LOAD, i);
      LoadOffered(s, m, i);
      RetriedLoadKeeps(s, m, i);
      var (m1, sent) := TryLoad(s, m, m.pendingLd[i]);
      var m2 := if sent then m1.(pendingLd := Drop(m1.pendingLd, i), hasCompleteOp := true) else m1;
      assert m2.pendingLd[..i] == m.pendingLd[..i];
      RetryLoadsSends(s, m2, if sent then i else i + 1);
      SendsTwice(s, m, m2, RetryLoads(s, m, i));
    }
  }

  lemma {:induction false} RetryStoresSends(s: Thread, m: Machine, i: nat)
    requires InOrder(s, m) && i <= |m.pendingSt| && Unhurried(s)
    requires AllAfter(m.pendingSt[..i], m.now)
    ensures var m' := RetryStores(s, m, i);
      InOrder(s, m') && Sends(s, m, m') && m'.pendingLd == m.pendingLd && AllAfter(m'.pendingSt, m'.now)
    decreases |m.pendingSt| - i
  {
    hide CountersExact, Listed, Zones, SentOnce, TryStore, PortsOpen, Exact, Unhurried, Sends, Runnable, Later,
         InDegree;
    RetryStoresKeeps(s, m, i);
    if i == |m.pendingSt| {
      NoneSent(s, m);
      assert m.pendingSt[..i] == m.pendingSt;
    } else {
      WaitingNotStarted(s, m, STORE, i);
      StoreOffered(s, m, i);
      RetriedStoreKeeps(s, m, i);
      var (m1, sent) := TryStore(s, m, m.pendingSt[i]);
      var m2 := if sent then m1.(pendingSt := Drop(m1.pendingSt, i), hasCompleteOp := true) else m1;
      assert m2.pendingSt[..i] == m.pendingSt[..i];
      RetryStoresSends(s, m2, if sent then i else i + 1);
      SendsTwice(s, m, m2, RetryStores(s, m, i));
    }
  }

  // Time passes and every waiting request is offered its port.
  function Offer(s: Thread, m: Machine, t: nat): (m': Machine)
    requires Able(s, m)
    ensures Able(s, m') && m'.head == m.head && m'.isDone == m.isDone && m'.now == t
  {
    RetryStores(s, RetryLoads(s, m.(now := t), 0), 0)
  }

  lemma OfferSends(s: Thread, m: Machine, t: nat)
    requires InOrder(s, m) && Unhurried(s) && t >= m.now && Told(s, m)
    ensures var m' := Offer(s, m, t);
      InOrder(s, m') && Sends(s, m.(now := t), m') && Settled(s, m') && Told(s, m') && Onward(m, m')
  {
    hide CountersExact, Listed, Zones, SentOnce, Exact, RetryLoads, RetryStores, Unhurried, Sends, BuffersFree, AllAfter, PortsOpen,
         Told, Onward;
    TimePasses(s, m, t);
    var m0 := m.(now := t);
    assert AllAfter(m0.pendingLd[..0], t) && AllAfter(m0.pendingSt[..0], t) by { NoneWaits(m0, t); }
    RetryLoadsSends(s, m0, 0);
    var m1 := RetryLoads(s, m0, 0);
    assert Sends(s, m0, m1);
    RetryStoresSends(s, m1, 0);
    SendsTwice(s, m0, m1, RetryStores(s, m1, 0));
    SentIsTold(s, m, m0, RetryStores(s, m1, 0));
  }

  lemma NoneWaits(m: Machine, t: nat)
    ensures AllAfter(m.pendingLd[..0], t) && AllAfter(m.pendingSt[..0], t)
  {
  }

  lemma SentIsTold(s: Thread, m: Machine, m0: Machine, m1: Machine)
    requires Told(s, m) && m0 == m.(now := m0.now) && m0.now >= m.now && Sends(s, m0, m1)
    ensures Told(s, m1) && Onward(m, m1)
  {
    hide AnswersAtOnce;
  }

  // ---- What the run waits for ----

  predicate HeadInside(m: Machine) {
    m.head < |m.ops|
  }

  // The oldest operation has left and the memory will tell when it completes.
  predicate AwaitsMemory(m: Machine) {
    HeadInside(m) && m.ops[m.head].status == Dispatched && m.ops[m.head].complete == 0
  }

  // The oldest operation is a load that could have left, but for a line-fill buffer.
  predicate AwaitsBuffer(s: Thread, m: Machine) {
    && HeadInside(m) && m.ops[m.head].status == Pending && m.ops[m.head].dispatch <= m.now
    && |s.prog.ops| > 0 && OpAt(s, m.head).kind == LOAD
  }

  // What every state of a run keeps: the context looks at its window no later than at
  // the oldest operation's event.
  ghost predicate Live(s: Thread, m: Machine) {
    && Settled(s, m) && Told(s, m)
    && (!m.isDone ==>
          && HeadInside(m) && m.ops[m.head].status != Completed
          && (m.hasCompleteOp || AwaitsMemory(m) || AwaitsBuffer(s, m) || m.nextEvent <= EventOf(m.ops[m.head])))
  }

  // After an advance: the run is over, or its oldest operation waits for the memory, or
  // for a line-fill buffer, or there is an event still to come, and the context knows of
  // one that is no later.
  predicate GoesOn(s: Thread, m: Machine) {
    || m.isDone || AwaitsMemory(m) || AwaitsBuffer(s, m)
    || (HeadInside(m) && m.now < EventOf(m.ops[m.head]) && m.nextEvent <= EventOf(m.ops[m.head])
        && (m.now < NEVER ==> m.now < m.nextEvent))
  }

  // The oldest operation has gone to its port or waits for it.
  lemma HeadWaits(s: Thread, m: Machine)
    requires InOrder(s, m) && !m.isDone && Settled(s, m)
    ensures HeadInside(m) && m.ops[m.head].status != Issued
    ensures m.ops[m.head].status == Pending ==> m.ops[m.head].dispatch > m.now || (AwaitsBuffer(s, m) && !BuffersFree(s))
  {
    HeadIsUnderWay(s, m);
    hide CountersExact, Zones, SentOnce, Exact, PortsOpen, OpAt, BuffersFree;
    var list := Queue(m, OpAt(s, m.head).kind);
    if Waits(list, m.head) {
      var i :| 0 <= i < |list| && list[i].pos == m.head;
      assert m.ops[m.head].dispatch == list[i].dispatch;
    }
  }

  // Before the sweep nothing outside the reorder window can complete.
  lemma SweepStarts(s: Thread, m: Machine)
    requires InOrder(s, m)
    ensures m.head <= |m.ops| && SweptTo(s, m, m.head, m.head + RobLoad(s, m)) && m.head + RobLoad(s, m) <= |m.ops|
  {
    hide CountersExact, Listed, SentOnce, Exact, PortsOpen, AnswersAtOnce, OpAt;
  }

  // The end of an advance that swept the window.
  lemma SweptIsLive(s: Thread, m: Machine, end: nat)
    requires InOrder(s, m) && SweptTo(s, m, end, end) && Settled(s, m) && Told(s, m) && m.head <= |m.ops|
    ensures var m' := m.(nextEvent := NextEvent(m, m.head, RobLoad(s, m), NEVER)); Live(s, m') && GoesOn(s, m')
  {
    hide InOrder, AnswersAtOnce, BuffersFree, AllAfter, OpAt;
    if !m.isDone {
      HeadWaits(s, m);
      RobHolds(s, m);
      NextEventIsEarliest(m, m.head, RobLoad(s, m), NEVER);
    }
  }

  lemma RobHolds(s: Thread, m: Machine)
    requires InOrder(s, m) && HeadInside(m)
    ensures RobLoad(s, m) >= 1
  {
    hide Keeps, Exact;
  }

  // One advance.
  lemma AdvanceIsLive(s: Thread, m: Machine, t: nat)
    requires InOrder(s, m) && Unhurried(s) && t >= m.now && Live(s, m)
    requires m.head <= |m.ops| && forall q :: 0 <= q < Total(s) ==> EdgesInside(s, q)
    ensures var r := Advance(s, m, t);
      && r.Ok? && InOrder(s, r.value.0) && Live(s, r.value.0) && GoesOn(s, r.value.0) && Onward(m, r.value.0)
  {
    hide CountersExact, Listed, Zones, SentOnce, Exact, PortsOpen, RetryLoads, RetryStores, Sweep, NextEvent, EdgesInside, Unhurried,
         Told, Settled, SweptTo, OpAt, RobLoad, Later;
    AdvanceKeeps(s, m, t);
    if m.isDone {
      NoStep(m);
    } else {
      OfferSends(s, m, t);
      var m1 := Offer(s, m, t);
      if m1.hasCompleteOp || m1.nextEvent <= m1.now {
        SweepIsLive(s, m1);
        OnwardTwice(m, m1, Advance(s, m, t).value.0);
      }
    }
  }

  // The second half of an advance.
  lemma SweepIsLive(s: Thread, m: Machine)
    requires InOrder(s, m) && Unhurried(s) && Settled(s, m) && Told(s, m)
    requires m.head <= |m.ops| && forall q :: 0 <= q < Total(s) ==> EdgesInside(s, q)
    ensures var m2 := m.(hasCompleteOp := false); Able(s, m2) && m2.head + RobLoad(s, m2) <= |m2.ops|
    ensures var m2 := m.(hasCompleteOp := false);
      var r := Sweep(s, m2, m2.head, RobLoad(s, m2));
      && r.Ok? && r.value.head <= |r.value.ops|
      && var m3 := r.value;
         var m4 := m3.(nextEvent := NextEvent(m3, m3.head, RobLoad(s, m3), NEVER));
         Live(s, m4) && GoesOn(s, m4) && Onward(m, m4)
  {
    hide CountersExact, Listed, Zones, SentOnce, Exact, PortsOpen, Sweep, NextEvent, EdgesInside, Unhurried, Told, Settled, SweptTo,
         OpAt, Live, GoesOn;
    var m2 := m.(hasCompleteOp := false);
    PortsKeep(s, m, m2, NO_DEBT, Total(s), Tail(s, m.head));
    assert Settled(s, m2) && Told(s, m2) && Onward(m, m2) by { FlagsDoNotMatter(s, m); }
    SweepStarts(s, m2);
    SweepSweeps(s, m2, m2.head, RobLoad(s, m2), m2.head + RobLoad(s, m2));
    var m3 := Sweep(s, m2, m2.head, RobLoad(s, m2)).value;
    HeadInProgram(s, m3);
    SweptIsLive(s, m3, m2.head + RobLoad(s, m2));
    OnwardTwice(m, m2, m3);
    assert Onward(m, m3.(nextEvent := NextEvent(m3, m3.head, RobLoad(s, m3), NEVER)));
  }

  lemma FlagsDoNotMatter(s: Thread, m: Machine)
    requires Settled(s, m) && Told(s, m)
    ensures var m2 := m.(hasCompleteOp := false); Settled(s, m2) && Told(s, m2) && Onward(m, m2)
  {
  }
}
