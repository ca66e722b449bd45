// What every run of the window machine keeps: exact dependency counters, one request
// per operation, retirement in program order.
module OrderSafety {
  import opened Bits
  import opened Counting
  import opened ExecGraph
  import opened Programs
  import opened ProgramOrder
  import opened Sequences

  // ---- Counters ----

  // Edges from position p to position q of the whole program.
  function Edges(s: Thread, p: nat, q: nat): nat
    requires |s.prog.ops| > 0
  {
    if p < q then Count<nat>(OpAt(s, p).next, q - p) else 0
  }

  // Edges into q from those of the first n operations that have not completed.
  function Owed(s: Thread, ops: seq<OpState>, n: nat, q: nat): nat
    requires |s.prog.ops| > 0 && n <= |ops|
    decreases n
  {
    if n == 0 then 0
    else Owed(s, ops, n - 1, q) + if ops[n - 1].status == Completed then 0 else Edges(s, n - 1, q)
  }

  // What a completed operation has yet to pass on: the distances in `next`, from `from`.
  datatype Debt = Debt(from: nat, next: seq<nat>)

  const NO_DEBT := Debt(0, [])

  function DebtTo(d: Debt, q: nat): nat {
    if d.from < q then Count<nat>(d.next, q - d.from) else 0
  }

  ghost predicate CountersExact(s: Thread, m: Machine, d: Debt)
    requires InProgram(s, m)
  {
    forall q :: 0 <= q < |m.ops| ==> m.ops[q].prev == Owed(s, m.ops, |m.ops|, q) + DebtTo(d, q)
  }

  // ---- Requests ----

  function SentCount(sent: seq<Sent>, p: nat): nat
    decreases |sent|
  {
    if sent == [] then 0 else SentCount(sent[..|sent| - 1], p) + if sent[|sent| - 1].pos == p then 1 else 0
  }

  predicate Waits(list: seq<Request>, p: nat) {
    exists i :: 0 <= i < |list| && list[i].pos == p
  }

  predicate Started(op: OpState) {
    op.status == Dispatched || op.status == Completed
  }

  // The list of waiting requests of one kind.
  function Queue(m: Machine, kind: OpType): seq<Request> {
    if kind == LOAD then m.pendingLd else m.pendingSt
  }

  ghost predicate Listed(s: Thread, m: Machine, kind: OpType)
    requires InProgram(s, m)
  {
    var list := Queue(m, kind);
    && (forall i :: 0 <= i < |list| ==>
          && list[i].pos < |m.ops| && OpAt(s, list[i].pos).kind == kind
          && m.ops[list[i].pos].status == Pending && m.ops[list[i].pos].prev == 0
          && m.ops[list[i].pos].dispatch == list[i].dispatch)
    && forall i, j :: 0 <= i < j < |list| ==> list[i].pos != list[j].pos
  }

  // Operations before head are done, those up to tail have been taken up, the rest
  // have not. Operation c, if there is one, is about to be dispatched.
  ghost predicate Zones(s: Thread, m: Machine, tail: nat, c: nat)
    requires InProgram(s, m)
  {
    && m.head <= tail <= |m.ops|
    && (forall p :: 0 <= p < m.head ==> m.ops[p].status == Completed)
    && (forall p :: m.head <= p < tail ==> m.ops[p].status != Issued)
    && (forall p :: tail <= p < |m.ops| ==> m.ops[p].status == Issued)
    && (forall p :: 0 <= p < |m.ops| && Started(m.ops[p]) ==> m.ops[p].prev == 0)
    && (forall p :: 0 <= p < |m.ops| && m.ops[p].status == Completed ==> 0 < m.ops[p].complete <= m.now)
    && (forall p :: 0 <= p < |m.ops| && p != c && m.ops[p].status == Pending && m.ops[p].prev == 0 ==>
          Waits(Queue(m, OpAt(s, p).kind), p))
    && (c < |m.ops| ==> !Started(m.ops[c]) && !Waits(m.pendingLd, c) && !Waits(m.pendingSt, c))
  }

  // Every operation has been sent once if it has started, else never.
  ghost predicate SentOnce(s: Thread, m: Machine)
    requires InProgram(s, m)
  {
    && (forall p :: 0 <= p < |m.ops| ==> SentCount(m.sent, p) == if Started(m.ops[p]) then 1 else 0)
    && forall i :: 0 <= i < |m.sent| ==> m.sent[i].pos < |m.ops| && m.sent[i].kind == OpAt(s, m.sent[i].pos).kind
  }

  ghost predicate Keeps(s: Thread, m: Machine, d: Debt, c: nat, tail: nat) {
    && Runnable(s) && Able(s, m) && CountersExact(s, m, d)
    && Listed(s, m, LOAD) && Listed(s, m, STORE) && Zones(s, m, tail, c) && SentOnce(s, m)
    && (m.isDone <==> m.head == |m.ops|)
  }

  // The invariant between two calls.
  ghost predicate InOrder(s: Thread, m: Machine) {
    Runnable(s) && Keeps(s, m, NO_DEBT, Total(s), Least(m.head + s.core.rob, Total(s)))
  }

  lemma HeadInProgram(s: Thread, m: Machine)
    requires InOrder(s, m)
    ensures m.head <= |m.ops|
  {
  }

  // ---- Counters depend only on what has completed ----

  lemma {:induction false} OwedSame(s: Thread, a: seq<OpState>, b: seq<OpState>, n: nat, q: nat)
    requires |s.prog.ops| > 0 && n <= |a| == |b|
    requires forall p :: 0 <= p < n ==> (a[p].status == Completed <==> b[p].status == Completed)
    ensures Owed(s, a, n, q) == Owed(s, b, n, q)
    decreases n
  {
    if n > 0 {
      OwedSame(s, a, b, n - 1, q);
    }
  }

  lemma {:induction false} OwedCompleted(s: Thread, a: seq<OpState>, b: seq<OpState>, p: nat, n: nat, q: nat)
    requires |s.prog.ops| > 0 && n <= |a| == |b| && p < |a|
    requires a[p].status != Completed && b[p].status == Completed
    requires forall i :: 0 <= i < n && i != p ==> (a[i].status == Completed <==> b[i].status == Completed)
    ensures Owed(s, a, n, q) == Owed(s, b, n, q) + if p < n then Edges(s, p, q) else 0
    decreases n
  {
    if n > 0 {
      OwedCompleted(s, a, b, p, n - 1, q);
    }
  }

  // One operation changes, not its counter and not to or from Completed.
  lemma CountersStay(s: Thread, m: Machine, m': Machine, d: Debt)
    requires InProgram(s, m) && InProgram(s, m') && CountersExact(s, m, d)
    requires forall p :: 0 <= p < |m.ops| ==>
      m'.ops[p].prev == m.ops[p].prev && (m'.ops[p].status == Completed <==> m.ops[p].status == Completed)
    ensures CountersExact(s, m', d)
  {
    hide Owed;
    forall q | 0 <= q < |m'.ops| ensures m'.ops[q].prev == Owed(s, m'.ops, |m'.ops|, q) + DebtTo(d, q) {
      OwedSame(s, m.ops, m'.ops, |m.ops|, q);
    }
  }

  lemma SentAppended(sent: seq<Sent>, x: Sent, p: nat)
    ensures SentCount(sent + [x], p) == SentCount(sent, p) + if x.pos == p then 1 else 0
  {
    assert (sent + [x])[..|sent|] == sent;
  }

  // ---- Sending and waiting ----

  // m' is m after operation p went to the cache.
  ghost predicate SentTo(s: Thread, m: Machine, m': Machine, p: nat)
    requires InProgram(s, m) && p < |m.ops|
  {
    && |m'.ops| == |m.ops| && m'.now == m.now && m'.head == m.head && m'.isDone == m.isDone
    && m'.pendingLd == m.pendingLd && m'.pendingSt == m.pendingSt
    && (exists x: nat :: m'.ops == m.ops[p := m.ops[p].(status := Dispatched, complete := x)])
    && exists ready: nat, t: nat :: m'.sent == m.sent + [Sent(OpAt(s, p).kind, p, ready, t)]
  }

  // The operation about to be dispatched is on no list.
  lemma ListsAvoid(s: Thread, m: Machine, tail: nat, c: nat, kind: OpType)
    requires InProgram(s, m) && Zones(s, m, tail, c) && c < |m.ops|
    ensures forall i :: 0 <= i < |Queue(m, kind)| ==> Queue(m, kind)[i].pos != c
  {
    forall i | 0 <= i < |Queue(m, kind)| ensures Queue(m, kind)[i].pos != c {
      assert Queue(m, kind)[i].pos == c ==> Waits(Queue(m, kind), c);
    }
  }

  lemma ListsStay(s: Thread, m: Machine, m': Machine, kind: OpType)
    requires InProgram(s, m) && |m'.ops| == |m.ops| && Queue(m', kind) == Queue(m, kind)
    requires Listed(s, m, kind)
    requires forall i :: 0 <= i < |Queue(m, kind)| ==>
      var a, b := m.ops[Queue(m, kind)[i].pos], m'.ops[Queue(m, kind)[i].pos];
      b.status == a.status && b.prev == a.prev && b.dispatch == a.dispatch
    ensures Listed(s, m', kind)
  {
    hide OpAt, Total;
    var list := Queue(m, kind);
    forall i | 0 <= i < |list|
      ensures list[i].pos < |m'.ops| && OpAt(s, list[i].pos).kind == kind
      ensures m'.ops[list[i].pos].status == Pending && m'.ops[list[i].pos].prev == 0
      ensures m'.ops[list[i].pos].dispatch == list[i].dispatch
    {
    }
    forall i, j | 0 <= i < j < |list| ensures list[i].pos != list[j].pos {
    }
  }

  lemma SendKeepsLists(s: Thread, m: Machine, m': Machine, p: nat, tail: nat, kind: OpType)
    requires InProgram(s, m) && p < |m.ops| && SentTo(s, m, m', p) && InProgram(s, m')
    requires Listed(s, m, kind) && Zones(s, m, tail, p)
    ensures Listed(s, m', kind)
  {
    ListsAvoid(s, m, tail, p, kind);
    hide OpAt, Total, SentCount, Zones;
    var list, list' := Queue(m, kind), Queue(m', kind);
    forall i | 0 <= i < |list'|
      ensures list'[i].pos < |m'.ops| && OpAt(s, list'[i].pos).kind == kind
      ensures m'.ops[list'[i].pos].status == Pending && m'.ops[list'[i].pos].prev == 0
      ensures m'.ops[list'[i].pos].dispatch == list'[i].dispatch
    {
      if i < |list| {
        assert list'[i] == list[i];
        assert m'.ops[list[i].pos] == m.ops[list[i].pos];
      }
    }
    forall i, j | 0 <= i < j < |list'| ensures list'[i].pos != list'[j].pos {
      assert j < |list| ==> list[i].pos != list[j].pos;
    }
  }

  lemma SendKeepsZones(s: Thread, m: Machine, m': Machine, p: nat, tail: nat)
    requires InProgram(s, m) && p < |m.ops| && SentTo(s, m, m', p) && InProgram(s, m')
    requires Zones(s, m, tail, p) && p <= tail && m.ops[p].prev == 0
    ensures Zones(s, m', Latest(tail, p + 1), Total(s))
  {
    hide OpAt, SentCount;
  }

  lemma SendKeepsSent(s: Thread, m: Machine, m': Machine, p: nat)
    requires InProgram(s, m) && p < |m.ops| && SentTo(s, m, m', p) && InProgram(s, m')
    requires SentOnce(s, m) && !Started(m.ops[p])
    ensures SentOnce(s, m')
  {
    hide SentCount, OpAt, Total;
    forall q | 0 <= q < |m.ops| ensures SentCount(m'.sent, q) == if Started(m'.ops[q]) then 1 else 0 {
      SentAppended(m.sent, m'.sent[|m.sent|], q);
    }
  }

  lemma SendKeeps(s: Thread, m: Machine, m': Machine, d: Debt, p: nat, tail: nat)
    requires Keeps(s, m, d, p, tail) && p < |m.ops| && p <= tail && m.ops[p].prev == 0
    requires SentTo(s, m, m', p) && Able(s, m')
    ensures Keeps(s, m', d, Total(s), Latest(tail, p + 1))
  {
    SendKeepsZones(s, m, m', p, tail);
    SendKeepsLists(s, m, m', p, tail, LOAD);
    SendKeepsLists(s, m, m', p, tail, STORE);
    NotStarted(s, m, tail, p);
    SendKeepsSent(s, m, m', p);
    assert CountersExact(s, m', d) by {
      hide Listed, SentOnce;
      CountersStay(s, m, m', d);
    }
    hide CountersExact, Listed, Zones, SentOnce;
  }

  lemma NotStarted(s: Thread, m: Machine, tail: nat, c: nat)
    requires InProgram(s, m) && Zones(s, m, tail, c) && c < |m.ops|
    ensures !Started(m.ops[c]) && !Waits(m.pendingLd, c) && !Waits(m.pendingSt, c)
  {
  }

  // m' is m after operation p was put on the list of its kind.
  ghost predicate PutOnList(s: Thread, m: Machine, m': Machine, p: nat)
    requires InProgram(s, m) && p < |m.ops|
  {
    var r := Request(p, m.ops[p].dispatch);
    && |m'.ops| == |m.ops| && m'.now == m.now && m'.head == m.head && m'.isDone == m.isDone && m'.sent == m.sent
    && m'.ops == m.ops[p := m.ops[p].(status := Pending)]
    && m'.pendingLd == m.pendingLd + (if OpAt(s, p).kind == LOAD then [r] else [])
    && m'.pendingSt == m.pendingSt + (if OpAt(s, p).kind == STORE then [r] else [])
  }

  lemma WaitKeepsLists(s: Thread, m: Machine, m': Machine, p: nat, tail: nat, kind: OpType)
    requires InProgram(s, m) && p < |m.ops| && m.ops[p].prev == 0 && PutOnList(s, m, m', p) && InProgram(s, m')
    requires Listed(s, m, kind) && Zones(s, m, tail, p)
    ensures Listed(s, m', kind)
  {
    ListsAvoid(s, m, tail, p, kind);
    hide OpAt, Total, SentCount, Zones;
    var list, list' := Queue(m, kind), Queue(m', kind);
    forall i | 0 <= i < |list'|
      ensures list'[i].pos < |m'.ops| && OpAt(s, list'[i].pos).kind == kind
      ensures m'.ops[list'[i].pos].status == Pending && m'.ops[list'[i].pos].prev == 0
      ensures m'.ops[list'[i].pos].dispatch == list'[i].dispatch
    {
      if i < |list| {
        assert list'[i] == list[i];
        assert m'.ops[list[i].pos] == m.ops[list[i].pos];
      }
    }
    forall i, j | 0 <= i < j < |list'| ensures list'[i].pos != list'[j].pos {
      assert j < |list| ==> list[i].pos != list[j].pos;
    }
  }

  lemma WaitKeepsZones(s: Thread, m: Machine, m': Machine, p: nat, tail: nat)
    requires InProgram(s, m) && p < |m.ops| && PutOnList(s, m, m', p) && InProgram(s, m')
    requires Zones(s, m, tail, p) && p <= tail && m.ops[p].prev == 0
    ensures Zones(s, m', Latest(tail, p + 1), Total(s))
  {
    hide OpAt, SentCount;
    forall q | 0 <= q < |m'.ops| && m'.ops[q].status == Pending && m'.ops[q].prev == 0
      ensures Waits(Queue(m', OpAt(s, q).kind), q)
    {
      var list, list' := Queue(m, OpAt(s, q).kind), Queue(m', OpAt(s, q).kind);
      if q == p {
        assert list'[|list|].pos == p;
      } else {
        var i :| 0 <= i < |list| && list[i].pos == q;
        assert list'[i].pos == q;
      }
    }
  }

  lemma WaitKeeps(s: Thread, m: Machine, m': Machine, d: Debt, p: nat, tail: nat)
    requires Keeps(s, m, d, p, tail) && p < |m.ops| && p <= tail && m.ops[p].prev == 0
    requires PutOnList(s, m, m', p) && Able(s, m')
    ensures Keeps(s, m', d, Total(s), Latest(tail, p + 1))
  {
    WaitKeepsZones(s, m, m', p, tail);
    WaitKeepsLists(s, m, m', p, tail, LOAD);
    WaitKeepsLists(s, m, m', p, tail, STORE);
    NotStarted(s, m, tail, p);
    assert SentOnce(s, m') by {
      hide CountersExact, Listed, Zones;
    }
    assert CountersExact(s, m', d) by {
      hide Listed, SentOnce;
      CountersStay(s, m, m', d);
    }
    hide CountersExact, Listed, Zones, SentOnce;
  }

  // ---- Dispatch ----

  // Ports and the cache's question counter do not matter to the order.
  lemma PortsKeep(s: Thread, m: Machine, m': Machine, d: Debt, c: nat, tail: nat)
    requires Keeps(s, m, d, c, tail) && Able(s, m')
    requires m' == m.(ports := m'.ports, asked := m'.asked, hasCompleteOp := m'.hasCompleteOp, nextEvent := m'.nextEvent)
    ensures Keeps(s, m', d, c, tail)
  {
    ListsStay(s, m, m', LOAD);
    ListsStay(s, m, m', STORE);
    CountersStay(s, m, m', d);
    hide CountersExact, Listed, OpAt, Total, SentCount;
  }

  lemma ComputeKeepsZones(s: Thread, m: Machine, m': Machine, p: nat, tail: nat)
    requires InProgram(s, m) && p < |m.ops| && InProgram(s, m') && m'.ops == m.ops[p := m'.ops[p]]
    requires m'.ops[p] == m.ops[p].(comp := m'.ops[p].comp, dispatch := m'.ops[p].dispatch)
    requires m' == m.(ports := m'.ports, ops := m'.ops)
    requires Listed(s, m, LOAD) && Listed(s, m, STORE) && Zones(s, m, tail, p) && SentOnce(s, m)
    ensures Listed(s, m', LOAD) && Listed(s, m', STORE) && Zones(s, m', tail, p) && SentOnce(s, m')
  {
    ListsAvoid(s, m, tail, p, LOAD);
    ListsAvoid(s, m, tail, p, STORE);
    ListsStay(s, m, m', LOAD);
    ListsStay(s, m, m', STORE);
    hide Listed, SentCount, OpAt, Total;
  }

  lemma ComputeKeeps(s: Thread, m: Machine, d: Debt, p: nat, tail: nat)
    requires Keeps(s, m, d, p, tail) && p < |m.ops|
    ensures Keeps(s, Compute(s, m, p), d, p, tail)
    ensures Compute(s, m, p).ops[p].prev == m.ops[p].prev
  {
    var m' := Compute(s, m, p);
    ComputeKeepsZones(s, m, m', p, tail);
    CountersStay(s, m, m', d);
    hide CountersExact, Listed, Zones, SentOnce;
  }

  lemma TryLoadMoves(s: Thread, m: Machine, r: Request)
    requires Able(s, m) && r.pos < |m.ops| && OpAt(s, r.pos).kind == LOAD
    ensures var (m', sent) := TryLoad(s, m, r);
      if sent then SentTo(s, m, m', r.pos) else m' == m.(ports := m'.ports, asked := m'.asked)
  {
  }

  lemma TryStoreMoves(s: Thread, m: Machine, r: Request)
    requires Able(s, m) && r.pos < |m.ops| && OpAt(s, r.pos).kind == STORE
    ensures var (m', sent) := TryStore(s, m, r);
      if sent then SentTo(s, m, m', r.pos) else m' == m.(ports := m'.ports)
  {
  }

  lemma ToPortKeeps(s: Thread, m: Machine, d: Debt, p: nat, tail: nat)
    requires Keeps(s, m, d, p, tail) && p < |m.ops| && p <= tail && m.ops[p].prev == 0
    ensures Keeps(s, ToPort(s, m, p), d, Total(s), Latest(tail, p + 1))
  {
    hide CountersExact, Listed, Zones, SentOnce, TryLoad, TryStore, SentTo, PortsOpen;
    var r := Request(p, m.ops[p].dispatch);
    match OpAt(s, p).kind
    case LOAD =>
      TryLoadMoves(s, m, r);
      var (m1, sent) := TryLoad(s, m, r);
      if sent {
        SendKeeps(s, m, m1, d, p, tail);
      } else {
        PortsKeep(s, m, m1, d, p, tail);
        WaitKeeps(s, m1, ToPort(s, m, p), d, p, tail);
      }
    case STORE =>
      TryStoreMoves(s, m, r);
      var (m1, sent) := TryStore(s, m, r);
      if sent {
        SendKeeps(s, m, m1, d, p, tail);
      } else {
        PortsKeep(s, m, m1, d, p, tail);
        WaitKeeps(s, m1, ToPort(s, m, p), d, p, tail);
      }
  }

  lemma HoldKeeps(s: Thread, m: Machine, d: Debt, p: nat, tail: nat)
    requires Keeps(s, m, d, p, tail) && p < |m.ops| && p <= tail && m.ops[p].prev > 0
    ensures Keeps(s, Dispatch(s, m, p), d, Total(s), Latest(tail, p + 1))
  {
    hide ToPort, Compute, Runnable, Exact, InDegree;
    var m' := Dispatch(s, m, p);
    ListsAvoid(s, m, tail, p, LOAD);
    ListsAvoid(s, m, tail, p, STORE);
    ListsStay(s, m, m', LOAD);
    ListsStay(s, m, m', STORE);
    CountersStay(s, m, m', d);
    HoldKeepsZones(s, m, m', p, tail);
    hide Listed, CountersExact, Zones, SentOnce;
  }

  lemma HoldKeepsZones(s: Thread, m: Machine, m': Machine, p: nat, tail: nat)
    requires InProgram(s, m) && p < |m.ops| && p <= tail && m.ops[p].prev > 0
    requires m' == m.(ops := m.ops[p := m.ops[p].(status := Pending, dispatch := 0)])
    requires Zones(s, m, tail, p) && SentOnce(s, m)
    ensures InProgram(s, m') && Zones(s, m', Latest(tail, p + 1), Total(s)) && SentOnce(s, m')
  {
    hide OpAt, SentCount;
  }

  // Dispatching the operation that is due keeps the order.
  lemma DispatchKeeps(s: Thread, m: Machine, d: Debt, p: nat, tail: nat)
    requires Keeps(s, m, d, p, tail) && p < |m.ops| && p <= tail
    ensures Keeps(s, Dispatch(s, m, p), d, Total(s), Latest(tail, p + 1))
  {
    hide Compute, ToPort, CountersExact, Listed, Zones, SentOnce;
    if m.ops[p].prev > 0 {
      HoldKeeps(s, m, d, p, tail);
    } else {
      ComputeKeeps(s, m, d, p, tail);
      ToPortKeeps(s, Compute(s, m, p), d, p, tail);
    }
  }

  // ---- Retirement ----

  function Tail(s: Thread, head: nat): nat {
    Least(head + s.core.rob, Total(s))
  }

  // The head leaves; the next operation to enter the window is due.
  lemma HeadLeaves(s: Thread, m: Machine, d: Debt)
    requires Keeps(s, m, d, Total(s), Tail(s, m.head)) && m.head < |m.ops| && m.ops[m.head].status == Completed
    requires !m.isDone && m.head + 1 < |m.ops|
    ensures m.head + s.core.rob < Total(s) ==>
      Keeps(s, m.(head := m.head + 1), d, m.head + s.core.rob, m.head + s.core.rob)
    ensures m.head + s.core.rob >= Total(s) ==> Keeps(s, m.(head := m.head + 1), d, Total(s), Total(s))
  {
    hide CountersExact, Listed, Zones, SentCount, OpAt, Exact, PortsOpen;
    var m' := m.(head := m.head + 1);
    ListsStay(s, m, m', LOAD);
    ListsStay(s, m, m', STORE);
    CountersStay(s, m, m', d);
    HeadLeavesZones(s, m);
  }

  lemma HeadLeavesZones(s: Thread, m: Machine)
    requires InProgram(s, m) && Zones(s, m, Tail(s, m.head), Total(s)) && Listed(s, m, LOAD) && Listed(s, m, STORE)
    requires m.head + 1 < |m.ops| && m.ops[m.head].status == Completed && s.core.rob >= 1
    ensures var m' := m.(head := m.head + 1);
      if m.head + s.core.rob < Total(s) then Zones(s, m', m.head + s.core.rob, m.head + s.core.rob)
      else Zones(s, m', Total(s), Total(s))
  {
    if m.head + s.core.rob < Total(s) {
      NotListed(s, m, m.head + s.core.rob, LOAD);
      NotListed(s, m, m.head + s.core.rob, STORE);
    }
    hide Listed, OpAt;
  }

  lemma NotListed(s: Thread, m: Machine, p: nat, kind: OpType)
    requires InProgram(s, m) && Listed(s, m, kind) && p < |m.ops| && m.ops[p].status != Pending
    ensures !Waits(Queue(m, kind), p)
    ensures forall i :: 0 <= i < |Queue(m, kind)| ==> Queue(m, kind)[i].pos != p
  {
    hide OpAt;
  }

  lemma LastLeaves(s: Thread, m: Machine, d: Debt)
    requires Keeps(s, m, d, Total(s), Tail(s, m.head)) && m.head + 1 == |m.ops| && m.ops[m.head].status == Completed
    ensures Keeps(s, m.(head := m.head + 1, isDone := true), d, Total(s), Total(s))
  {
    hide CountersExact, Zones, SentCount, OpAt, Listed, Exact, PortsOpen;
    var m' := m.(head := m.head + 1, isDone := true);
    ListsStay(s, m, m', LOAD);
    ListsStay(s, m, m', STORE);
    CountersStay(s, m, m', d);
    LastLeavesZones(s, m);
  }

  lemma LastLeavesZones(s: Thread, m: Machine)
    requires InProgram(s, m) && Zones(s, m, Tail(s, m.head), Total(s))
    requires m.head + 1 == |m.ops| && m.ops[m.head].status == Completed && s.core.rob >= 1
    ensures Zones(s, m.(head := m.head + 1, isDone := true), Total(s), Total(s))
  {
    hide OpAt;
  }

  lemma RetireKeeps(s: Thread, m: Machine, d: Debt)
    requires Keeps(s, m, d, Total(s), Tail(s, m.head)) && m.head < |m.ops| && m.ops[m.head].status == Completed
    ensures var m' := RetireHead(s, m); Keeps(s, m', d, Total(s), Tail(s, m'.head))
  {
    hide CountersExact, Listed, Zones, SentOnce, Dispatch, PortsOpen;
    if m.head + 1 == |m.ops| {
      LastLeaves(s, m, d);
    } else {
      HeadLeaves(s, m, d);
      var m1 := m.(head := m.head + 1);
      if m.head + s.core.rob < Total(s) {
        DispatchKeeps(s, m1, d, m.head + s.core.rob, m.head + s.core.rob);
      }
    }
  }

  // ---- Completion ----

  lemma CompletionCounters(s: Thread, m: Machine, m': Machine, p: nat)
    requires InProgram(s, m) && p < |m.ops| && m.ops[p].status == Dispatched
    requires m' == m.(ops := m.ops[p := m.ops[p].(status := Completed)]) && CountersExact(s, m, NO_DEBT)
    ensures CountersExact(s, m', Debt(p, OpAt(s, p).next))
  {
    hide Owed, OpAt;
    var d := Debt(p, OpAt(s, p).next);
    forall q | 0 <= q < |m'.ops| ensures m'.ops[q].prev == Owed(s, m'.ops, |m'.ops|, q) + DebtTo(d, q) {
      OwedCompleted(s, m.ops, m'.ops, p, |m.ops|, q);
      assert DebtTo(NO_DEBT, q) == 0;
      assert Edges(s, p, q) == DebtTo(d, q);
    }
  }

  // An operation completes and owes its consumers.
  lemma CompletionKeeps(s: Thread, m: Machine, p: nat, tail: nat)
    requires Keeps(s, m, NO_DEBT, Total(s), tail) && p < |m.ops|
    requires m.ops[p].status == Dispatched && 0 < m.ops[p].complete <= m.now
    ensures var m' := m.(ops := m.ops[p := m.ops[p].(status := Completed)]);
      Keeps(s, m', Debt(p, OpAt(s, p).next), Total(s), tail)
  {
    hide CountersExact, SentOnce, Listed, Zones, Exact, PortsOpen;
    var m' := m.(ops := m.ops[p := m.ops[p].(status := Completed)]);
    CompletionCounters(s, m, m', p);
    NotListed(s, m, p, LOAD);
    NotListed(s, m, p, STORE);
    ListsStay(s, m, m', LOAD);
    ListsStay(s, m, m', STORE);
    CompletionZones(s, m, m', p, tail);
  }

  lemma CompletionZones(s: Thread, m: Machine, m': Machine, p: nat, tail: nat)
    requires InProgram(s, m) && p < |m.ops| && m.ops[p].status == Dispatched && 0 < m.ops[p].complete <= m.now
    requires Zones(s, m, tail, Total(s)) && SentOnce(s, m)
    requires m' == m.(ops := m.ops[p := m.ops[p].(status := Completed)])
    ensures InProgram(s, m') && Zones(s, m', tail, Total(s)) && SentOnce(s, m')
  {
    hide OpAt, SentCount;
  }

  lemma {:induction false} CountFirst(next: seq<nat>, x: nat)
    requires next != []
    ensures Count<nat>(next, x) == Count<nat>(next[1..], x) + if next[0] == x then 1 else 0
    decreases |next|
  {
    if |next| > 1 {
      CountFirst(next[..|next| - 1], x);
      assert next[1..][..|next| - 2] == next[..|next| - 1][1..];
    }
  }

  // One edge is passed on: the counter it reaches is not zero.
  lemma PassedOn(s: Thread, m: Machine, m': Machine, d: Debt, child: nat)
    requires InProgram(s, m) && CountersExact(s, m, d) && d.next != [] && d.next[0] >= 1
    requires child == d.from + d.next[0] < |m.ops|
    ensures m.ops[child].prev >= 1
    ensures m' == m.(ops := m.ops[child := m.ops[child].(prev := m.ops[child].prev - 1)]) ==>
      CountersExact(s, m', Debt(d.from, d.next[1..]))
  {
    hide Owed, Count;
    CountFirst(d.next, d.next[0]);
    assert DebtTo(d, child) >= 1;
    if m' == m.(ops := m.ops[child := m.ops[child].(prev := m.ops[child].prev - 1)]) {
      forall q | 0 <= q < |m'.ops|
        ensures m'.ops[q].prev == Owed(s, m'.ops, |m'.ops|, q) + DebtTo(Debt(d.from, d.next[1..]), q)
      {
        OwedSame(s, m.ops, m'.ops, |m.ops|, q);
        if d.from < q {
          CountFirst(d.next, q - d.from);
        }
      }
    }
  }

  lemma PassKeeps(s: Thread, m: Machine, m': Machine, d: Debt, child: nat, tail: nat)
    requires Keeps(s, m, d, Total(s), tail) && d.next != [] && d.next[0] >= 1
    requires child == d.from + d.next[0] < |m.ops| && m.ops[child].prev >= 1
    requires m' == m.(ops := m.ops[child := m.ops[child].(prev := m.ops[child].prev - 1)])
    ensures var d' := Debt(d.from, d.next[1..]);
      Keeps(s, m', d', if m.ops[child].prev == 1 && m.ops[child].status == Pending then child else Total(s), tail)
  {
    PassedOn(s, m, m', d, child);
    ChildNotListed(s, m, child, LOAD);
    ChildNotListed(s, m, child, STORE);
    ListsStay(s, m, m', LOAD);
    ListsStay(s, m, m', STORE);
    PassKeepsZones(s, m, m', child, tail);
    hide CountersExact, SentOnce, OpAt, Listed, Zones;
  }

  lemma PassKeepsZones(s: Thread, m: Machine, m': Machine, child: nat, tail: nat)
    requires InProgram(s, m) && child < |m.ops| && m.ops[child].prev >= 1
    requires m' == m.(ops := m.ops[child := m.ops[child].(prev := m.ops[child].prev - 1)])
    requires Zones(s, m, tail, Total(s)) && SentOnce(s, m)
    requires !Waits(m.pendingLd, child) && !Waits(m.pendingSt, child)
    ensures InProgram(s, m') && SentOnce(s, m')
    ensures Zones(s, m', tail, if m.ops[child].prev == 1 && m.ops[child].status == Pending then child else Total(s))
  {
    hide OpAt, SentCount;
  }

  lemma ChildNotListed(s: Thread, m: Machine, p: nat, kind: OpType)
    requires InProgram(s, m) && Listed(s, m, kind) && p < |m.ops| && m.ops[p].prev >= 1
    ensures !Waits(Queue(m, kind), p)
    ensures forall i :: 0 <= i < |Queue(m, kind)| ==> Queue(m, kind)[i].pos != p
  {
    hide OpAt;
  }

  // Passing on one edge: the counter it reaches is not zero.
  lemma PassEdgeKeeps(s: Thread, m: Machine, d: Debt, child: nat, tail: nat)
    requires Keeps(s, m, d, Total(s), tail) && d.next != [] && d.next[0] >= 1 && child == d.from + d.next[0] < |m.ops|
    ensures m.ops[child].prev > 0
    ensures Keeps(s, PassEdge(s, m, child), Debt(d.from, d.next[1..]), Total(s), tail)
  {
    hide CountersExact, Listed, Zones, SentOnce, Dispatch, PortsOpen, Exact;
    PassedOn(s, m, m, d, child);
    var m1 := m.(ops := m.ops[child := m.ops[child].(prev := m.ops[child].prev - 1)]);
    PassKeeps(s, m, m1, d, child, tail);
    if m.ops[child].prev == 1 && m.ops[child].status == Pending {
      PendingIsTaken(s, m, child, tail);
      DispatchKeeps(s, m1, Debt(d.from, d.next[1..]), child, tail);
    }
  }

  // Passing on all the edges of a completed operation never finds a counter at zero.
  lemma {:induction false} NotifyKeeps(s: Thread, m: Machine, p: nat, next: seq<nat>, tail: nat)
    requires Keeps(s, m, Debt(p, next), Total(s), tail)
    requires forall e :: 0 <= e < |next| ==> next[e] >= 1 && p + next[e] < |m.ops|
    ensures var r := Notify(s, m, p, next); r.Ok? && Keeps(s, r.value, NO_DEBT, Total(s), tail)
    decreases |next|
  {
    hide CountersExact, Listed, Zones, SentOnce, PassEdge, PortsOpen, Exact;
    if next == [] {
      DebtPaid(s, m, p);
    } else {
      PassEdgeKeeps(s, m, Debt(p, next), p + next[0], tail);
      NotifyKeeps(s, PassEdge(s, m, p + next[0]), p, next[1..], tail);
    }
  }

  lemma DebtPaid(s: Thread, m: Machine, p: nat)
    requires InProgram(s, m) && CountersExact(s, m, Debt(p, []))
    ensures CountersExact(s, m, NO_DEBT)
  {
    hide Owed;
  }

  lemma PendingIsTaken(s: Thread, m: Machine, p: nat, tail: nat)
    requires InProgram(s, m) && Zones(s, m, tail, Total(s)) && p < |m.ops| && m.ops[p].status == Pending
    ensures p < tail
  {
  }

  // ---- The sweep ----

  // Edges stay inside their global step.
  lemma EdgesStayInside(s: Thread, p: nat)
    requires Exact(s.prog) && p < Total(s)
    ensures EdgesInside(s, p)
    ensures forall e :: 0 <= e < |OpAt(s, p).next| ==>
      OpAt(s, p).next[e] >= 1 && p % |s.prog.ops| + OpAt(s, p).next[e] < |s.prog.ops|
    ensures OpAt(s, p).next != [] ==> p % |s.prog.ops| + 1 < |s.prog.ops|
  {
    var w := |s.prog.ops|;
    if OpAt(s, p).next != [] {
      assert s.prog.ops[p % w].next[0] >= 1;
    }
    var step := p / w;
    assert p == step * w + p % w;
    assert step < s.steps by {
      if step >= s.steps { MulLe(s.steps, step, w); }
    }
    MulLe(step + 1, s.steps, w);
    assert (step + 1) * w == step * w + w;
  }

  lemma AllEdgesInside(s: Thread)
    requires Exact(s.prog)
    ensures forall q :: 0 <= q < Total(s) ==> EdgesInside(s, q)
  {
    hide Exact, EdgesInside;
    forall q | 0 <= q < Total(s) ensures EdgesInside(s, q) {
      EdgesStayInside(s, q);
    }
  }

  // Nobody waits for the last operation of the program.
  lemma LastHasNoEdges(s: Thread)
    requires Exact(s.prog) && s.steps >= 1
    ensures Total(s) >= 1 && OpAt(s, Total(s) - 1).next == []
  {
    var w := |s.prog.ops|;
    MulLe(1, s.steps, w);
    assert Total(s) - 1 == (s.steps - 1) * w + (w - 1) by {
      assert s.steps * w == (s.steps - 1) * w + w;
    }
    LastInStep(s.steps - 1, w);
    EdgesStayInside(s, Total(s) - 1);
  }

  lemma LastInStep(k: nat, w: nat)
    requires w >= 1
    ensures (k * w + (w - 1)) % w == w - 1
  {
    DivUnique(k * w + (w - 1), w, k, w - 1);
  }

  // Visiting an operation keeps the order, and no counter underflows.
  lemma VisitKeeps(s: Thread, m: Machine, p: nat)
    requires InOrder(s, m) && p < |m.ops| && m.head <= p && EdgesInside(s, p)
    ensures var r := Visit(s, m, p); r.Ok? && InOrder(s, r.value) && r.value.head <= p + 1
  {
    hide CountersExact, Listed, Zones, SentOnce, RetireHead, Notify, PortsOpen, Exact;
    if m.ops[p].status == Dispatched && 0 < m.ops[p].complete <= m.now {
      CompletionKeeps(s, m, p, Tail(s, m.head));
      var next := OpAt(s, p).next;
      var m1 := m.(ops := m.ops[p := m.ops[p].(status := Completed)]);
      if p == m.head {
        RetireKeeps(s, m1, Debt(p, next));
      }
      var m2 := if p == m.head then RetireHead(s, m1) else m1;
      if m2.isDone {
        assert p == Total(s) - 1;
        LastHasNoEdges(s);
        DebtPaid(s, m2, p);
      } else {
        EdgesStayInside(s, p);
        NotifyKeeps(s, m2, p, next, Tail(s, m2.head));
      }
    } else if m.ops[p].status == Completed && p == m.head {
      RetireKeeps(s, m, NO_DEBT);
    }
  }

  lemma {:induction false} SweepKeeps(s: Thread, m: Machine, p: nat, n: nat)
    requires InOrder(s, m) && m.head <= p && p + n <= |m.ops|
    requires forall q :: 0 <= q < Total(s) ==> EdgesInside(s, q)
    ensures var r := Sweep(s, m, p, n); r.Ok? && InOrder(s, r.value)
    decreases n
  {
    hide CountersExact, Listed, Zones, SentOnce, Visit, PortsOpen, Exact, EdgesInside;
    if n > 0 {
      VisitKeeps(s, m, p);
      SweepKeeps(s, Visit(s, m, p).value, p + 1, n - 1);
    }
  }

  // ---- Retries ----

  lemma DroppedKeeps(s: Thread, m: Machine, m': Machine, i: nat, kind: OpType, tail: nat)
    requires Keeps(s, m, NO_DEBT, Total(s), tail) && i < |Queue(m, kind)| && Able(s, m')
    requires m' == if kind == LOAD then m.(pendingLd := Drop(m.pendingLd, i), hasCompleteOp := true)
                   else m.(pendingSt := Drop(m.pendingSt, i), hasCompleteOp := true)
    ensures Queue(m, kind)[i].pos < |m.ops|
    ensures Keeps(s, m', NO_DEBT, Queue(m, kind)[i].pos, tail)
  {
    hide CountersExact, Listed, Zones, OpAt, Drop, Exact, PortsOpen;
    CountersStay(s, m, m', NO_DEBT);
    DroppedLists(s, m, m', i, kind);
    DroppedZones(s, m, m', i, kind, tail);
  }

  lemma DroppedLists(s: Thread, m: Machine, m': Machine, i: nat, kind: OpType)
    requires InProgram(s, m) && InProgram(s, m') && Listed(s, m, LOAD) && Listed(s, m, STORE) && i < |Queue(m, kind)|
    requires m' == if kind == LOAD then m.(pendingLd := Drop(m.pendingLd, i), hasCompleteOp := true)
                   else m.(pendingSt := Drop(m.pendingSt, i), hasCompleteOp := true)
    ensures Listed(s, m', LOAD) && Listed(s, m', STORE)
  {
    if kind == LOAD {
      ListsStay(s, m, m', STORE);
    } else {
      ListsStay(s, m, m', LOAD);
    }
    DroppedFromOwn(s, m, m', i, kind);
    hide OpAt, Total, Listed, Drop;
  }

  lemma DroppedFromOwn(s: Thread, m: Machine, m': Machine, i: nat, kind: OpType)
    requires InProgram(s, m) && Listed(s, m, kind) && i < |Queue(m, kind)|
    requires m'.ops == m.ops && Queue(m', kind) == Drop(Queue(m, kind), i)
    ensures Listed(s, m', kind)
  {
    hide OpAt, Total;
    var list, list' := Queue(m, kind), Queue(m', kind);
    forall j | 0 <= j < |list'|
      ensures list'[j].pos < |m'.ops| && OpAt(s, list'[j].pos).kind == kind
      ensures m'.ops[list'[j].pos].status == Pending && m'.ops[list'[j].pos].prev == 0
      ensures m'.ops[list'[j].pos].dispatch == list'[j].dispatch
    {
      assert list'[j] == list[if j < i then j else j + 1];
    }
    forall a, b | 0 <= a < b < |list'| ensures list'[a].pos != list'[b].pos {
      assert list'[a] == list[if a < i then a else a + 1] && list'[b] == list[if b < i then b else b + 1];
    }
  }

  lemma DroppedZones(s: Thread, m: Machine, m': Machine, i: nat, kind: OpType, tail: nat)
    requires InProgram(s, m) && InProgram(s, m') && Listed(s, m, LOAD) && Listed(s, m, STORE) && i < |Queue(m, kind)|
    requires m' == if kind == LOAD then m.(pendingLd := Drop(m.pendingLd, i), hasCompleteOp := true)
                   else m.(pendingSt := Drop(m.pendingSt, i), hasCompleteOp := true)
    requires Zones(s, m, tail, Total(s))
    ensures Zones(s, m', tail, Queue(m, kind)[i].pos)
  {
    hide OpAt, Total, Drop, Listed;
    var p := Queue(m, kind)[i].pos;
    forall q | 0 <= q < |m.ops| && q != p && m.ops[q].status == Pending && m.ops[q].prev == 0
      ensures Waits(Queue(m', OpAt(s, q).kind), q)
    {
      DroppedWaits(m, m', i, kind, OpAt(s, q).kind, q);
    }
    DroppedGone(s, m, m', i, kind);
    WaitingKind(s, m, kind, i);
  }

  // Dropping one request leaves every other operation's on its list.
  lemma DroppedWaits(m: Machine, m': Machine, i: nat, kind: OpType, of: OpType, q: nat)
    requires i < |Queue(m, kind)| && Waits(Queue(m, of), q) && q != Queue(m, kind)[i].pos
    requires m' == if kind == LOAD then m.(pendingLd := Drop(m.pendingLd, i), hasCompleteOp := true)
                   else m.(pendingSt := Drop(m.pendingSt, i), hasCompleteOp := true)
    ensures Waits(Queue(m', of), q)
  {
    var list, list' := Queue(m, of), Queue(m', of);
    var j :| 0 <= j < |list| && list[j].pos == q;
    if of == kind {
      assert list'[if j < i then j else j - 1] == list[j];
    } else {
      assert list'[j] == list[j];
    }
  }

  lemma DroppedGone(s: Thread, m: Machine, m': Machine, i: nat, kind: OpType)
    requires InProgram(s, m) && Listed(s, m, LOAD) && Listed(s, m, STORE) && i < |Queue(m, kind)|
    requires m' == if kind == LOAD then m.(pendingLd := Drop(m.pendingLd, i), hasCompleteOp := true)
                   else m.(pendingSt := Drop(m.pendingSt, i), hasCompleteOp := true)
    ensures !Waits(m'.pendingLd, Queue(m, kind)[i].pos) && !Waits(m'.pendingSt, Queue(m, kind)[i].pos)
  {
    var p, other := Queue(m, kind)[i].pos, if kind == LOAD then STORE else LOAD;
    GoneFromOwn(s, m, i, kind);
    NotOnOther(s, m, p, kind, other, i);
    hide Listed, Drop, OpAt, Waits;
  }

  lemma GoneFromOwn(s: Thread, m: Machine, i: nat, kind: OpType)
    requires InProgram(s, m) && Listed(s, m, kind) && i < |Queue(m, kind)|
    ensures !Waits(Drop(Queue(m, kind), i), Queue(m, kind)[i].pos)
  {
    hide OpAt, Total;
    var list := Queue(m, kind);
    forall j | 0 <= j < |Drop(list, i)| ensures Drop(list, i)[j].pos != list[i].pos {
      assert Drop(list, i)[j] == list[if j < i then j else j + 1];
    }
  }

  lemma NotOnOther(s: Thread, m: Machine, p: nat, kind: OpType, other: OpType, i: nat)
    requires InProgram(s, m) && Listed(s, m, kind) && Listed(s, m, other) && kind != other
    requires i < |Queue(m, kind)| && p == Queue(m, kind)[i].pos
    ensures !Waits(Queue(m, other), p)
  {
    hide OpAt, Total;
    assert p < |m.ops| && OpAt(s, p).kind == kind;
  }

  // What goes to the cache does not depend on the lists.
  lemma LoadIgnoresLists(s: Thread, m: Machine, m0: Machine, r: Request)
    requires Able(s, m) && Able(s, m0) && r.pos < |m.ops|
    requires m0 == m.(pendingLd := m0.pendingLd, pendingSt := m0.pendingSt, hasCompleteOp := m0.hasCompleteOp)
    ensures TryLoad(s, m0, r).1 == TryLoad(s, m, r).1
    ensures TryLoad(s, m0, r).0 == TryLoad(s, m, r).0.(pendingLd := m0.pendingLd, pendingSt := m0.pendingSt,
                                                         hasCompleteOp := m0.hasCompleteOp)
  {
  }

  lemma StoreIgnoresLists(s: Thread, m: Machine, m0: Machine, r: Request)
    requires Able(s, m) && Able(s, m0) && r.pos < |m.ops|
    requires m0 == m.(pendingLd := m0.pendingLd, pendingSt := m0.pendingSt, hasCompleteOp := m0.hasCompleteOp)
    ensures TryStore(s, m0, r).1 == TryStore(s, m, r).1
    ensures TryStore(s, m0, r).0 == TryStore(s, m, r).0.(pendingLd := m0.pendingLd, pendingSt := m0.pendingSt,
                                                           hasCompleteOp := m0.hasCompleteOp)
  {
  }

  lemma ListsKept(s: Thread, m: Machine, r: Request)
    requires Able(s, m) && r.pos < |m.ops|
    ensures TryLoad(s, m, r).0.pendingLd == m.pendingLd && TryLoad(s, m, r).0.pendingSt == m.pendingSt
    ensures TryStore(s, m, r).0.pendingLd == m.pendingLd && TryStore(s, m, r).0.pendingSt == m.pendingSt
  {
  }

  lemma RetriedLoadKeeps(s: Thread, m: Machine, i: nat)
    requires InOrder(s, m) && i < |m.pendingLd|
    ensures var (m1, sent) := TryLoad(s, m, m.pendingLd[i]);
      if sent then InOrder(s, m1.(pendingLd := Drop(m1.pendingLd, i), hasCompleteOp := true)) else InOrder(s, m1)
  {
    hide CountersExact, Listed, Zones, SentOnce, TryLoad, SentTo, PortsOpen, Exact;
    var r := m.pendingLd[i];
    var (m1, sent) := TryLoad(s, m, r);
    ListsKept(s, m, r);
    WaitingKind(s, m, LOAD, i);
    TryLoadMoves(s, m, r);
    if sent {
      var m0 := m.(pendingLd := Drop(m.pendingLd, i), hasCompleteOp := true);
      DroppedKeeps(s, m, m0, i, LOAD, Tail(s, m.head));
      LoadIgnoresLists(s, m, m0, r);
      TryLoadMoves(s, m0, r);
      PendingIsTaken(s, m, r.pos, Tail(s, m.head));
      SendKeeps(s, m0, TryLoad(s, m0, r).0, NO_DEBT, r.pos, Tail(s, m.head));
    } else {
      PortsKeep(s, m, m1, NO_DEBT, Total(s), Tail(s, m.head));
    }
  }

  lemma WaitingKind(s: Thread, m: Machine, kind: OpType, i: nat)
    requires InProgram(s, m) && Listed(s, m, kind) && i < |Queue(m, kind)|
    ensures var p := Queue(m, kind)[i].pos;
      p < |m.ops| && OpAt(s, p).kind == kind && m.ops[p].status == Pending && m.ops[p].prev == 0
  {
    hide OpAt;
  }

  lemma RetriedStoreKeeps(s: Thread, m: Machine, i: nat)
    requires InOrder(s, m) && i < |m.pendingSt|
    ensures var (m1, sent) := TryStore(s, m, m.pendingSt[i]);
      if sent then InOrder(s, m1.(pendingSt := Drop(m1.pendingSt, i), hasCompleteOp := true)) else InOrder(s, m1)
  {
    hide CountersExact, Listed, Zones, SentOnce, TryStore, SentTo, PortsOpen, Exact, TryLoad, InDegree;
    var r := m.pendingSt[i];
    var (m1, sent) := TryStore(s, m, r);
    ListsKept(s, m, r);
    WaitingKind(s, m, STORE, i);
    TryStoreMoves(s, m, r);
    if sent {
      var m0 := m.(pendingSt := Drop(m.pendingSt, i), hasCompleteOp := true);
      DroppedKeeps(s, m, m0, i, STORE, Tail(s, m.head));
      StoreIgnoresLists(s, m, m0, r);
      TryStoreMoves(s, m0, r);
      PendingIsTaken(s, m, r.pos, Tail(s, m.head));
      SendKeeps(s, m0, TryStore(s, m0, r).0, NO_DEBT, r.pos, Tail(s, m.head));
    } else {
      PortsKeep(s, m, m1, NO_DEBT, Total(s), Tail(s, m.head));
    }
  }

  lemma {:induction false} RetryLoadsKeeps(s: Thread, m: Machine, i: nat)
    requires InOrder(s, m) && i <= |m.pendingLd|
    ensures InOrder(s, RetryLoads(s, m, i))
    decreases |m.pendingLd| - i
  {
    hide CountersExact, Listed, Zones, SentOnce, TryLoad, PortsOpen, Exact;
    if i < |m.pendingLd| {
      ListsKept(s, m, m.pendingLd[i]);
      RetriedLoadKeeps(s, m, i);
      var (m1, sent) := TryLoad(s, m, m.pendingLd[i]);
      if sent {
        RetryLoadsKeeps(s, m1.(pendingLd := Drop(m1.pendingLd, i), hasCompleteOp := true), i);
      } else {
        RetryLoadsKeeps(s, m1, i + 1);
      }
    }
  }

  lemma {:induction false} RetryStoresKeeps(s: Thread, m: Machine, i: nat)
    requires InOrder(s, m) && i <= |m.pendingSt|
    ensures InOrder(s, RetryStores(s, m, i))
    decreases |m.pendingSt| - i
  {
    hide CountersExact, Listed, Zones, SentOnce, TryStore, PortsOpen, Exact;
    if i < |m.pendingSt| {
      ListsKept(s, m, m.pendingSt[i]);
      RetriedStoreKeeps(s, m, i);
      var (m1, sent) := TryStore(s, m, m.pendingSt[i]);
      if sent {
        RetryStoresKeeps(s, m1.(pendingSt := Drop(m1.pendingSt, i), hasCompleteOp := true), i);
      } else {
        RetryStoresKeeps(s, m1, i + 1);
      }
    }
  }

  // ---- Events ----

  // Time passes.
  lemma TimePasses(s: Thread, m: Machine, t: nat)
    requires InOrder(s, m) && t >= m.now
    ensures InOrder(s, m.(now := t))
  {
    hide CountersExact, Listed, OpAt, SentCount, Exact, PortsOpen;
    var m' := m.(now := t);
    ListsStay(s, m, m', LOAD);
    ListsStay(s, m, m', STORE);
    CountersStay(s, m, m', NO_DEBT);
  }

  // Advancing keeps the order and never finds a counter at zero; it reports the end
  // exactly when everything has retired.
  lemma AdvanceKeeps(s: Thread, m: Machine, t: nat)
    requires InOrder(s, m) && t >= m.now
    requires m.head <= |m.ops| && forall q :: 0 <= q < Total(s) ==> EdgesInside(s, q)
    ensures var r := Advance(s, m, t); r.Ok? && InOrder(s, r.value.0)
    ensures var r := Advance(s, m, t); !m.isDone ==> (r.value.1 <==> r.value.0.head == Total(s))
  {
    hide CountersExact, Listed, Zones, SentOnce, RetryLoads, RetryStores, Sweep, PortsOpen, Exact, EdgesInside, NextEvent;
    if !m.isDone {
      TimePasses(s, m, t);
      var m0 := m.(now := t);
      RetryLoadsKeeps(s, m0, 0);
      RetryStoresKeeps(s, RetryLoads(s, m0, 0), 0);
      var m1 := RetryStores(s, RetryLoads(s, m0, 0), 0);
      if m1.hasCompleteOp || m1.nextEvent <= m1.now {
        var m2 := m1.(hasCompleteOp := false);
        PortsKeep(s, m1, m2, NO_DEBT, Total(s), Tail(s, m1.head));
        SweepKeeps(s, m2, m2.head, RobLoad(s, m2));
        var m3 := Sweep(s, m2, m2.head, RobLoad(s, m2)).value;
        var m4 := m3.(nextEvent := NextEvent(m3, m3.head, RobLoad(s, m3), NEVER));
        PortsKeep(s, m3, m4, NO_DEBT, Total(s), Tail(s, m3.head));
      }
    }
  }
}
