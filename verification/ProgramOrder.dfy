// A core's instruction window as a machine over the whole program: every operation
// stands at its own position, none is ever overwritten, and a reorder window slides
// over them.
module ProgramOrder {
  import opened Wrappers
  import opened ExecGraph
  import opened Programs
  import opened Sequences

  datatype Status = Issued | Pending | Dispatched | Completed

  datatype OpState = OpState(status: Status, prev: nat, comp: nat, dispatch: nat, complete: nat)

  // A memory request that waits for its port.
  datatype Request = Request(pos: nat, dispatch: nat)

  // A request handed to the first-level cache: when it was ready and when it left.
  datatype Sent = Sent(kind: OpType, pos: nat, ready: nat, time: nat)

  datatype Ports = Ports(tAlu: nat, availAlu: nat, tLd: nat, availLd: nat, tSt: nat, availSt: nat)

  datatype Core = Core(rob: nat, lfb: nat, alu: nat, ld: nat, st: nat)

  // What the first-level cache answers, question by question: its number of pending
  // lines, and, given the cycle a load leaves in, when it is complete, zero when that
  // will be told later.
  datatype Cache = Cache(pendingLines: nat -> nat, loadTime: (nat, nat) -> nat)

  // A thread: the program of one global step, how many steps it runs, and its core.
  datatype Thread = Thread(prog: Program, steps: nat, core: Core, l1: Cache)

  datatype Machine = Machine(
    now: nat,
    head: nat,
    ops: seq<OpState>,
    ports: Ports,
    pendingLd: seq<Request>,
    pendingSt: seq<Request>,
    asked: nat,
    loads: nat,
    hasCompleteOp: bool,
    isDone: bool,
    nextEvent: nat,
    sent: seq<Sent>)

  datatype Fault = CounterUnderflow

  const NEVER: nat := 0xFFFF_FFFF_FFFF_FFFF

  ghost predicate Runnable(s: Thread) {
    && Exact(s.prog) && s.steps >= 1
    && s.core.rob >= 1 && s.core.alu >= 1 && s.core.ld >= 1 && s.core.st >= 1
  }

  function Total(s: Thread): nat {
    s.steps * |s.prog.ops|
  }

  // The operation at a position of the whole program.
  function OpAt(s: Thread, p: nat): ProgramOp
    requires |s.prog.ops| > 0
  {
    s.prog.ops[p % |s.prog.ops|]
  }

  function Latest(a: nat, b: nat): nat {
    if a > b then a else b
  }

  function Least(a: nat, b: nat): nat {
    if a < b then a else b
  }

  predicate EdgesInside(s: Thread, p: nat)
    requires |s.prog.ops| > 0
  {
    forall e :: 0 <= e < |OpAt(s, p).next| ==> p + OpAt(s, p).next[e] < Total(s)
  }

  predicate InProgram(s: Thread, m: Machine) {
    |s.prog.ops| > 0 && |m.ops| == Total(s)
  }

  // ---- Ports ----

  // Counters of free slots start full and are refilled before they reach zero.
  predicate PortsOpen(s: Thread, p: Ports) {
    && 1 <= p.availLd <= s.core.ld && 1 <= p.availSt <= s.core.st && 1 <= p.availAlu <= s.core.alu
  }

  predicate Able(s: Thread, m: Machine) {
    && InProgram(s, m) && PortsOpen(s, m.ports)
    && (forall i :: 0 <= i < |m.pendingLd| ==> m.pendingLd[i].pos < |m.ops|)
    && (forall i :: 0 <= i < |m.pendingSt| ==> m.pendingSt[i].pos < |m.ops|)
  }

  // An operation takes comp arithmetic slots, from the current cycle on.
  function TakeAlu(core: Core, p: Ports, now: nat, comp: nat): Ports
    requires core.alu > 0
  {
    var t := Latest(p.tAlu, now);
    if comp < p.availAlu then p.(tAlu := t, availAlu := p.availAlu - comp)
    else
      var rest := comp - p.availAlu;
      p.(tAlu := t + 1 + rest / core.alu, availAlu := core.alu - rest % core.alu)
  }

  function SendLoad(s: Thread, m: Machine, r: Request): (m': Machine)
    requires Able(s, m) && r.pos < |m.ops|
    ensures Able(s, m')
  {
    var t := m.ports.tLd;
    var left := m.ports.availLd - 1;
    m.(ports := if left == 0 then m.ports.(availLd := s.core.ld, tLd := t + 1) else m.ports.(availLd := left),
       loads := m.loads + 1,
       ops := m.ops[r.pos := m.ops[r.pos].(status := Dispatched, complete := s.l1.loadTime(m.loads, t))],
       sent := m.sent + [Sent(LOAD, r.pos, r.dispatch, t)])
  }

  // Send a load if its port and a line-fill buffer are free.
  function TryLoad(s: Thread, m: Machine, r: Request): (out: (Machine, bool))
    requires Able(s, m) && r.pos < |m.ops|
    ensures Able(s, out.0) && out.0.head == m.head && out.0.isDone == m.isDone && out.0.now == m.now
  {
    var t := Latest(m.ports.tLd, m.now);
    var m1 := m.(ports := m.ports.(tLd := t));
    if r.dispatch > t then (m1, false)
    else
      var m2 := m1.(asked := m.asked + 1);
      if s.l1.pendingLines(m.asked) < s.core.lfb then (SendLoad(s, m2, r), true) else (m2, false)
  }

  function SendStore(s: Thread, m: Machine, r: Request): (m': Machine)
    requires Able(s, m) && r.pos < |m.ops|
    ensures Able(s, m')
  {
    var t := m.ports.tSt;
    var left := m.ports.availSt - 1;
    var ports := if left == 0 then m.ports.(availSt := s.core.st, tSt := t + 1) else m.ports.(availSt := left);
    m.(ports := ports,
       ops := m.ops[r.pos := m.ops[r.pos].(status := Dispatched, complete := ports.tSt)],
       sent := m.sent + [Sent(STORE, r.pos, r.dispatch, t)])
  }

  function TryStore(s: Thread, m: Machine, r: Request): (out: (Machine, bool))
    requires Able(s, m) && r.pos < |m.ops|
    ensures Able(s, out.0) && out.0.head == m.head && out.0.isDone == m.isDone && out.0.now == m.now
  {
    var t := Latest(m.ports.tSt, m.now);
    var m1 := m.(ports := m.ports.(tSt := t));
    if r.dispatch > t then (m1, false) else (SendStore(s, m1, r), true)
  }

  // ---- Operations ----

  // An operation whose producers are done takes its arithmetic slots.
  function Compute(s: Thread, m: Machine, p: nat): (m': Machine)
    requires Able(s, m) && p < |m.ops|
    ensures Able(s, m') && m'.head == m.head && m'.isDone == m.isDone && m'.now == m.now
  {
    var op := m.ops[p];
    var ports := if op.comp > 0 then TakeAlu(s.core, m.ports, m.now, op.comp) else m.ports;
    m.(ports := ports,
       ops := m.ops[p := op.(comp := 0, dispatch := if op.comp > 0 then ports.tAlu else m.now)])
  }

  // It goes to its port, or waits for it.
  function ToPort(s: Thread, m: Machine, p: nat): (m': Machine)
    requires Able(s, m) && p < |m.ops|
    ensures Able(s, m') && m'.head == m.head && m'.isDone == m.isDone && m'.now == m.now
  {
    hide TryLoad, TryStore, PortsOpen;
    var r := Request(p, m.ops[p].dispatch);
    match OpAt(s, p).kind
    case LOAD =>
      var (m1, sent) := TryLoad(s, m, r);
      if sent then m1
      else m1.(pendingLd := m1.pendingLd + [r], ops := m1.ops[p := m1.ops[p].(status := Pending)])
    case STORE =>
      var (m1, sent) := TryStore(s, m, r);
      if sent then m1
      else m1.(pendingSt := m1.pendingSt + [r], ops := m1.ops[p := m1.ops[p].(status := Pending)])
  }

  function Dispatch(s: Thread, m: Machine, p: nat): (m': Machine)
    requires Able(s, m) && p < |m.ops|
    ensures Able(s, m') && m'.head == m.head && m'.isDone == m.isDone && m'.now == m.now
  {
    hide Compute, ToPort;
    if m.ops[p].prev > 0 then m.(ops := m.ops[p := m.ops[p].(status := Pending, dispatch := 0)])
    else ToPort(s, Compute(s, m, p), p)
  }

  // The oldest operation leaves; the one that enters the reorder window is dispatched.
  function RetireHead(s: Thread, m: Machine): (m': Machine)
    requires Able(s, m) && m.head < |m.ops| && s.core.rob >= 1
    ensures Able(s, m') && m'.head == m.head + 1 && m'.now == m.now
  {
    var m1 := m.(head := m.head + 1);
    var m2 := if m1.head + s.core.rob <= |m.ops| then Dispatch(s, m1, m1.head + s.core.rob - 1) else m1;
    if m2.head == |m.ops| then m2.(isDone := true) else m2
  }

  // One producer of an operation has completed.
  function PassEdge(s: Thread, m: Machine, child: nat): (m': Machine)
    requires Able(s, m) && child < |m.ops| && m.ops[child].prev > 0
    ensures Able(s, m') && m'.head == m.head && m'.now == m.now && m'.isDone == m.isDone
  {
    var op := m.ops[child];
    var m1 := m.(ops := m.ops[child := op.(prev := op.prev - 1)]);
    if op.prev == 1 && op.status == Pending then Dispatch(s, m1, child) else m1
  }

  // Operation p has completed: the operations at the given distances wait for one
  // producer less.
  function Notify(s: Thread, m: Machine, p: nat, next: seq<nat>): (r: Result<Machine, Fault>)
    requires Able(s, m) && forall e :: 0 <= e < |next| ==> p + next[e] < |m.ops|
    ensures r.Ok? ==> Able(s, r.value) && r.value.head == m.head && r.value.now == m.now && r.value.isDone == m.isDone
    decreases |next|
  {
    if next == [] then Ok(m)
    else
      var child := p + next[0];
      if m.ops[child].prev == 0 then Halt(CounterUnderflow) else Notify(s, PassEdge(s, m, child), p, next[1..])
  }

  // The sweep over the reorder window looks at one operation.
  function Visit(s: Thread, m: Machine, p: nat): (r: Result<Machine, Fault>)
    requires Able(s, m) && p < |m.ops| && m.head < |m.ops| && s.core.rob >= 1 && EdgesInside(s, p)
    ensures r.Ok? ==> Able(s, r.value) && r.value.head == (if Leaves(m, p) then m.head + 1 else m.head)
    ensures r.Ok? ==> r.value.now == m.now
  {
    var op := m.ops[p];
    match op.status
    case Dispatched =>
      if 0 < op.complete <= m.now then
        var m1 := m.(ops := m.ops[p := op.(status := Completed)]);
        var m2 := if p == m.head then RetireHead(s, m1) else m1;
        if m2.isDone then Ok(m2) else Notify(s, m2, p, OpAt(s, p).next)
      else Ok(m)
    case Completed => Ok(if p == m.head then RetireHead(s, m) else m)
    case _ => Ok(m)
  }

  predicate Leaves(m: Machine, p: nat)
    requires p < |m.ops|
  {
    p == m.head
    && (m.ops[p].status == Completed || (m.ops[p].status == Dispatched && 0 < m.ops[p].complete <= m.now))
  }

  // n operations from p on.
  function Sweep(s: Thread, m: Machine, p: nat, n: nat): (r: Result<Machine, Fault>)
    requires Able(s, m) && m.head <= p && p + n <= |m.ops| && s.core.rob >= 1
    requires forall q :: 0 <= q < Total(s) ==> EdgesInside(s, q)
    ensures r.Ok? ==> Able(s, r.value) && r.value.now == m.now && r.value.head <= p + n
    decreases n
  {
    if n == 0 then Ok(m)
    else
      var m1 :- Visit(s, m, p);
      Sweep(s, m1, p + 1, n - 1)
  }

  // ---- Waiting requests ----

  function RetryLoads(s: Thread, m: Machine, i: nat): (m': Machine)
    requires Able(s, m) && i <= |m.pendingLd|
    ensures Able(s, m') && m'.head == m.head && m'.isDone == m.isDone && m'.now == m.now
    decreases |m.pendingLd| - i
  {
    if i == |m.pendingLd| then m
    else
      var (m1, sent) := TryLoad(s, m, m.pendingLd[i]);
      if sent then RetryLoads(s, m1.(pendingLd := Drop(m1.pendingLd, i), hasCompleteOp := true), i)
      else RetryLoads(s, m1, i + 1)
  }

  function RetryStores(s: Thread, m: Machine, i: nat): (m': Machine)
    requires Able(s, m) && i <= |m.pendingSt|
    ensures Able(s, m') && m'.head == m.head && m'.isDone == m.isDone && m'.now == m.now
    decreases |m.pendingSt| - i
  {
    if i == |m.pendingSt| then m
    else
      var (m1, sent) := TryStore(s, m, m.pendingSt[i]);
      if sent then RetryStores(s, m1.(pendingSt := Drop(m1.pendingSt, i), hasCompleteOp := true), i)
      else RetryStores(s, m1, i + 1)
  }

  // ---- The core's clock ----

  // Operations in the reorder window.
  function RobLoad(s: Thread, m: Machine): nat
    requires m.head <= |m.ops|
  {
    Least(s.core.rob, |m.ops| - m.head)
  }

  function EventOf(op: OpState): nat {
    if op.status == Pending then op.dispatch else op.complete
  }

  // The earliest event after now among n operations from p on.
  function NextEvent(m: Machine, p: nat, n: nat, best: nat): nat
    requires p + n <= |m.ops|
    decreases n
  {
    if n == 0 then best
    else
      var t := EventOf(m.ops[p]);
      NextEvent(m, p + 1, n - 1, if m.now < t < best then t else best)
  }

  // It is the earliest event after now that any of them has, or `best` if that is earlier.
  lemma {:induction false} NextEventIsEarliest(m: Machine, p: nat, n: nat, best: nat)
    requires p + n <= |m.ops|
    ensures var t := NextEvent(m, p, n, best);
      && t <= best
      && (forall q :: p <= q < p + n && EventOf(m.ops[q]) > m.now ==> t <= EventOf(m.ops[q]))
      && (t == best || exists q :: p <= q < p + n && EventOf(m.ops[q]) == t > m.now)
    decreases n
  {
    if n > 0 {
      var t := EventOf(m.ops[p]);
      NextEventIsEarliest(m, p + 1, n - 1, if m.now < t < best then t else best);
    }
  }

  // Context::advance
  function Advance(s: Thread, m: Machine, t: nat): (r: Result<(Machine, bool), Fault>)
    requires Able(s, m) && s.core.rob >= 1 && forall q :: 0 <= q < Total(s) ==> EdgesInside(s, q)
    requires m.head <= |m.ops|
  {
    if m.isDone then Ok((m, false))
    else
      var m1 := RetryStores(s, RetryLoads(s, m.(now := t), 0), 0);
      if !m1.hasCompleteOp && m1.nextEvent > m1.now then Ok((m1, false))
      else
        var m2 := m1.(hasCompleteOp := false);
        var m3 :- Sweep(s, m2, m2.head, RobLoad(s, m2));
        Ok((m3.(nextEvent := NextEvent(m3, m3.head, RobLoad(s, m3), NEVER)), m3.isDone))
  }

  // Context::complete_op: the cache tells when a load is complete.
  function CompleteOp(m: Machine, p: nat, complete: nat): Machine
    requires p < |m.ops|
  {
    m.(ops := m.ops[p := m.ops[p].(complete := complete)], hasCompleteOp := true)
  }

  // ---- Start ----

  function FreshOp(s: Thread, p: nat): OpState
    requires |s.prog.ops| > 0
  {
    OpState(Issued, OpAt(s, p).prev, OpAt(s, p).comp, 0, 0)
  }

  function Unstarted(s: Thread): (m: Machine)
    requires |s.prog.ops| > 0
    ensures InProgram(s, m) && forall p :: 0 <= p < Total(s) ==> m.ops[p] == FreshOp(s, p)
  {
    Machine(0, 0, seq(Total(s), p requires 0 <= p < Total(s) => FreshOp(s, p)),
            Ports(1, s.core.alu, 1, s.core.ld, 1, s.core.st), [], [], 0, 0, false, false, NEVER, [])
  }

  // Context::init_window dispatches the first n operations.
  function Filled(s: Thread, n: nat): (m: Machine)
    requires Runnable(s) && n <= Total(s)
    ensures Able(s, m)
  {
    if n == 0 then Unstarted(s)
    else
      var m := Dispatch(s, Filled(s, n - 1), n - 1);
      m.(nextEvent := Least(EventOf(m.ops[n - 1]), m.nextEvent))
  }

  function Start(s: Thread): Machine
    requires Runnable(s)
  {
    Filled(s, Least(s.core.rob, Total(s)))
  }
}
