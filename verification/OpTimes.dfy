// When operations are ready, leave and complete, over whole runs: an operation leaves only
// after its producers are done and all its arithmetic slots have been taken, no cycle has
// more slots than the core, no slot is left unused while something waits for one, and each
// request completes when its port or the cache says.
module OpTimes {
  import opened Counting
  import opened ExecGraph
  import opened Programs
  import opened ProgramOrder
  import opened OrderSafety
  import opened OrderRuns
  import opened PortBounds
  import opened Sequences

  // ---- Work done ----

  // Arithmetic slots that operation p has taken so far.
  function Work(s: Thread, op: OpState, p: nat): int
    requires |s.prog.ops| > 0
  {
    OpAt(s, p).comp - op.comp
  }

  // Of the first n operations: all they have taken; what those have taken that are ready
  // by cycle t; and what those have taken that are ready in cycle x or later.
  function AllWork(s: Thread, ops: seq<OpState>, n: nat): int
    requires |s.prog.ops| > 0 && n <= |ops|
    decreases n
  {
    if n == 0 then 0 else AllWork(s, ops, n - 1) + Work(s, ops[n - 1], n - 1)
  }

  function WorkBy(s: Thread, ops: seq<OpState>, n: nat, t: nat): int
    requires |s.prog.ops| > 0 && n <= |ops|
    decreases n
  {
    if n == 0 then 0
    else WorkBy(s, ops, n - 1, t) + if ops[n - 1].dispatch <= t then Work(s, ops[n - 1], n - 1) else 0
  }

  function WorkFrom(s: Thread, ops: seq<OpState>, n: nat, x: nat): int
    requires |s.prog.ops| > 0 && n <= |ops|
    decreases n
  {
    if n == 0 then 0
    else WorkFrom(s, ops, n - 1, x) + if ops[n - 1].dispatch >= x then Work(s, ops[n - 1], n - 1) else 0
  }

  // Slots used up, counting every cycle before the port's as full.
  function SlotsUsed(core: Core, p: Ports): int {
    p.tAlu * core.alu - p.availAlu
  }

  // The same from the current cycle on, with the slots of all cycles before it gone.
  function SlotsFrom(core: Core, p: Ports, now: nat): int {
    Latest(p.tAlu, now) * core.alu - p.availAlu
  }

  // ---- One operation changes ----

  lemma {:induction false} WorkChanges(s: Thread, ops: seq<OpState>, p: nat, op: OpState, n: nat, t: nat)
    requires |s.prog.ops| > 0 && p < |ops| && n <= |ops|
    ensures AllWork(s, ops[p := op], n) == AllWork(s, ops, n) + if p < n then Work(s, op, p) - Work(s, ops[p], p) else 0
    ensures WorkBy(s, ops[p := op], n, t) == WorkBy(s, ops, n, t)
      + if p < n then (if op.dispatch <= t then Work(s, op, p) else 0) - (if ops[p].dispatch <= t then Work(s, ops[p], p) else 0)
        else 0
    ensures WorkFrom(s, ops[p := op], n, t) == WorkFrom(s, ops, n, t)
      + if p < n then (if op.dispatch >= t then Work(s, op, p) else 0) - (if ops[p].dispatch >= t then Work(s, ops[p], p) else 0)
        else 0
    decreases n
  {
    hide Work;
    if n > 0 {
      WorkChanges(s, ops, p, op, n - 1, t);
    }
  }

  lemma {:induction false} WorkBounds(s: Thread, ops: seq<OpState>, n: nat, t: nat)
    requires |s.prog.ops| > 0 && n <= |ops| && forall p :: 0 <= p < n ==> Work(s, ops[p], p) >= 0
    ensures 0 <= WorkBy(s, ops, n, t) <= AllWork(s, ops, n) && 0 <= WorkFrom(s, ops, n, t)
    decreases n
  {
    if n > 0 {
      WorkBounds(s, ops, n - 1, t);
    }
  }

  // ---- What every state keeps ----

  // Work is never ahead of the cycles, and the port is never ahead of the work.
  ghost predicate SlotsFair(s: Thread, m: Machine)
    requires |s.prog.ops| > 0
  {
    && AllWork(s, m.ops, |m.ops|) <= SlotsUsed(s.core, m.ports)
    && (forall t: nat :: WorkBy(s, m.ops, |m.ops|, t) <= s.core.alu * t)
    && (forall x: nat :: x >= m.now && x >= 1 ==>
          SlotsUsed(s.core, m.ports) < s.core.alu * x + WorkFrom(s, m.ops, |m.ops|, x))
  }

  // Nothing has been computed for the operation yet.
  predicate Untouched(op: OpState) {
    op.status == Issued || op.prev > 0
  }

  // Operation q became ready no earlier than its work takes from the last completion
  // among its producers on.
  ghost predicate AfterProducers(s: Thread, m: Machine, q: nat)
    requires InProgram(s, m) && q < |m.ops| && s.core.alu > 0
  {
    forall p :: 0 <= p < |m.ops| && Edges(s, p, q) > 0 ==>
      m.ops[p].status == Completed && m.ops[p].complete + OpAt(s, q).comp / s.core.alu <= m.ops[q].dispatch
  }

  // Requests of one kind that have left.
  function KindCount(sent: seq<Sent>, kind: OpType): nat {
    if sent == [] then 0
    else KindCount(sent[..|sent| - 1], kind) + if sent[|sent| - 1].kind == kind then 1 else 0
  }

  // Port slots used since the port was last given all its slots anew.
  function SlotsGone(sent: seq<Sent>, kind: OpType, width: nat): nat {
    if sent == [] then 0
    else
      var gone := SlotsGone(sent[..|sent| - 1], kind, width);
      if sent[|sent| - 1].kind != kind then gone else if gone + 1 == width then 0 else gone + 1
  }

  // Of the first n questions about line-fill buffers, those answered with a free one.
  function Granted(s: Thread, n: nat): nat {
    if n == 0 then 0 else Granted(s, n - 1) + if s.l1.pendingLines(n - 1) < s.core.lfb then 1 else 0
  }

  // Request i completes when its port or the cache says: a store in the cycle it leaves, or
  // one later if it takes the port's last slot; a load when the cache's answer to it says,
  // unless that is left open.
  predicate Answer(s: Thread, m: Machine, i: nat)
    requires i < |m.sent| && m.sent[i].pos < |m.ops|
  {
    var x, done := m.sent[i], m.ops[m.sent[i].pos].complete;
    if x.kind == STORE then
      x.time >= 1 && done == x.time + if SlotsGone(m.sent[..i + 1], STORE, s.core.st) == 0 then 1 else 0
    else
      var told := s.l1.loadTime(KindCount(m.sent[..i], LOAD), x.time);
      told > 0 ==> done == told
  }

  ghost predicate Answered(s: Thread, m: Machine) {
    && m.loads == KindCount(m.sent, LOAD) == Granted(s, m.asked)
    && m.ports.tSt >= 1 && m.ports.availSt + SlotsGone(m.sent, STORE, s.core.st) == s.core.st
    && forall i :: 0 <= i < |m.sent| ==> m.sent[i].pos < |m.ops| && Answer(s, m, i)
  }

  // Operation c, if there is one, is about to be dispatched.
  ghost predicate Timely(s: Thread, m: Machine, c: nat)
    requires InProgram(s, m) && s.core.alu > 0
  {
    && (forall q :: 0 <= q < |m.ops| ==>
          if Untouched(m.ops[q]) || q == c then m.ops[q].comp == OpAt(s, q).comp
          else m.ops[q].comp == 0 && m.ops[q].dispatch <= Latest(m.ports.tAlu, m.now) && AfterProducers(s, m, q))
    && SlotsFair(s, m) && Answered(s, m)
    && (forall i :: 0 <= i < |m.sent| ==>
          m.sent[i].pos < |m.ops| && m.sent[i].ready == m.ops[m.sent[i].pos].dispatch)
  }

  // ---- Computing ----

  // An operation that computes is ready in the cycle in which its last slot is taken: the
  // slot count reaches into that cycle and no further.
  lemma ReadyIsExact(s: Thread, m: Machine, p: nat)
    requires Able(s, m) && p < |m.ops| && s.core.alu > 0
    ensures var m' := Compute(s, m, p);
      var ready := m'.ops[p].dispatch;
      if m.ops[p].comp == 0 then ready == m.now && m'.ports == m.ports
      else
        var used := SlotsFrom(s.core, m.ports, m.now) + m.ops[p].comp;
        && s.core.alu * (ready - 1) <= used < s.core.alu * ready
        && ready >= m.now && ready == m'.ports.tAlu && SlotsUsed(s.core, m'.ports) == used
  {
    hide TakeAlu, OpAt, Total;
    if m.ops[p].comp > 0 {
      AluIsExact(s.core, m.ports, m.now, m.ops[p].comp);
    }
  }

  // What the port adds to an operation that has been computed.
  lemma ToPortShape(s: Thread, m: Machine, p: nat)
    requires Able(s, m) && p < |m.ops|
    ensures var m' := ToPort(s, m, p);
      && |m'.ops| == |m.ops| && (forall q :: 0 <= q < |m.ops| && q != p ==> m'.ops[q] == m.ops[q])
      && m'.ops[p] == m.ops[p].(status := m'.ops[p].status, complete := m'.ops[p].complete)
      && (m'.ops[p].status == Dispatched || m'.ops[p].status == Pending)
      && m'.ports.tAlu == m.ports.tAlu && m'.ports.availAlu == m.ports.availAlu
      && (m'.sent == m.sent || exists t: nat :: m'.sent == m.sent + [Sent(OpAt(s, p).kind, p, m.ops[p].dispatch, t)])
  {
    hide PortsOpen, Total;
    match OpAt(s, p).kind
    case LOAD => LoadShape(s, m, Request(p, m.ops[p].dispatch));
    case STORE => StoreShape(s, m, Request(p, m.ops[p].dispatch));
  }

  // m' is m after a request left by its port, or was turned away.
  ghost predicate Tried(s: Thread, m: Machine, m': Machine, sent: bool, kind: OpType, r: Request)
    requires r.pos < |m.ops|
  {
    && |m'.ops| == |m.ops| && (forall q :: 0 <= q < |m.ops| && q != r.pos ==> m'.ops[q] == m.ops[q])
    && m'.ports.tAlu == m.ports.tAlu && m'.ports.availAlu == m.ports.availAlu && m'.now == m.now
    && m'.pendingLd == m.pendingLd && m'.pendingSt == m.pendingSt
    && if sent then
         && m'.ops[r.pos] == m.ops[r.pos].(status := Dispatched, complete := m'.ops[r.pos].complete)
         && exists t: nat :: LeavesIn(s, m, m', kind, r, t)
       else
         && m'.ops == m.ops && m'.sent == m.sent && m'.loads == m.loads
         && m'.ports.availSt == m.ports.availSt && m'.ports.tSt >= m.ports.tSt
         && (m'.asked == m.asked || (m'.asked == m.asked + 1 && s.l1.pendingLines(m.asked) >= s.core.lfb))
  }

  // A request leaves in cycle t.
  ghost predicate LeavesIn(s: Thread, m: Machine, m': Machine, kind: OpType, r: Request, t: nat)
    requires r.pos < |m.ops| == |m'.ops|
  {
    && m'.sent == m.sent + [Sent(kind, r.pos, r.dispatch, t)] && m'.ports.tSt >= m.ports.tSt
    && if kind == LOAD then
         && m'.loads == m.loads + 1 && m'.asked == m.asked + 1 && s.l1.pendingLines(m.asked) < s.core.lfb
         && m'.ops[r.pos].complete == s.l1.loadTime(m.loads, t) && m'.ports.availSt == m.ports.availSt
       else
         && m'.loads == m.loads && m'.asked == m.asked && t >= m.ports.tSt
         && m'.ports.availSt == (if m.ports.availSt == 1 then s.core.st else m.ports.availSt - 1)
         && m'.ops[r.pos].complete == t + if m.ports.availSt == 1 then 1 else 0
  }

  // Nothing that the answers speak of has changed.
  lemma SameAnswers(s: Thread, m: Machine, m': Machine)
    requires Answered(s, m) && m'.sent == m.sent && m'.loads == m.loads && m'.asked == m.asked && |m'.ops| == |m.ops|
    requires m'.ports.availSt == m.ports.availSt && m'.ports.tSt >= m.ports.tSt
    requires forall q :: 0 <= q < |m.ops| ==> m'.ops[q].complete == m.ops[q].complete
    ensures Answered(s, m')
  {
    hide KindCount, SlotsGone, Granted;
    forall i | 0 <= i < |m'.sent| ensures m'.sent[i].pos < |m'.ops| && Answer(s, m', i) {
      assert Answer(s, m, i);
    }
  }

  lemma NextCounts(sent: seq<Sent>, x: Sent, kind: OpType, width: nat)
    ensures KindCount(sent + [x], kind) == KindCount(sent, kind) + if x.kind == kind then 1 else 0
    ensures SlotsGone(sent + [x], kind, width) ==
      if x.kind != kind then SlotsGone(sent, kind, width)
      else if SlotsGone(sent, kind, width) + 1 == width then 0 else SlotsGone(sent, kind, width) + 1
  {
    assert (sent + [x])[..|sent|] == sent;
  }

  // A request that leaves is answered; those before it keep their answers.
  lemma LeavesAnswered(s: Thread, m: Machine, m': Machine, kind: OpType, r: Request, t: nat)
    requires Answered(s, m) && r.pos < |m.ops| == |m'.ops| && LeavesIn(s, m, m', kind, r, t)
    requires 1 <= m.ports.availSt <= s.core.st
    requires forall q :: 0 <= q < |m.ops| && q != r.pos ==> m'.ops[q] == m.ops[q]
    requires forall i :: 0 <= i < |m.sent| ==> m.sent[i].pos != r.pos
    ensures Answered(s, m')
  {
    var x, n := Sent(kind, r.pos, r.dispatch, t), |m.sent|;
    NextCounts(m.sent, x, LOAD, s.core.st);
    NextCounts(m.sent, x, STORE, s.core.st);
    hide KindCount, SlotsGone;
    assert m'.sent[..n] == m.sent && m'.sent[..n + 1] == m'.sent;
    forall i | 0 <= i < |m'.sent| ensures m'.sent[i].pos < |m'.ops| && Answer(s, m', i) {
      if i < n {
        assert Answer(s, m, i);
        assert m'.sent[..i + 1] == m.sent[..i + 1] && m'.sent[..i] == m.sent[..i];
      }
    }
  }

  lemma TriedAnswered(s: Thread, m: Machine, m': Machine, sent: bool, kind: OpType, r: Request)
    requires Answered(s, m) && r.pos < |m.ops| && Tried(s, m, m', sent, kind, r) && 1 <= m.ports.availSt <= s.core.st
    requires sent ==> forall i :: 0 <= i < |m.sent| ==> m.sent[i].pos != r.pos
    ensures Answered(s, m')
  {
    hide Answer, KindCount, SlotsGone;
    if sent {
      hide Answered;
      var t: nat :| LeavesIn(s, m, m', kind, r, t);
      LeavesAnswered(s, m, m', kind, r, t);
    } else {
      var m1 := m'.(asked := m.asked);
      SameAnswers(s, m, m1);
      assert Granted(s, m'.asked) == Granted(s, m.asked);
      SameButAsked(s, m1, m');
    }
  }

  lemma SameButAsked(s: Thread, m: Machine, m': Machine)
    requires Answered(s, m) && m' == m.(asked := m'.asked) && Granted(s, m'.asked) == Granted(s, m.asked)
    ensures Answered(s, m')
  {
    hide Granted, KindCount, SlotsGone;
    forall i | 0 <= i < |m'.sent| ensures Answer(s, m', i) {
      assert Answer(s, m, i);
    }
  }

  lemma LoadShape(s: Thread, m: Machine, r: Request)
    requires Able(s, m) && r.pos < |m.ops|
    ensures var (m', sent) := TryLoad(s, m, r); Tried(s, m, m', sent, LOAD, r)
  {
    hide PortsOpen, OpAt, Total;
    var (m', sent) := TryLoad(s, m, r);
    assert sent ==> LeavesIn(s, m, m', LOAD, r, Latest(m.ports.tLd, m.now));
  }

  lemma StoreShape(s: Thread, m: Machine, r: Request)
    requires Able(s, m) && r.pos < |m.ops|
    ensures var (m', sent) := TryStore(s, m, r); Tried(s, m, m', sent, STORE, r)
  {
    hide PortsOpen, OpAt, Total;
    var (m', sent) := TryStore(s, m, r);
    assert sent ==> LeavesIn(s, m, m', STORE, r, Latest(m.ports.tSt, m.now));
  }

  // The slots that operation p takes keep the balance.
  lemma SlotsTaken(s: Thread, m: Machine, m': Machine, p: nat)
    requires InProgram(s, m) && p < |m.ops| == |m'.ops| && s.core.alu > 0 && 1 <= m.ports.availAlu <= s.core.alu
    requires Timely(s, m, p) && m'.now == m.now && m'.ops == m.ops[p := m'.ops[p]] && m'.ops[p].comp == 0
    requires if OpAt(s, p).comp == 0 then SlotsUsed(s.core, m'.ports) == SlotsUsed(s.core, m.ports)
             else
               && m'.ops[p].dispatch >= m.now
               && SlotsUsed(s.core, m'.ports) == SlotsFrom(s.core, m.ports, m.now) + OpAt(s, p).comp
               && SlotsUsed(s.core, m'.ports) < s.core.alu * m'.ops[p].dispatch
    ensures SlotsFair(s, m')
  {
    var comp, r, alu, n := OpAt(s, p).comp, m'.ops[p].dispatch, s.core.alu, |m.ops|;
    assert Work(s, m.ops[p], p) == 0 && Work(s, m'.ops[p], p) == comp;
    WorkChanges(s, m.ops, p, m'.ops[p], n, 0);
    MulLe(m.ports.tAlu, Latest(m.ports.tAlu, m.now), alu);
    forall t: nat ensures WorkBy(s, m'.ops, n, t) <= alu * t {
      WorkChanges(s, m.ops, p, m'.ops[p], n, t);
      WorkBounds(s, m'.ops, n, t);
      if r <= t {
        MulLe(r, t, alu);
      }
    }
    forall x: nat | x >= m.now && x >= 1 ensures SlotsUsed(s.core, m'.ports) < alu * x + WorkFrom(s, m'.ops, n, x) {
      WorkChanges(s, m.ops, p, m'.ops[p], n, x);
      WorkBounds(s, m'.ops, n, x);
      WorkBounds(s, m.ops, n, x);
      MulLe(m.now, x, alu);
      if x > r {
        MulLe(r, x, alu);
      }
    }
  }

  lemma {:induction false} SentIsCounted(sent: seq<Sent>, i: nat)
    requires i < |sent|
    ensures SentCount(sent, sent[i].pos) >= 1
    decreases |sent|
  {
    if i < |sent| - 1 {
      SentIsCounted(sent[..|sent| - 1], i);
    }
  }

  // What has not started has not been sent.
  lemma NotSent(s: Thread, m: Machine, p: nat)
    requires InProgram(s, m) && SentOnce(s, m) && p < |m.ops| && !Started(m.ops[p])
    ensures forall i :: 0 <= i < |m.sent| ==> m.sent[i].pos != p
  {
    hide SentCount, OpAt, Total;
    forall i | 0 <= i < |m.sent| ensures m.sent[i].pos != p {
      SentIsCounted(m.sent, i);
    }
  }

  // An operation whose counter is zero has all its producers behind it.
  lemma ProducersBehind(s: Thread, m: Machine, d: Debt, c: nat, tail: nat, q: nat)
    requires Keeps(s, m, d, c, tail) && q < |m.ops| && m.ops[q].prev == 0
    ensures forall p :: 0 <= p < |m.ops| && Edges(s, p, q) > 0 ==>
      m.ops[p].status == Completed && m.ops[p].complete <= m.now
  {
    hide Edges, Listed, SentOnce, Exact, PortsOpen, OpAt;
    assert m.ops[q].prev == Owed(s, m.ops, |m.ops|, q) + DebtTo(d, q);
    forall p | 0 <= p < |m.ops| && Edges(s, p, q) > 0 ensures m.ops[p].status == Completed {
      if m.ops[p].status != Completed {
        OwedAtLeast(s, m.ops, |m.ops|, p, q);
      }
    }
  }

  // Operation p is ready: nothing else changes but its own entry and the ports.
  ghost predicate Readied(s: Thread, m: Machine, m': Machine, p: nat)
    requires InProgram(s, m) && p < |m.ops| && s.core.alu > 0
  {
    && m'.now == m.now && |m'.ops| == |m.ops| && m'.ops == m.ops[p := m'.ops[p]]
    && m'.ops[p].comp == 0 && m'.ops[p].status != Issued && m'.ops[p].status != Completed && m'.ops[p].prev == 0
    && m'.ops[p].dispatch >= m.now + OpAt(s, p).comp / s.core.alu
    && Latest(m.ports.tAlu, m.now) <= Latest(m'.ports.tAlu, m'.now) && m'.ops[p].dispatch <= Latest(m'.ports.tAlu, m'.now)
    && (m'.sent == m.sent || exists t: nat :: m'.sent == m.sent + [Sent(OpAt(s, p).kind, p, m'.ops[p].dispatch, t)])
  }

  lemma ReadiedTimely(s: Thread, m: Machine, m': Machine, p: nat)
    requires InProgram(s, m) && InProgram(s, m') && p < |m.ops| && s.core.alu > 0 && Timely(s, m, p) && Readied(s, m, m', p)
    requires SlotsFair(s, m') && Answered(s, m') && !Started(m.ops[p]) && forall i :: 0 <= i < |m.sent| ==> m.sent[i].pos != p
    requires forall q :: 0 <= q < |m.ops| && Edges(s, q, p) > 0 ==> m.ops[q].status == Completed && m.ops[q].complete <= m.now
    ensures Timely(s, m', Total(s))
  {
    hide SlotsFair, Answered, Edges, OpAt, Total, Latest;
    forall q | 0 <= q < |m'.ops| && !Untouched(m'.ops[q])
      ensures m'.ops[q].comp == 0 && m'.ops[q].dispatch <= Latest(m'.ports.tAlu, m'.now) && AfterProducers(s, m', q)
    {
      if q != p {
        assert AfterProducers(s, m, q);
      }
    }
  }

  lemma ReadyInTime(core: Core, ports: Ports, now: nat, comp: nat, ready: nat)
    requires 1 <= ports.availAlu <= core.alu && SlotsFrom(core, ports, now) + comp < core.alu * ready
    ensures ready >= now + comp / core.alu
  {
    var alu, q := core.alu, comp / core.alu;
    MulLe(now, Latest(ports.tAlu, now), alu);
    assert comp >= q * alu by { assert comp == q * alu + comp % alu; }
    if now + q > 0 {
      assert (now + q - 1) * alu == now * alu + q * alu - alu;
      if ready <= now + q - 1 {
        MulLe(ready, now + q - 1, alu);
      }
    }
  }

  // What computing and trying the port leave: nothing else changes but the operation's own
  // entry and the ports.
  lemma ComputedShape(s: Thread, m: Machine, p: nat)
    requires Able(s, m) && p < |m.ops| && s.core.alu > 0 && m.ops[p].prev == 0
    ensures var mc := Compute(s, m, p);
      var m' := ToPort(s, mc, p);
      && InProgram(s, m') && m'.now == m.now && m'.ops == m.ops[p := m'.ops[p]]
      && m'.ops[p].comp == 0 && m'.ops[p].status != Issued && m'.ops[p].status != Completed && m'.ops[p].prev == 0
      && m'.ops[p].dispatch == mc.ops[p].dispatch
      && m'.ports.tAlu == mc.ports.tAlu && m'.ports.availAlu == mc.ports.availAlu
      && (m'.sent == m.sent || exists t: nat :: m'.sent == m.sent + [Sent(OpAt(s, p).kind, p, m'.ops[p].dispatch, t)])
  {
    hide OpAt, ToPort, TakeAlu;
    ToPortShape(s, Compute(s, m, p), p);
  }

  // When it is ready, and how far the port has moved.
  lemma ReadyAndPort(s: Thread, m: Machine, p: nat)
    requires Able(s, m) && p < |m.ops| && s.core.alu > 0
    ensures var mc := Compute(s, m, p);
      var ready := mc.ops[p].dispatch;
      && ready >= m.now + m.ops[p].comp / s.core.alu
      && Latest(m.ports.tAlu, m.now) <= Latest(mc.ports.tAlu, m.now) && ready <= Latest(mc.ports.tAlu, m.now)
  {
    ReadyIsExact(s, m, p);
    hide TakeAlu, OpAt, Total, SlotsFrom, SlotsUsed;
    if m.ops[p].comp > 0 {
      AluMovesOn(s.core, m.ports, m.now, m.ops[p].comp);
      ReadyInTime(s.core, m.ports, m.now, m.ops[p].comp, Compute(s, m, p).ops[p].dispatch);
    } else {
      assert 0 / s.core.alu == 0;
    }
  }

  lemma AluMovesOn(core: Core, ports: Ports, now: nat, comp: nat)
    requires core.alu > 0
    ensures TakeAlu(core, ports, now, comp).tAlu >= Latest(ports.tAlu, now)
  {
  }

  lemma ComputedReadied(s: Thread, m: Machine, p: nat)
    requires Able(s, m) && p < |m.ops| && s.core.alu > 0 && Timely(s, m, p) && m.ops[p].prev == 0
    ensures var m' := ToPort(s, Compute(s, m, p), p); InProgram(s, m') && Readied(s, m, m', p)
  {
    ComputedShape(s, m, p);
    ReadyAndPort(s, m, p);
    StillToCompute(s, m, p);
    hide OpAt, ToPort, Compute, Timely, Total, Latest;
  }

  lemma ComputedReadies(s: Thread, m: Machine, p: nat)
    requires Able(s, m) && p < |m.ops| && s.core.alu > 0 && Timely(s, m, p) && m.ops[p].prev == 0
    ensures var m' := ToPort(s, Compute(s, m, p), p); InProgram(s, m') && Readied(s, m, m', p) && SlotsFair(s, m')
  {
    ComputedReadied(s, m, p);
    ComputedShape(s, m, p);
    ReadyIsExact(s, m, p);
    StillToCompute(s, m, p);
    hide OpAt, ToPort, Compute, SlotsFair, Timely, SlotsFrom, Total, Readied;
    SlotsTaken(s, m, ToPort(s, Compute(s, m, p), p), p);
  }

  lemma StillToCompute(s: Thread, m: Machine, p: nat)
    requires InProgram(s, m) && p < |m.ops| && s.core.alu > 0 && Timely(s, m, p)
    ensures m.ops[p].comp == OpAt(s, p).comp
  {
    hide OpAt, SlotsFair, Answered, AfterProducers;
  }

  lemma TimelyAnswered(s: Thread, m: Machine, c: nat)
    requires InProgram(s, m) && s.core.alu > 0 && Timely(s, m, c)
    ensures Answered(s, m)
  {
  }

  lemma ToPortAnswered(s: Thread, m: Machine, p: nat)
    requires Able(s, m) && p < |m.ops| && Answered(s, m) && forall i :: 0 <= i < |m.sent| ==> m.sent[i].pos != p
    ensures Answered(s, ToPort(s, m, p))
  {
    var r := Request(p, m.ops[p].dispatch);
    StorePortOpen(s, m);
    hide PortsOpen, Answered, Tried, Total, TryLoad, TryStore;
    match OpAt(s, p).kind
    case LOAD =>
      LoadShape(s, m, r);
      var (m1, sent) := TryLoad(s, m, r);
      TriedAnswered(s, m, m1, sent, LOAD, r);
      SameAnswers(s, m1, ToPort(s, m, p));
    case STORE =>
      StoreShape(s, m, r);
      var (m1, sent) := TryStore(s, m, r);
      TriedAnswered(s, m, m1, sent, STORE, r);
      SameAnswers(s, m1, ToPort(s, m, p));
  }

  lemma ComputeAnswered(s: Thread, m: Machine, p: nat)
    requires Able(s, m) && p < |m.ops| && Answered(s, m)
    ensures Answered(s, Compute(s, m, p)) && Compute(s, m, p).sent == m.sent
  {
    hide Answered, PortsOpen;
    SameAnswers(s, m, Compute(s, m, p));
  }

  lemma DispatchTimely(s: Thread, m: Machine, d: Debt, p: nat, tail: nat)
    requires Keeps(s, m, d, p, tail) && p < |m.ops| && Timely(s, m, p)
    ensures InProgram(s, Dispatch(s, m, p)) && Timely(s, Dispatch(s, m, p), Total(s))
  {
    NotStarted(s, m, tail, p);
    NotSent(s, m, p);
    if m.ops[p].prev > 0 {
      hide CountersExact, Listed, Zones, SentOnce, Exact, PortsOpen, OpAt, Total, Edges;
      HeldTimely(s, m, p);
    } else {
      ProducersBehind(s, m, d, p, tail, p);
      hide CountersExact, Listed, Zones, SentOnce, Exact, PortsOpen, OpAt, Total, Edges, Compute, ToPort, Readied, Timely;
      ComputedReadies(s, m, p);
      TimelyAnswered(s, m, p);
      ComputeAnswered(s, m, p);
      ToPortAnswered(s, Compute(s, m, p), p);
      ReadiedTimely(s, m, Dispatch(s, m, p), p);
    }
  }

  // An operation that has to wait for producers.
  lemma HeldTimely(s: Thread, m: Machine, p: nat)
    requires InProgram(s, m) && p < |m.ops| && s.core.alu > 0 && Timely(s, m, p) && m.ops[p].prev > 0
    requires !Started(m.ops[p]) && forall i :: 0 <= i < |m.sent| ==> m.sent[i].pos != p
    ensures var m' := m.(ops := m.ops[p := m.ops[p].(status := Pending, dispatch := 0)]);
      InProgram(s, m') && Timely(s, m', Total(s))
  {
    var m' := m.(ops := m.ops[p := m.ops[p].(status := Pending, dispatch := 0)]);
    SameWork(s, m, m', p);
    SameAnswers(s, m, m');
    hide SlotsFair, Answered, Edges, OpAt, Total, Latest;
    forall q | 0 <= q < |m'.ops| && !Untouched(m'.ops[q]) ensures AfterProducers(s, m', q) {
      assert AfterProducers(s, m, q);
    }
  }

  // The balance of slots does not see an operation that has taken none, or what does not
  // change its slots.
  lemma SameWork(s: Thread, m: Machine, m': Machine, p: nat)
    requires |s.prog.ops| > 0 && p < |m.ops| == |m'.ops| && m'.now >= m.now && SlotsFair(s, m)
    requires m'.ports.tAlu == m.ports.tAlu && m'.ports.availAlu == m.ports.availAlu
    requires m'.ops == m.ops[p := m'.ops[p]] && m'.ops[p].comp == m.ops[p].comp
    requires m.ops[p].comp == OpAt(s, p).comp || m'.ops[p].dispatch == m.ops[p].dispatch
    ensures SlotsFair(s, m')
  {
    hide OpAt;
    var n := |m.ops|;
    WorkChanges(s, m.ops, p, m'.ops[p], n, 0);
    forall t: nat
      ensures AllWork(s, m'.ops, n) == AllWork(s, m.ops, n) && WorkBy(s, m'.ops, n, t) == WorkBy(s, m.ops, n, t)
      ensures WorkFrom(s, m'.ops, n, t) == WorkFrom(s, m.ops, n, t)
    {
      WorkChanges(s, m.ops, p, m'.ops[p], n, t);
    }
  }

  // ---- Retirement and completion ----

  // The head moves on: nothing here sees it.
  lemma HeadIsUnseen(s: Thread, m: Machine, m': Machine, c: nat)
    requires InProgram(s, m) && s.core.alu > 0 && Timely(s, m, c)
    requires m' == m.(head := m'.head, isDone := m'.isDone, hasCompleteOp := m'.hasCompleteOp, nextEvent := m'.nextEvent)
    ensures InProgram(s, m') && Timely(s, m', c)
  {
    SameAnswers(s, m, m');
    hide Edges, OpAt, Total, Answered;
    forall q | 0 <= q < |m.ops| && !Untouched(m.ops[q]) && q != c ensures AfterProducers(s, m', q) {
      assert AfterProducers(s, m, q);
    }
  }

  lemma NowDue(s: Thread, m: Machine, c: nat)
    requires InProgram(s, m) && s.core.alu > 0 && Timely(s, m, Total(s)) && (c < |m.ops| ==> Untouched(m.ops[c]))
    ensures Timely(s, m, c)
  {
    hide SlotsFair, Answered, AfterProducers, OpAt;
  }

  lemma RetireTimely(s: Thread, m: Machine, d: Debt)
    requires Keeps(s, m, d, Total(s), Tail(s, m.head)) && m.head < |m.ops| && m.ops[m.head].status == Completed
    requires Timely(s, m, Total(s))
    ensures InProgram(s, RetireHead(s, m)) && Timely(s, RetireHead(s, m), Total(s))
  {
    hide CountersExact, Listed, SentOnce, Exact, PortsOpen, OpAt, Timely, Dispatch;
    var m1 := m.(head := m.head + 1);
    HeadIsUnseen(s, m, m1, Total(s));
    if m.head + 1 < |m.ops| {
      HeadLeaves(s, m, d);
      if m.head + s.core.rob < Total(s) {
        NowDue(s, m1, m.head + s.core.rob);
        DispatchTimely(s, m1, d, m.head + s.core.rob, m.head + s.core.rob);
      }
    }
    var m' := RetireHead(s, m);
    if m'.isDone {
      HeadIsUnseen(s, m'.(isDone := m1.isDone), m', Total(s));
    }
  }

  // An operation completes.
  lemma CompletionTimely(s: Thread, m: Machine, p: nat)
    requires InProgram(s, m) && s.core.alu > 0 && p < |m.ops| && Timely(s, m, Total(s)) && m.ops[p].status == Dispatched
    ensures var m' := m.(ops := m.ops[p := m.ops[p].(status := Completed)]); InProgram(s, m') && Timely(s, m', Total(s))
  {
    var m' := m.(ops := m.ops[p := m.ops[p].(status := Completed)]);
    hide SlotsFair, Answered, Edges, OpAt, Latest;
    SameWork(s, m, m', p);
    SameAnswers(s, m, m');
    forall q | 0 <= q < |m'.ops| && !Untouched(m'.ops[q]) ensures AfterProducers(s, m', q) {
      assert AfterProducers(s, m, q);
    }
  }

  lemma DecrementTimely(s: Thread, m: Machine, p: nat)
    requires InProgram(s, m) && s.core.alu > 0 && p < |m.ops| && Timely(s, m, Total(s)) && m.ops[p].prev > 0
    ensures var m' := m.(ops := m.ops[p := m.ops[p].(prev := m.ops[p].prev - 1)]);
      InProgram(s, m') && Timely(s, m', p) && (m'.ops[p].prev > 0 || m'.ops[p].status == Issued ==> Timely(s, m', Total(s)))
  {
    var m' := m.(ops := m.ops[p := m.ops[p].(prev := m.ops[p].prev - 1)]);
    hide SlotsFair, Answered, Edges, OpAt, Latest;
    SameWork(s, m, m', p);
    SameAnswers(s, m, m');
    forall q | 0 <= q < |m'.ops| && !Untouched(m'.ops[q]) && q != p ensures AfterProducers(s, m', q) {
      assert AfterProducers(s, m, q);
    }
  }

  lemma PassEdgeTimely(s: Thread, m: Machine, d: Debt, child: nat, tail: nat)
    requires Keeps(s, m, d, Total(s), tail) && d.next != [] && d.next[0] >= 1 && child == d.from + d.next[0] < |m.ops|
    requires Timely(s, m, Total(s))
    ensures m.ops[child].prev > 0 && InProgram(s, PassEdge(s, m, child)) && Timely(s, PassEdge(s, m, child), Total(s))
  {
    hide CountersExact, Listed, SentOnce, Zones, Exact, PortsOpen, OpAt, Timely, Dispatch;
    PassedOn(s, m, m, d, child);
    DecrementTimely(s, m, child);
    var m1 := m.(ops := m.ops[child := m.ops[child].(prev := m.ops[child].prev - 1)]);
    PassKeeps(s, m, m1, d, child, tail);
    if m.ops[child].prev == 1 && m.ops[child].status == Pending {
      DispatchTimely(s, m1, Debt(d.from, d.next[1..]), child, tail);
    } else {
      WaitingChild(s, m, child, tail);
    }
  }

  // A consumer that still has a producer to wait for has not started.
  lemma WaitingChild(s: Thread, m: Machine, child: nat, tail: nat)
    requires InProgram(s, m) && Zones(s, m, tail, Total(s)) && child < |m.ops| && m.ops[child].prev > 0
    ensures m.ops[child].status == Issued || m.ops[child].status == Pending
  {
    hide OpAt;
  }

  lemma {:induction false} NotifyTimely(s: Thread, m: Machine, p: nat, next: seq<nat>, tail: nat)
    requires Keeps(s, m, Debt(p, next), Total(s), tail) && Timely(s, m, Total(s))
    requires forall e :: 0 <= e < |next| ==> next[e] >= 1 && p + next[e] < |m.ops|
    ensures var r := Notify(s, m, p, next); r.Ok? && InProgram(s, r.value) && Timely(s, r.value, Total(s))
    decreases |next|
  {
    hide CountersExact, Listed, Zones, SentOnce, PassEdge, PortsOpen, Exact, Timely;
    NotifyKeeps(s, m, p, next, tail);
    if next != [] {
      PassEdgeKeeps(s, m, Debt(p, next), p + next[0], tail);
      PassEdgeTimely(s, m, Debt(p, next), p + next[0], tail);
      NotifyTimely(s, PassEdge(s, m, p + next[0]), p, next[1..], tail);
    }
  }

  lemma VisitTimely(s: Thread, m: Machine, p: nat)
    requires InOrder(s, m) && p < |m.ops| && m.head <= p && EdgesInside(s, p) && Timely(s, m, Total(s))
    ensures var r := Visit(s, m, p); r.Ok? && InProgram(s, r.value) && Timely(s, r.value, Total(s))
  {
    hide CountersExact, Listed, Zones, SentOnce, RetireHead, Notify, PortsOpen, Exact, Timely, OpAt;
    VisitKeeps(s, m, p);
    if m.ops[p].status == Dispatched && 0 < m.ops[p].complete <= m.now {
      var next := OpAt(s, p).next;
      var m1 := m.(ops := m.ops[p := m.ops[p].(status := Completed)]);
      CompletionKeeps(s, m, p, Tail(s, m.head));
      CompletionTimely(s, m, p);
      if p == m.head {
        RetireKeeps(s, m1, Debt(p, next));
        RetireTimely(s, m1, Debt(p, next));
      }
      var m2 := if p == m.head then RetireHead(s, m1) else m1;
      if !m2.isDone {
        EdgesStayInside(s, p);
        NotifyTimely(s, m2, p, next, Tail(s, m2.head));
      }
    } else if m.ops[p].status == Completed && p == m.head {
      RetireTimely(s, m, NO_DEBT);
    }
  }

  lemma {:induction false} SweepTimely(s: Thread, m: Machine, p: nat, n: nat)
    requires InOrder(s, m) && m.head <= p && p + n <= |m.ops| && Timely(s, m, Total(s))
    requires forall q :: 0 <= q < Total(s) ==> EdgesInside(s, q)
    ensures var r := Sweep(s, m, p, n); r.Ok? && InProgram(s, r.value) && Timely(s, r.value, Total(s))
    decreases n
  {
    hide CountersExact, Listed, Zones, SentOnce, Visit, PortsOpen, Exact, EdgesInside, Timely;
    SweepKeeps(s, m, p, n);
    if n > 0 {
      VisitKeeps(s, m, p);
      VisitTimely(s, m, p);
      SweepTimely(s, Visit(s, m, p).value, p + 1, n - 1);
    }
  }

  // ---- Waiting requests ----

  // m' is m but for one request that waited: it has left, or was turned away.
  ghost predicate WaitedTried(s: Thread, m: Machine, m1: Machine, m': Machine, sent: bool, kind: OpType, r: Request) {
    && InProgram(s, m) && s.core.alu > 0 && r.pos < |m.ops| && Tried(s, m, m1, sent, kind, r)
    && 1 <= m.ports.availSt <= s.core.st && (forall i :: 0 <= i < |m.sent| ==> m.sent[i].pos != r.pos)
    && m.ops[r.pos].status == Pending && m.ops[r.pos].prev == 0 && m.ops[r.pos].dispatch == r.dispatch
    && m' == m1.(pendingLd := m'.pendingLd, pendingSt := m'.pendingSt, hasCompleteOp := m'.hasCompleteOp)
  }

  lemma TriedOps(s: Thread, m: Machine, m1: Machine, m': Machine, sent: bool, kind: OpType, r: Request, q: nat)
    requires WaitedTried(s, m, m1, m', sent, kind, r) && Timely(s, m, Total(s)) && q < |m'.ops|
    ensures if Untouched(m'.ops[q]) then m'.ops[q].comp == OpAt(s, q).comp
            else m'.ops[q].comp == 0 && m'.ops[q].dispatch <= Latest(m'.ports.tAlu, m'.now) && AfterProducers(s, m', q)
  {
    hide SlotsFair, Answered, Edges, OpAt, Latest, LeavesIn;
    assert !Untouched(m.ops[q]) ==> AfterProducers(s, m, q);
  }

  // A request that waited leaves, or is turned away.
  lemma TriedTimely(s: Thread, m: Machine, m1: Machine, m': Machine, sent: bool, kind: OpType, r: Request)
    requires WaitedTried(s, m, m1, m', sent, kind, r) && Timely(s, m, Total(s))
    ensures InProgram(s, m') && Timely(s, m', Total(s))
  {
    hide SlotsFair, Answered, OpAt, Latest, AfterProducers, Untouched;
    assert m'.ops == m.ops[r.pos := m'.ops[r.pos]];
    SameWork(s, m, m', r.pos);
    TriedAnswered(s, m, m1, sent, kind, r);
    SameAnswers(s, m1, m');
    forall q | 0 <= q < |m'.ops|
      ensures if Untouched(m'.ops[q]) then m'.ops[q].comp == OpAt(s, q).comp
              else m'.ops[q].comp == 0 && m'.ops[q].dispatch <= Latest(m'.ports.tAlu, m'.now) && AfterProducers(s, m', q)
    {
      TriedOps(s, m, m1, m', sent, kind, r, q);
    }
  }

  lemma StorePortOpen(s: Thread, m: Machine)
    requires PortsOpen(s, m.ports)
    ensures 1 <= m.ports.availSt <= s.core.st
  {
  }

  lemma WaitingRequest(s: Thread, m: Machine, kind: OpType, i: nat)
    requires InProgram(s, m) && Listed(s, m, kind) && i < |Queue(m, kind)|
    ensures var r := Queue(m, kind)[i];
      r.pos < |m.ops| && m.ops[r.pos].status == Pending && m.ops[r.pos].prev == 0 && m.ops[r.pos].dispatch == r.dispatch
  {
    hide OpAt;
  }

  lemma {:induction false} RetryLoadsTimely(s: Thread, m: Machine, i: nat)
    requires InOrder(s, m) && i <= |m.pendingLd| && Timely(s, m, Total(s))
    ensures InProgram(s, RetryLoads(s, m, i)) && Timely(s, RetryLoads(s, m, i), Total(s))
    decreases |m.pendingLd| - i
  {
    hide CountersExact, Listed, Zones, SentOnce, TryLoad, PortsOpen, Exact, Timely, Tried;
    if i < |m.pendingLd| {
      var r := m.pendingLd[i];
      WaitingRequest(s, m, LOAD, i);
      NotSent(s, m, r.pos);
      StorePortOpen(s, m);
      ListsKept(s, m, r);
      LoadShape(s, m, r);
      RetriedLoadKeeps(s, m, i);
      var (m1, sent) := TryLoad(s, m, r);
      var m2 := if sent then m1.(pendingLd := Drop(m1.pendingLd, i), hasCompleteOp := true) else m1;
      TriedTimely(s, m, m1, m2, sent, LOAD, r);
      RetryLoadsTimely(s, m2, if sent then i else i + 1);
    }
  }

  lemma {:induction false} RetryStoresTimely(s: Thread, m: Machine, i: nat)
    requires InOrder(s, m) && i <= |m.pendingSt| && Timely(s, m, Total(s))
    ensures InProgram(s, RetryStores(s, m, i)) && Timely(s, RetryStores(s, m, i), Total(s))
    decreases |m.pendingSt| - i
  {
    hide CountersExact, Listed, Zones, SentOnce, TryStore, PortsOpen, Exact, Timely, Tried;
    if i < |m.pendingSt| {
      var r := m.pendingSt[i];
      WaitingRequest(s, m, STORE, i);
      NotSent(s, m, r.pos);
      StorePortOpen(s, m);
      ListsKept(s, m, r);
      StoreShape(s, m, r);
      RetriedStoreKeeps(s, m, i);
      var (m1, sent) := TryStore(s, m, r);
      var m2 := if sent then m1.(pendingSt := Drop(m1.pendingSt, i), hasCompleteOp := true) else m1;
      TriedTimely(s, m, m1, m2, sent, STORE, r);
      RetryStoresTimely(s, m2, if sent then i else i + 1);
    }
  }

  // ---- Runs ----

  // Time passes.
  lemma TimeTimely(s: Thread, m: Machine, t: nat)
    requires InProgram(s, m) && s.core.alu > 0 && Timely(s, m, Total(s)) && t >= m.now
    ensures InProgram(s, m.(now := t)) && Timely(s, m.(now := t), Total(s))
  {
    var m' := m.(now := t);
    SameAnswers(s, m, m');
    hide Edges, OpAt, Answered;
    forall q | 0 <= q < |m.ops| && !Untouched(m.ops[q]) ensures AfterProducers(s, m', q) {
      assert AfterProducers(s, m, q);
    }
  }

  lemma AdvanceTimely(s: Thread, m: Machine, t: nat)
    requires InOrder(s, m) && t >= m.now && Timely(s, m, Total(s))
    ensures var m' := Advanced(s, m, t).0; InProgram(s, m') && Timely(s, m', Total(s))
  {
    hide CountersExact, Listed, Zones, SentOnce, RetryLoads, RetryStores, Sweep, PortsOpen, Exact, EdgesInside, NextEvent, Timely;
    var out := Advanced(s, m, t).0;
    if !m.isDone {
      TimePasses(s, m, t);
      TimeTimely(s, m, t);
      var m0 := m.(now := t);
      RetryLoadsKeeps(s, m0, 0);
      RetryLoadsTimely(s, m0, 0);
      RetryStoresKeeps(s, RetryLoads(s, m0, 0), 0);
      RetryStoresTimely(s, RetryLoads(s, m0, 0), 0);
      var m1 := RetryStores(s, RetryLoads(s, m0, 0), 0);
      if m1.hasCompleteOp || m1.nextEvent <= m1.now {
        var m2 := m1.(hasCompleteOp := false);
        PortsKeep(s, m1, m2, NO_DEBT, Total(s), Tail(s, m1.head));
        HeadIsUnseen(s, m1, m2, Total(s));
        SweepTimely(s, m2, m2.head, RobLoad(s, m2));
        var m3 := Sweep(s, m2, m2.head, RobLoad(s, m2)).value;
        HeadIsUnseen(s, m3, m3.(nextEvent := NextEvent(m3, m3.head, RobLoad(s, m3), NEVER)), Total(s));
      }
    }
  }

  lemma LoadedTimely(s: Thread, m: Machine, p: nat, complete: nat)
    requires InProgram(s, m) && s.core.alu > 0 && Timely(s, m, Total(s)) && Possible(m, Loaded(p, complete))
    ensures var m' := CompleteOp(m, p, complete); InProgram(s, m') && Timely(s, m', Total(s))
  {
    var m' := CompleteOp(m, p, complete);
    hide SlotsFair, Answered, Edges, OpAt, Latest;
    SameWork(s, m, m', p);
    LoadedAnswered(s, m, p, complete);
    forall q | 0 <= q < |m'.ops| && !Untouched(m'.ops[q]) ensures AfterProducers(s, m', q) {
      assert AfterProducers(s, m, q);
    }
  }

  // Only what was left open is told later.
  lemma LoadedAnswered(s: Thread, m: Machine, p: nat, complete: nat)
    requires Answered(s, m) && Possible(m, Loaded(p, complete))
    ensures Answered(s, CompleteOp(m, p, complete))
  {
    hide KindCount, SlotsGone, Granted;
    var m' := CompleteOp(m, p, complete);
    forall i | 0 <= i < |m'.sent| ensures m'.sent[i].pos < |m'.ops| && Answer(s, m', i) {
      assert Answer(s, m, i);
    }
  }

  lemma {:induction false} NoWorkYet(s: Thread, ops: seq<OpState>, n: nat, t: nat)
    requires |s.prog.ops| > 0 && n <= |ops| && forall p :: 0 <= p < n ==> ops[p].comp == OpAt(s, p).comp
    ensures AllWork(s, ops, n) == 0 && WorkBy(s, ops, n, t) == 0 && WorkFrom(s, ops, n, t) == 0
    decreases n
  {
    hide OpAt;
    if n > 0 {
      NoWorkYet(s, ops, n - 1, t);
    }
  }

  lemma UnstartedTimely(s: Thread)
    requires Runnable(s)
    ensures Timely(s, Unstarted(s), Total(s))
  {
    var m := Unstarted(s);
    assert InProgram(s, m) && s.core.alu > 0;
    hide Exact, OpAt;
    NoWorkYet(s, m.ops, |m.ops|, 0);
    forall t: nat
      ensures WorkBy(s, m.ops, |m.ops|, t) == 0 && WorkFrom(s, m.ops, |m.ops|, t) == 0
    {
      NoWorkYet(s, m.ops, |m.ops|, t);
    }
    forall x: nat | x >= 1 ensures SlotsUsed(s.core, m.ports) < s.core.alu * x {
      MulLe(1, x, s.core.alu);
    }
  }

  lemma FirstUntouched(s: Thread, m: Machine, p: nat)
    requires Keeps(s, m, NO_DEBT, p, p) && p < |m.ops|
    ensures Untouched(m.ops[p])
  {
    hide CountersExact, Listed, SentOnce, Exact, OpAt;
  }

  lemma {:induction false} FilledTimely(s: Thread, n: nat)
    requires Runnable(s) && n <= Total(s)
    ensures Timely(s, Filled(s, n), Total(s))
    decreases n
  {
    hide CountersExact, Listed, SentOnce, Zones, Dispatch, PortsOpen, Exact, Timely, OpAt;
    FilledKeeps(s, n);
    if n == 0 {
      UnstartedTimely(s);
    } else {
      FilledKeeps(s, n - 1);
      FilledTimely(s, n - 1);
      var m := Filled(s, n - 1);
      DueNow(s, m, n - 1);
      FirstUntouched(s, m, n - 1);
      NowDue(s, m, n - 1);
      DispatchTimely(s, m, NO_DEBT, n - 1, n - 1);
      HeadIsUnseen(s, Dispatch(s, m, n - 1), Filled(s, n), Total(s));
    }
  }

  lemma {:induction false} RunTimely(s: Thread, m: Machine, events: seq<Event>)
    requires InOrder(s, m) && Timely(s, m, Total(s))
    ensures var m' := Run(s, m, events).value; InProgram(s, m') && Timely(s, m', Total(s))
    decreases |events|
  {
    hide CountersExact, Listed, Zones, SentOnce, Exact, PortsOpen, Timely, Advance, EdgesInside;
    if events != [] {
      if !Possible(m, events[0]) {
        RunTimely(s, m, events[1..]);
      } else {
        match events[0]
        case AdvanceTo(t) =>
          AdvanceTimely(s, m, t);
          RunTimely(s, Advanced(s, m, t).0, events[1..]);
        case Loaded(p, complete) =>
          CompletionTimeKeeps(s, m, p, complete);
          LoadedTimely(s, m, p, complete);
          RunTimely(s, CompleteOp(m, p, complete), events[1..]);
      }
    }
  }

  // ---- What has left ----

  // Arithmetic slots of all operations that have left by cycle t.
  function LeftWork(s: Thread, sent: seq<Sent>, t: nat): nat
    requires |s.prog.ops| > 0
  {
    if sent == [] then 0
    else
      LeftWork(s, sent[..|sent| - 1], t)
      + if sent[|sent| - 1].time <= t then OpAt(s, sent[|sent| - 1].pos).comp else 0
  }

  // How often operation p has left by cycle t, and the same slots, position by position.
  function LeftCount(sent: seq<Sent>, p: nat, t: nat): nat {
    if sent == [] then 0
    else LeftCount(sent[..|sent| - 1], p, t) + if sent[|sent| - 1].pos == p && sent[|sent| - 1].time <= t then 1 else 0
  }

  function LeftByPosition(s: Thread, sent: seq<Sent>, n: nat, t: nat): nat
    requires |s.prog.ops| > 0
  {
    if n == 0 then 0 else LeftByPosition(s, sent, n - 1, t) + LeftCount(sent, n - 1, t) * OpAt(s, n - 1).comp
  }

  lemma {:induction false} LeftSums(s: Thread, sent: seq<Sent>, n: nat, t: nat)
    requires |s.prog.ops| > 0 && forall i :: 0 <= i < |sent| ==> sent[i].pos < n
    ensures LeftByPosition(s, sent, n, t) == LeftWork(s, sent, t)
    decreases |sent|
  {
    if sent == [] {
      NothingLeft(s, n, t);
    } else {
      LeftSums(s, sent[..|sent| - 1], n, t);
      OneMoreLeft(s, sent, n, t);
    }
  }

  lemma {:induction false} NothingLeft(s: Thread, n: nat, t: nat)
    requires |s.prog.ops| > 0
    ensures LeftByPosition(s, [], n, t) == 0
  {
    if n > 0 {
      NothingLeft(s, n - 1, t);
    }
  }

  lemma {:induction false} OneMoreLeft(s: Thread, sent: seq<Sent>, n: nat, t: nat)
    requires |s.prog.ops| > 0 && sent != []
    ensures var x := sent[|sent| - 1];
      LeftByPosition(s, sent, n, t) == LeftByPosition(s, sent[..|sent| - 1], n, t)
        + if x.pos < n && x.time <= t then OpAt(s, x.pos).comp else 0
    decreases n
  {
    hide OpAt;
    if n > 0 {
      OneMoreLeft(s, sent, n - 1, t);
      var x, k := sent[|sent| - 1], LeftCount(sent[..|sent| - 1], n - 1, t);
      if x.pos == n - 1 && x.time <= t {
        assert (k + 1) * OpAt(s, n - 1).comp == k * OpAt(s, n - 1).comp + OpAt(s, n - 1).comp;
      }
    }
  }

  lemma {:induction false} LeftAtMostSent(sent: seq<Sent>, p: nat, t: nat)
    ensures LeftCount(sent, p, t) <= SentCount(sent, p)
    ensures LeftCount(sent, p, t) > 0 ==> exists i :: 0 <= i < |sent| && sent[i].pos == p && sent[i].time <= t
    decreases |sent|
  {
    if sent != [] {
      LeftAtMostSent(sent[..|sent| - 1], p, t);
      if LeftCount(sent[..|sent| - 1], p, t) > 0 {
        var i :| 0 <= i < |sent| - 1 && sent[..|sent| - 1][i].pos == p && sent[..|sent| - 1][i].time <= t;
        assert sent[i].pos == p;
      }
    }
  }

  // Who has left by cycle t was ready by then.
  lemma {:induction false} LeftIsReady(s: Thread, m: Machine, n: nat, t: nat)
    requires InOrder(s, m) && Timely(s, m, Total(s)) && PortsFair(s, m) && n <= |m.ops|
    ensures LeftByPosition(s, m.sent, n, t) <= WorkBy(s, m.ops, n, t)
    decreases n
  {
    if n > 0 {
      LeftIsReady(s, m, n - 1, t);
      OneLeft(s, m, n - 1, t);
    }
  }

  lemma LeftOnce(s: Thread, m: Machine, p: nat, t: nat)
    requires InOrder(s, m) && Timely(s, m, Total(s)) && PortsFair(s, m) && p < |m.ops|
    ensures LeftCount(m.sent, p, t) <= 1
    ensures LeftCount(m.sent, p, t) > 0 ==> m.ops[p].dispatch <= t && m.ops[p].comp == 0
  {
    hide CountersExact, Listed, Exact, PortsOpen, OpAt, AfterProducers, SlotsFair, PortFair, Answered, LeftCount;
    LeftAtMostSent(m.sent, p, t);
    if LeftCount(m.sent, p, t) > 0 {
      var i :| 0 <= i < |m.sent| && m.sent[i].pos == p && m.sent[i].time <= t;
      assert Started(m.ops[p]);
    }
  }

  lemma OneLeft(s: Thread, m: Machine, p: nat, t: nat)
    requires InOrder(s, m) && Timely(s, m, Total(s)) && PortsFair(s, m) && p < |m.ops|
    ensures LeftCount(m.sent, p, t) * OpAt(s, p).comp <= if m.ops[p].dispatch <= t then Work(s, m.ops[p], p) else 0
  {
    LeftOnce(s, m, p, t);
    WorkIsMade(s, m, p);
    hide InOrder, Timely, PortsFair, OpAt, LeftCount;
    var k := LeftCount(m.sent, p, t);
    assert k == 0 || k == 1;
  }

  lemma WorkIsMade(s: Thread, m: Machine, p: nat)
    requires InProgram(s, m) && s.core.alu > 0 && Timely(s, m, Total(s)) && p < |m.ops|
    ensures 0 <= Work(s, m.ops[p], p)
  {
    hide OpAt, SlotsFair, Answered, AfterProducers;
  }

  // What has left by cycle t needs no more arithmetic slots than there were until then.
  ghost predicate WithinSlots(s: Thread, m: Machine)
    requires InProgram(s, m)
  {
    forall t: nat :: LeftWork(s, m.sent, t) <= s.core.alu * t
  }

  // An operation leaves only after all its producers and its own arithmetic.
  ghost predicate AfterArithmetic(s: Thread, m: Machine)
    requires InProgram(s, m) && s.core.alu > 0
  {
    forall i, p :: 0 <= i < |m.sent| && 0 <= p < |m.ops| && Edges(s, p, m.sent[i].pos) > 0 ==>
      && m.ops[p].status == Completed
      && m.ops[p].complete + OpAt(s, m.sent[i].pos).comp / s.core.alu <= m.sent[i].ready <= m.sent[i].time
  }

  // No operation is ready later than it must be: from any coming cycle x on, all slots
  // before its ready time are taken by operations that are ready in cycle x or later.
  ghost predicate NoneLate(s: Thread, m: Machine)
    requires InProgram(s, m)
  {
    forall q, x: nat :: 0 <= q < |m.ops| && !Untouched(m.ops[q]) && x >= m.now && x >= 1 ==>
      s.core.alu * (m.ops[q].dispatch - 1) < s.core.alu * x + WorkFrom(s, m.ops, |m.ops|, x)
  }

  // What has been computed is ready by the port's cycle or has been all along, and the
  // port has not moved beyond the work that is ready from any coming cycle on.
  lemma NotLater(s: Thread, m: Machine, q: nat, x: nat)
    requires InProgram(s, m) && PortsOpen(s, m.ports) && s.core.alu > 0 && Timely(s, m, Total(s))
    requires q < |m.ops| && !Untouched(m.ops[q]) && x >= m.now && x >= 1
    ensures s.core.alu * (m.ops[q].dispatch - 1) < s.core.alu * x + WorkFrom(s, m.ops, |m.ops|, x)
  {
    hide OpAt, AfterProducers, AllWork, WorkBy, WorkFrom;
    WorkBounds(s, m.ops, |m.ops|, x);
    LateSlots(s.core.alu, m.ports.tAlu, m.ports.availAlu, m.ops[q].dispatch, x, WorkFrom(s, m.ops, |m.ops|, x));
  }

  lemma LateSlots(alu: nat, tAlu: nat, avail: nat, r: nat, x: nat, from: nat)
    requires avail <= alu && alu > 0 && (r <= x || r <= tAlu) && tAlu * alu - avail < alu * x + from
    ensures alu * (r - 1) < alu * x + from
  {
    MulLe(r, if r <= x then x else tAlu, alu);
    assert alu * (r - 1) == r * alu - alu;
  }

  lemma NoneIsLate(s: Thread, m: Machine)
    requires InProgram(s, m) && PortsOpen(s, m.ports) && s.core.alu > 0 && Timely(s, m, Total(s))
    ensures NoneLate(s, m)
  {
    hide OpAt, Timely, WorkFrom, Untouched, PortsOpen;
    forall q, x: nat | 0 <= q < |m.ops| && !Untouched(m.ops[q]) && x >= m.now && x >= 1
      ensures s.core.alu * (m.ops[q].dispatch - 1) < s.core.alu * x + WorkFrom(s, m.ops, |m.ops|, x)
    {
      NotLater(s, m, q, x);
    }
  }

  lemma LeftAreMade(s: Thread, m: Machine)
    requires InOrder(s, m) && Timely(s, m, Total(s)) && PortsFair(s, m)
    ensures WithinSlots(s, m)
  {
    hide CountersExact, Listed, Zones, Exact, PortsOpen, OpAt, AfterProducers, PortsFair, LeftWork, WorkBy, AllWork, WorkFrom;
    forall t: nat ensures LeftWork(s, m.sent, t) <= s.core.alu * t {
      LeftSums(s, m.sent, |m.ops|, t);
      LeftIsReady(s, m, |m.ops|, t);
    }
  }

  lemma LeftAfterProducers(s: Thread, m: Machine)
    requires InOrder(s, m) && Timely(s, m, Total(s)) && PortsFair(s, m)
    ensures AfterArithmetic(s, m)
  {
    hide CountersExact, Listed, Exact, OpAt, SlotsFair, PortFair, Edges, Zones;
    forall i, p | 0 <= i < |m.sent| && 0 <= p < |m.ops| && Edges(s, p, m.sent[i].pos) > 0
      ensures m.ops[p].status == Completed
      ensures m.ops[p].complete + OpAt(s, m.sent[i].pos).comp / s.core.alu <= m.sent[i].ready <= m.sent[i].time
    {
      var q := m.sent[i].pos;
      SentIsCounted(m.sent, i);
      assert Started(m.ops[q]);
      StartedUntouched(s, m, q);
      assert AfterProducers(s, m, q);
    }
  }

  lemma RunIsTimely(s: Thread, events: seq<Event>)
    requires Runnable(s)
    ensures var m := RunThread(s, events).value; InOrder(s, m) && PortsFair(s, m) && Timely(s, m, Total(s))
  {
    hide Run, Timely, PortsFair, CountersExact, Listed, Zones, SentOnce, Exact, Filled;
    var n := Least(s.core.rob, Total(s));
    StartIsInOrder(s);
    FilledFair(s, n);
    RunIsFair(s, Start(s), events);
    FilledTimely(s, n);
    HeadIsUnseen(s, Filled(s, n), Start(s), Total(s));
    RunTimely(s, Start(s), events);
  }

  // In every run, no slot is used twice, no operation leaves before its own arithmetic is
  // done, and none is ready later than it must be.
  lemma EveryRunUsesTheAlu(s: Thread, events: seq<Event>)
    requires Runnable(s)
    ensures var m := RunThread(s, events).value;
      InProgram(s, m) && WithinSlots(s, m) && AfterArithmetic(s, m) && NoneLate(s, m)
  {
    hide RunThread, WithinSlots, AfterArithmetic, NoneLate, Timely, PortsFair, CountersExact, Listed, Zones, SentOnce, Exact;
    var m := RunThread(s, events).value;
    RunIsTimely(s, events);
    LeftAreMade(s, m);
    LeftAfterProducers(s, m);
    NoneIsLate(s, m);
  }

  // In every run, a load leaves exactly for every question that the cache answers with a free
  // line-fill buffer, and every request completes when its port or the cache says.
  lemma EveryRequestIsAnswered(s: Thread, events: seq<Event>)
    requires Runnable(s)
    ensures var m := RunThread(s, events).value;
      && KindCount(m.sent, LOAD) == Granted(s, m.asked)
      && forall i :: 0 <= i < |m.sent| ==> m.sent[i].pos < |m.ops| && Answer(s, m, i)
  {
    hide RunThread, Timely, PortsFair, InOrder, Answer, KindCount, Granted;
    var m := RunThread(s, events).value;
    RunIsTimely(s, events);
    AnsweredInOrder(s, m);
  }

  lemma AnsweredInOrder(s: Thread, m: Machine)
    requires InOrder(s, m) && Timely(s, m, Total(s))
    ensures KindCount(m.sent, LOAD) == Granted(s, m.asked)
    ensures forall i :: 0 <= i < |m.sent| ==> m.sent[i].pos < |m.ops| && Answer(s, m, i)
  {
    hide Answer, KindCount, Granted, SlotsFair;
  }

  // What has started has been computed.
  lemma StartedUntouched(s: Thread, m: Machine, q: nat)
    requires InOrder(s, m) && q < |m.ops| && Started(m.ops[q])
    ensures !Untouched(m.ops[q])
  {
    hide CountersExact, Listed, SentOnce, Exact, OpAt;
  }
}
