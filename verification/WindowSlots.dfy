// Slots of the circular instruction window: which position of the program a slot stands
// for, and what it must hold.
module WindowSlots {
  import opened Bits
  import opened Counting
  import opened ExecGraph
  import opened Programs
  import opened ExecBlocks
  import opened WindowFetch
  import opened ProgramOrder
  import opened OrderSafety

  datatype Op = Op(
    status: Status, pos: nat, prev: nat, kind: OpType, comp: nat, addr: nat, dispatch: nat, complete: nat,
    next: seq<nat>)

  // A request that waits for its port, by slot.
  datatype Req = Req(addr: nat, dispatch: nat, pos: nat)

  // A request as the first-level cache receives it.
  datatype Access = Access(kind: OpType, addr: nat, time: nat)

  // ---- Slots ----

  // Two positions less than a window apart have different slots.
  lemma SlotsDistinct(p: nat, q: nat, size: nat)
    requires size > 0 && p < q < p + size
    ensures p % size != q % size
  {
    Apart(p / size, q / size, p % size, q % size, size);
  }

  lemma Apart(a: nat, b: nat, i: nat, j: nat, size: nat)
    requires a * size + i < b * size + j < a * size + i + size
    ensures i != j
  {
    if a < b {
      MulLe(a + 1, b, size);
      assert (a + 1) * size == a * size + size;
    } else {
      MulLe(b, a, size);
    }
  }

  // A slot tells the place in the global step.
  lemma SlotKeepsPlace(p: nat, size: nat, w: nat)
    requires w > 0 && size > 0 && size % w == 0
    ensures p % size % w == p % w
  {
    var a, b, r := p / size, size / w, p % size;
    var c, d := r / w, r % w;
    Nested(p, size, w, a, b, r, c, d);
    DivUnique(p, w, a * b + c, d);
  }

  lemma Nested(p: nat, size: nat, w: nat, a: nat, b: nat, r: nat, c: nat, d: nat)
    requires p == a * size + r && size == b * w && r == c * w + d
    ensures p == (a * b + c) * w + d
  {
    assert a * (b * w) == (a * b) * w;
    assert (a * b + c) * w == (a * b) * w + c * w;
  }

  // Stepping a slot forward and wrapping.
  lemma SlotAfter(p: nat, d: nat, size: nat)
    requires size > 0
    ensures (p % size + d) % size == (p + d) % size
  {
    var a, b := p / size, (p % size + d) / size;
    assert p == a * size + p % size;
    assert p % size + d == b * size + (p % size + d) % size;
    assert (a + b) * size == a * size + b * size;
    DivUnique(p + d, size, a + b, (p % size + d) % size);
  }

  // The slot that holds position p in state op.
  function SlotOf(s: Thread, addr: nat -> nat, size: nat, p: nat, op: OpState): Op
    requires size > 0 && |s.prog.ops| > 0
  {
    Op(op.status, p % size, op.prev, OpAt(s, p).kind, op.comp, addr(p), op.dispatch, op.complete, OpAt(s, p).next)
  }

  // Positions head .. fetched - 1 are in their slots.
  ghost predicate Slots(s: Thread, addr: nat -> nat, ops: seq<OpState>, window: seq<Op>, head: nat, fetched: nat) {
    && |s.prog.ops| > 0 && |window| > 0 && head <= fetched <= |ops| && fetched <= head + |window|
    && forall p :: head <= p < fetched ==> window[p % |window|] == SlotOf(s, addr, |window|, p, ops[p])
  }

  // A slot holds the edges of its place in the global step, whatever operation it has.
  predicate SlotFits(s: Thread, window: seq<Op>, slot: nat)
    requires slot < |window| && |s.prog.ops| > 0
  {
    window[slot].pos == slot && window[slot].next == s.prog.ops[slot % |s.prog.ops|].next
  }

  ghost predicate AllFit(s: Thread, window: seq<Op>) {
    |s.prog.ops| > 0 && forall slot :: 0 <= slot < |window| ==> SlotFits(s, window, slot)
  }

  lemma SlotChanges(s: Thread, addr: nat -> nat, ops: seq<OpState>, window: seq<Op>, head: nat, fetched: nat,
                    p: nat, op: OpState)
    requires Slots(s, addr, ops, window, head, fetched) && head <= p < fetched
    ensures Slots(s, addr, ops[p := op], window[p % |window| := SlotOf(s, addr, |window|, p, op)], head, fetched)
  {
    var ops', window' := ops[p := op], window[p % |window| := SlotOf(s, addr, |window|, p, op)];
    forall q | head <= q < fetched ensures window'[q % |window|] == SlotOf(s, addr, |window|, q, ops'[q]) {
      if q < p {
        SlotsDistinct(q, p, |window|);
      } else if p < q {
        SlotsDistinct(p, q, |window|);
      }
    }
  }

  lemma SlotStaysFit(s: Thread, addr: nat -> nat, window: seq<Op>, p: nat, op: OpState)
    requires |window| > 0 && AllFit(s, window) && |window| % |s.prog.ops| == 0
    ensures AllFit(s, window[p % |window| := SlotOf(s, addr, |window|, p, op)])
  {
    SlotKeepsPlace(p, |window|, |s.prog.ops|);
    var window' := window[p % |window| := SlotOf(s, addr, |window|, p, op)];
    forall slot | 0 <= slot < |window'| ensures SlotFits(s, window', slot) {
      assert SlotFits(s, window, slot);
    }
  }

  // Writing the next position of the program into its slot.
  lemma SlotFilled(s: Thread, addr: nat -> nat, ops: seq<OpState>, window: seq<Op>, head: nat, fetched: nat)
    requires Slots(s, addr, ops, window, head, fetched) && fetched < |ops| && fetched < head + |window|
    requires |window| % |s.prog.ops| == 0
    ensures var slot := fetched % |window|;
      var window' := window[slot := SlotOf(s, addr, |window|, fetched, ops[fetched])];
      Slots(s, addr, ops, window', head, fetched + 1) && SlotFits(s, window', slot)
  {
    var slot := fetched % |window|;
    var window' := window[slot := SlotOf(s, addr, |window|, fetched, ops[fetched])];
    forall q | head <= q < fetched + 1 ensures window'[q % |window|] == SlotOf(s, addr, |window|, q, ops[q]) {
      if q < fetched {
        SlotsDistinct(q, fetched, |window|);
      }
    }
    SlotKeepsPlace(fetched, |window|, |s.prog.ops|);
  }

  // ---- Lists and requests ----

  // A list of waiting requests, by slot and by position.
  ghost predicate ListShows(addr: nat -> nat, list: seq<Req>, requests: seq<Request>, size: nat, head: nat, fetched: nat)
    requires size > 0
  {
    && |list| == |requests|
    && forall i :: 0 <= i < |list| ==>
         && head <= requests[i].pos < fetched
         && list[i] == Req(addr(requests[i].pos), requests[i].dispatch, requests[i].pos % size)
  }

  ghost predicate LogShows(addr: nat -> nat, accesses: seq<Access>, sent: seq<Sent>) {
    && |accesses| == |sent|
    && forall i :: 0 <= i < |sent| ==> accesses[i] == Access(sent[i].kind, addr(sent[i].pos), sent[i].time)
  }

  lemma LogGrows(addr: nat -> nat, accesses: seq<Access>, sent: seq<Sent>, x: Sent)
    requires LogShows(addr, accesses, sent)
    ensures LogShows(addr, accesses + [Access(x.kind, addr(x.pos), x.time)], sent + [x])
  {
  }

  lemma ListGrows(addr: nat -> nat, list: seq<Req>, requests: seq<Request>, size: nat, head: nat, fetched: nat,
                  p: nat, dispatch: nat)
    requires size > 0 && ListShows(addr, list, requests, size, head, fetched) && head <= p < fetched
    ensures ListShows(addr, list + [Req(addr(p), dispatch, p % size)], requests + [Request(p, dispatch)],
                      size, head, fetched)
  {
  }

  // The step of a node, counted from the start of the program.
  function LocalStep(globalStep: nat, groupSteps: nat, step: nat): nat {
    globalStep * groupSteps + step
  }

  // The address that position p of the whole program touches.
  ghost function AddressAt(g: Graph, genAddr: (nat, nat) -> seq<nat>, first: nat, p: nat): nat {
    if Grouped(g) && |Walk(g)| > 0 then
      var x := Walk(g)[p % |Walk(g)|];
      var list := genAddr(x.node, LocalStep(first + p / |Walk(g)|, Steps(g, x.node), x.step));
      if x.index < |list| then list[x.index] else 0
    else 0
  }

  // Position p of the program, the operation x of global step `first + step`.
  lemma PlacedOp(g: Graph, genAddr: (nat, nat) -> seq<nat>, first: nat, s: Thread, step: nat, x: Inst, p: nat,
                 list: seq<nat>)
    requires Grouped(g) && Linked(g) && IsInst(g, x) && s.prog == ProgramOf(g) && |s.prog.ops| > 0
    requires p == step * |s.prog.ops| + At(g, x)
    requires list == genAddr(x.node, LocalStep(first + step, Steps(g, x.node), x.step)) && x.index < |list|
    ensures OpAt(s, p) == OpOf(g, x) && AddressAt(g, genAddr, first, p) == list[x.index]
  {
    hide Walk, At, Linked, Steps, OpOf;
    WalkHas(g, x);
    PlaceInStep(step, |s.prog.ops|, At(g, x));
  }

  const EMPTY_OP := Op(Issued, 0, 0, LOAD, 0, 0, 0, 0, [])

  lemma MultipleOf(n: nat, w: nat)
    requires w > 0
    ensures n * w % w == 0
  {
    DivUnique(n * w, w, n, 0);
  }

  // How many global steps the window is sized for.
  function StepsFor(rob: nat, w: nat, maxSteps: nat): nat
    requires w > 0
  {
    var n := rob * 4 / w;
    Least(if n < 2 then 2 else n, maxSteps)
  }

  // Unless it holds the whole program, the window has room for a refill while its
  // reorder window is full.
  lemma WindowIsLarge(rob: nat, w: nat, maxSteps: nat)
    requires w >= 1
    ensures StepsFor(rob, w, maxSteps) == maxSteps || StepsFor(rob, w, maxSteps) * w >= rob + w
  {
    var n := rob * 4 / w;
    assert rob * 4 == n * w + rob * 4 % w;
    if n < 2 {
      MulLe(n, 1, w);
    } else {
      MulLe(2, n, w);
    }
  }

  // A slot of the first window holds the operation of its own number.
  lemma FilledSlotFits(s: Thread, addr: nat -> nat, ops: seq<OpState>, window: seq<Op>, slot: nat)
    requires Slots(s, addr, ops, window, 0, |window|) && slot < |window|
    ensures SlotFits(s, window, slot)
  {
    DivUnique(slot, |window|, 0, slot);
    assert window[slot % |window|] == SlotOf(s, addr, |window|, slot, ops[slot]);
  }

  // The ports after one load has left.
  function LdUsed(core: Core, p: Ports): Ports {
    if p.availLd <= 1 then p.(availLd := core.ld, tLd := p.tLd + 1) else p.(availLd := p.availLd - 1)
  }

  function StUsed(core: Core, p: Ports): Ports {
    if p.availSt <= 1 then p.(availSt := core.st, tSt := p.tSt + 1) else p.(availSt := p.availSt - 1)
  }

  lemma LdUsedIs(s: Thread, m: Machine, r: Request)
    requires Able(s, m) && r.pos < |m.ops|
    ensures SendLoad(s, m, r) ==
      m.(ports := LdUsed(s.core, m.ports), loads := m.loads + 1, sent := m.sent + [Sent(LOAD, r.pos, r.dispatch, m.ports.tLd)],
         ops := m.ops[r.pos := m.ops[r.pos].(status := Dispatched, complete := s.l1.loadTime(m.loads, m.ports.tLd))])
  {
  }

  lemma StUsedIs(s: Thread, m: Machine, r: Request)
    requires Able(s, m) && r.pos < |m.ops|
    ensures SendStore(s, m, r) ==
      m.(ports := StUsed(s.core, m.ports), sent := m.sent + [Sent(STORE, r.pos, r.dispatch, m.ports.tSt)],
         ops := m.ops[r.pos := m.ops[r.pos].(status := Dispatched, complete := StUsed(s.core, m.ports).tSt)])
  {
  }

  // ---- Steps of the window ----

  lemma BelowStep(a: nat, r: nat, steps: nat, w: nat, d: nat)
    requires a * w + r < steps * w && r + d < w
    ensures a * w + r + d < steps * w
  {
    if a < steps {
      MulLe(a + 1, steps, w);
      assert (a + 1) * w == a * w + w;
    } else {
      MulLe(steps, a, w);
    }
  }

  lemma SameStepBelow(p: nat, w: nat, steps: nat, d: nat)
    requires w > 0 && p < steps * w && p % w + d < w
    ensures p + d < steps * w
  {
    assert p == p / w * w + p % w;
    BelowStep(p / w, p % w, steps, w, d);
  }

  function Wrap(pos: nat, size: nat): nat
    requires size > 0
  {
    pos % size
  }

  lemma TailSlot(head: nat, load: nat, size: nat)
    requires size > 0
    ensures (head % size + load) % size == (head + load) % size
    ensures (head % size + load) % size % size == (head + load) % size
  {
    SlotAfter(head, load, size);
    var r := (head + load) % size;
    DivUnique(r, size, 0, r);
  }

  lemma NextSlot(head: nat, size: nat)
    requires size > 0
    ensures (if head % size + 1 == size then 0 else head % size + 1) == (head + 1) % size
  {
    SlotAfter(head, 1, size);
    WrapOnce(head % size + 1, size);
  }

  lemma WrapOnce(pos: nat, size: nat)
    requires 0 < pos <= size
    ensures pos % size == if pos == size then 0 else pos
  {
    if pos == size {
      DivUnique(pos, size, 1, 0);
    } else {
      DivUnique(pos, size, 0, pos);
    }
  }

  // A position on no list can leave the window.
  lemma HeadOffList(addr: nat -> nat, list: seq<Req>, requests: seq<Request>, size: nat, head: nat, fetched: nat)
    requires size > 0 && ListShows(addr, list, requests, size, head, fetched) && !Waits(requests, head)
    ensures ListShows(addr, list, requests, size, head + 1, fetched)
  {
  }

  // Where step k of a group begins in the global step.
  function StepBegin(g: Graph, group: nat, k: nat): nat
    requires Grouped(g) && group < |g.groups|
  {
    Base(g, group) + k * NumOps(g, group)
  }

  lemma GroupBounds(g: Graph, group: nat)
    requires Grouped(g) && group < |g.groups|
    ensures g.groups[group].stNode <= g.groups[group].endNode < |g.nodes| && g.groups[group].groupSteps >= 1
  {
  }

  lemma NoNodesYet(g: Graph, n: nat)
    requires n <= |g.nodes|
    ensures RangeOps(g, n, n) == 0
  {
  }

  lemma NodeBegins(g: Graph, group: nat, k: nat, n: nat)
    requires Grouped(g) && group < |g.groups| && g.groups[group].stNode <= n <= g.groups[group].endNode
    ensures n < |g.nodes| && Steps(g, n) == g.groups[group].groupSteps
    ensures Begin(g, n, k) == StepBegin(g, group, k) + RangeOps(g, g.groups[group].stNode, n)
    ensures RangeOps(g, g.groups[group].stNode, n + 1) == RangeOps(g, g.groups[group].stNode, n) + g.nodes[n].opsStep
  {
    hide Base;
    InGroup(g, group, n);
  }

  lemma StepEnds(g: Graph, group: nat, k: nat)
    requires Grouped(g) && group < |g.groups|
    ensures StepBegin(g, group, k + 1)
         == StepBegin(g, group, k) + RangeOps(g, g.groups[group].stNode, g.groups[group].endNode + 1)
  {
    hide Base, RangeOps;
    assert (k + 1) * NumOps(g, group) == k * NumOps(g, group) + NumOps(g, group);
  }

  // A step follows the one before; a group's first step follows the previous group's
  // last; after the last group the walk is complete.
  lemma NextStepBegins(g: Graph, group: nat, k: nat)
    requires Grouped(g) && group < |g.groups|
    ensures k == g.groups[group].groupSteps && group + 1 < |g.groups| ==>
      StepBegin(g, group + 1, 0) == StepBegin(g, group, k) && g.groups[group + 1].groupSteps >= 1
    ensures k == g.groups[group].groupSteps && group + 1 == |g.groups| ==> StepBegin(g, group, k) == |Walk(g)|
  {
    hide RangeOps, NumOps, Walk;
    WalkAt2(g);
    assert Base(g, group + 1) == Base(g, group) + g.groups[group].groupSteps * NumOps(g, group);
  }

  lemma WindowIsWalk(g: Graph)
    requires Grouped(g) && |Walk(g)| >= 1
    ensures |g.groups| >= 1 && g.groups[0].groupSteps >= 1 && StepBegin(g, 0, 0) == 0
  {
    WalkAt2(g);
  }

  // The slot after p - 1, wrapped, is the slot of p; one further is the slot of p + 1.
  lemma WrapsToSlot(pos: nat, p: nat, size: nat)
    requires 0 < size && pos <= size && pos % size == p % size
    ensures var slot := if pos >= size then 0 else pos;
      slot == p % size && slot < size && (slot + 1) % size == (p + 1) % size
  {
    if pos == size {
      DivUnique(size, size, 1, 0);
    } else {
      DivUnique(pos, size, 0, pos);
    }
    SlotAfter(p, 1, size);
  }

  lemma PlaceInStep(step: nat, w: nat, q: nat)
    requires q < w
    ensures (step * w + q) / w == step && (step * w + q) % w == q
  {
    DivUnique(step * w + q, w, step, q);
  }
}
