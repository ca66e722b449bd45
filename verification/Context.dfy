// A core's context: the circular instruction window, refilled in whole global steps,
// shows a stretch of the program-order machine at every moment.
module Contexts {
  import opened Bits
  import opened Counting
  import opened ExecGraph
  import opened Programs
  import opened ExecBlocks
  import opened WindowFetch
  import opened ProgramOrder
  import opened OrderSafety
  import opened OrderRuns
  import opened OrderSteps
  import opened WindowSlots
  import opened Sequences

  class Context {
    const g: Graph
    const genAddr: (nat, nat) -> seq<nat>
    const core: Core
    const l1: Cache
    const firstStep: nat
    const globalControlMax: nat
    const watermark: nat
    // The address that each position of the program touches.
    ghost const addr: nat -> nat
    var fetchedGlobalStep: nat
    var window: seq<Op>
    var ibDepth: nat
    var winHead: nat
    var winLoad: nat
    var timeNextEvent: nat
    var tCpu: nat
    var tAlu: nat
    var tLd: nat
    var tSt: nat
    var availAlu: nat
    var availLd: nat
    var availSt: nat
    var hasCompleteOp: bool
    var isDone: bool
    var pendingLdList: seq<Req>
    var pendingStList: seq<Req>
    // What the first-level cache has been asked, and how often it has answered.
    var accesses: seq<Access>
    var asked: nat
    var loads: nat

    // s has the core and the size of the thread that runs here.
    ghost predicate Fits(s: Thread) {
      && s.core == core && s.l1 == l1 && firstStep < globalControlMax && s.steps == globalControlMax - firstStep
      && |s.prog.ops| == watermark >= 1 && core.rob >= 1
    }

    // The block is laid out and s is the thread that runs it.
    ghost predicate Runs(s: Thread) {
      && (forall p: nat :: addr(p) == AddressAt(g, genAddr, firstStep, p))
      && Grouped(g) && Linked(g) && IsLaidOut(g, genAddr)
      && (forall n: nat, k: nat :: |genAddr(n, k)| == |genAddr(n, 0)|)
      && firstStep < globalControlMax && watermark == |Walk(g)|
      && s == Thread(ProgramOf(g), globalControlMax - firstStep, core, l1) && Runnable(s)
    }

    // Operations fetched so far.
    function Fetched(): nat
      requires fetchedGlobalStep >= firstStep
      reads `fetchedGlobalStep
    {
      (fetchedGlobalStep - firstStep) * watermark
    }

    ghost predicate PortsShow(m: Machine)
      reads `tCpu, `tAlu, `availAlu, `tLd, `availLd, `tSt, `availSt, `asked, `loads, `hasCompleteOp, `isDone,
        `timeNextEvent
    {
      && m.now == tCpu && m.ports == Ports(tAlu, availAlu, tLd, availLd, tSt, availSt)
      && m.asked == asked && m.loads == loads
      && m.hasCompleteOp == hasCompleteOp && m.isDone == isDone && m.nextEvent == timeNextEvent
    }

    ghost predicate WindowShows(s: Thread, head: nat, ops: seq<OpState>)
      reads `window, `ibDepth, `winHead, `winLoad, `fetchedGlobalStep
    {
      && |s.prog.ops| > 0 && |ops| == Total(s) && watermark == |s.prog.ops|
      && ibDepth > 0 && |window| == ibDepth && ibDepth % watermark == 0
      && firstStep <= fetchedGlobalStep <= globalControlMax && s.steps == globalControlMax - firstStep
      && head <= Fetched() && winLoad == Fetched() - head && winHead == head % ibDepth
      && Slots(s, addr, ops, window, head, Fetched()) && AllFit(s, window)
      && forall p :: Fetched() <= p < |ops| ==> ops[p] == FreshOp(s, p)
    }

    // The reorder window is full, or everything has been fetched.
    ghost predicate Full(s: Thread)
      reads `winLoad, `ibDepth, `fetchedGlobalStep
    {
      && (winLoad >= core.rob || fetchedGlobalStep == globalControlMax)
      && (ibDepth >= core.rob + watermark || fetchedGlobalStep == globalControlMax)
    }

    ghost predicate ListsShow(ld: seq<Request>, st: seq<Request>, head: nat)
      reads `pendingLdList, `pendingStList, `ibDepth, `fetchedGlobalStep
    {
      && ibDepth > 0 && fetchedGlobalStep >= firstStep
      && ListShows(addr, pendingLdList, ld, ibDepth, head, Fetched())
      && ListShows(addr, pendingStList, st, ibDepth, head, Fetched())
    }

    // The context is in state m of the program-order machine.
    ghost predicate Shows(s: Thread, m: Machine)
      reads this
    {
      && Fits(s) && PortsShow(m) && WindowShows(s, m.head, m.ops) && ListsShow(m.pendingLd, m.pendingSt, m.head)
      && LogShows(addr, accesses, m.sent)
    }

    // Position p of the program is in the window.
    ghost predicate Holds(m: Machine, p: nat)
      reads `fetchedGlobalStep
    {
      fetchedGlobalStep >= firstStep && m.head <= p < Fetched()
    }

    lemma ThreadIs(s: Thread)
      requires Runs(s)
      ensures Fits(s) && Exact(s.prog)
    {
      hide Walk, IsLaidOut;
    }

    // ---- Dispatch ----

    // Change the operation in a slot.
    method SetOp(pos: nat, op: Op, ghost p: nat, ghost state: OpState, ghost s: Thread, ghost m: Machine)
      requires WindowShows(s, m.head, m.ops) && Holds(m, p) && pos == p % ibDepth
      requires op == SlotOf(s, addr, ibDepth, p, state)
      modifies `window
      ensures p < |m.ops| && WindowShows(s, m.head, m.ops[p := state])
    {
      hide OpAt;
      SlotChanges(s, addr, m.ops, window, m.head, Fetched(), p, state);
      SlotStaysFit(s, addr, window, p, state);
      hide Slots, AllFit;
      window := window[pos := op];
    }

    // What the slot of p holds.
    lemma SlotHolds(p: nat, s: Thread, m: Machine)
      requires WindowShows(s, m.head, m.ops) && Holds(m, p)
      ensures ibDepth > 0 && p < |m.ops| && p % ibDepth < |window|
      ensures window[p % ibDepth] == SlotOf(s, addr, ibDepth, p, m.ops[p])
    {
      hide OpAt, AllFit;
    }

    method UseLdPort()
      requires availLd >= 1
      modifies `tLd, `availLd
      ensures tLd == if old(availLd) == 1 then old(tLd) + 1 else old(tLd)
      ensures availLd == if old(availLd) == 1 then core.ld else old(availLd) - 1
    {
      availLd := availLd - 1;
      if availLd == 0 {
        availLd := core.ld;
        tLd := tLd + 1;
      }
    }

    // An operation has gone to the cache.
    method MarkDispatched(pos: nat, complete: nat, ghost p: nat, ghost s: Thread, ghost m: Machine)
      requires Shows(s, m) && Holds(m, p) && ibDepth > 0 && pos == p % ibDepth && p < |m.ops|
      modifies `window
      ensures Shows(s, m.(ops := m.ops[p := m.ops[p].(status := Dispatched, complete := complete)]))
    {
      hide WindowShows, ListsShow, LogShows;
      SlotHolds(p, s, m);
      SetOp(pos, window[pos].(status := Dispatched, complete := complete), p,
            m.ops[p].(status := Dispatched, complete := complete), s, m);
    }

    // The cache is asked for a load by the load port.
    method AskLd(req: Req, ghost p: nat, ghost s: Thread, ghost m: Machine) returns (complete: nat)
      requires Shows(s, m) && availLd >= 1 && req.addr == addr(p)
      modifies `tLd, `availLd, `loads, `accesses
      ensures complete == s.l1.loadTime(m.loads, m.ports.tLd)
      ensures Shows(s, m.(ports := LdUsed(s.core, m.ports), loads := m.loads + 1,
                          sent := m.sent + [Sent(LOAD, p, req.dispatch, m.ports.tLd)]))
    {
      hide WindowShows, ListsShow, LogShows;
      LogGrows(addr, accesses, m.sent, Sent(LOAD, p, req.dispatch, tLd));
      accesses := accesses + [Access(LOAD, req.addr, tLd)];
      var time := tLd;
      UseLdPort();
      complete := l1.loadTime(loads, time);
      loads := loads + 1;
    }

    // Hand a load to the cache by the load port.
    method SendLd(req: Req, ghost p: nat, ghost s: Thread, ghost m: Machine)
      requires Shows(s, m) && Able(s, m) && Holds(m, p) && req == Req(addr(p), req.dispatch, p % ibDepth)
      modifies `tLd, `availLd, `loads, `accesses, `window
      ensures p < |m.ops| && Shows(s, SendLoad(s, m, Request(p, req.dispatch)))
    {
      hide Shows, WindowShows, LdUsed, OpAt, InProgram;
      ChildSlot(s, m, p);
      Clock(s, m);
      var complete := AskLd(req, p, s, m);
      MarkDispatched(req.pos, complete, p, s,
        m.(ports := LdUsed(s.core, m.ports), loads := m.loads + 1,
           sent := m.sent + [Sent(LOAD, p, req.dispatch, m.ports.tLd)]));
      LdUsedIs(s, m, Request(p, req.dispatch));
    }

    method TryDispatchLd(req: Req, ghost p: nat, ghost s: Thread, ghost m: Machine) returns (ok: bool)
      requires Shows(s, m) && Able(s, m) && Holds(m, p) && req == Req(addr(p), req.dispatch, p % ibDepth)
      modifies `tLd, `availLd, `asked, `loads, `accesses, `window
      ensures p < |m.ops| && var (m', sent) := TryLoad(s, m, Request(p, req.dispatch)); ok == sent && Shows(s, m')
    {
      hide WindowShows, ListsShow, SendLoad, LogShows;
      SlotHolds(p, s, m);
      tLd := Latest(tLd, tCpu);
      ghost var m1 := m.(ports := m.ports.(tLd := tLd));
      if req.dispatch <= tLd {
        var pending := l1.pendingLines(asked);
        asked := asked + 1;
        if pending < core.lfb {
          SendLd(req, p, s, m1.(asked := asked));
          return true;
        }
      }
      return false;
    }

    method UseStPort()
      requires availSt >= 1
      modifies `tSt, `availSt
      ensures tSt == if old(availSt) == 1 then old(tSt) + 1 else old(tSt)
      ensures availSt == if old(availSt) == 1 then core.st else old(availSt) - 1
    {
      availSt := availSt - 1;
      if availSt == 0 {
        availSt := core.st;
        tSt := tSt + 1;
      }
    }

    // The cache is given a store by the store port.
    method AskSt(req: Req, ghost p: nat, ghost s: Thread, ghost m: Machine)
      requires Shows(s, m) && availSt >= 1 && req.addr == addr(p)
      modifies `tSt, `availSt, `accesses
      ensures tSt == StUsed(s.core, m.ports).tSt
      ensures Shows(s, m.(ports := StUsed(s.core, m.ports),
                          sent := m.sent + [Sent(STORE, p, req.dispatch, m.ports.tSt)]))
    {
      hide WindowShows, ListsShow, LogShows;
      LogGrows(addr, accesses, m.sent, Sent(STORE, p, req.dispatch, tSt));
      accesses := accesses + [Access(STORE, req.addr, tSt)];
      UseStPort();
    }

    method SendSt(req: Req, ghost p: nat, ghost s: Thread, ghost m: Machine)
      requires Shows(s, m) && Able(s, m) && Holds(m, p) && req == Req(addr(p), req.dispatch, p % ibDepth)
      modifies `tSt, `availSt, `accesses, `window
      ensures p < |m.ops| && Shows(s, SendStore(s, m, Request(p, req.dispatch)))
    {
      hide Shows, WindowShows, StUsed, OpAt, InProgram;
      ChildSlot(s, m, p);
      Clock(s, m);
      AskSt(req, p, s, m);
      MarkDispatched(req.pos, tSt, p, s,
        m.(ports := StUsed(s.core, m.ports), sent := m.sent + [Sent(STORE, p, req.dispatch, m.ports.tSt)]));
      StUsedIs(s, m, Request(p, req.dispatch));
    }

    method TryDispatchSt(req: Req, ghost p: nat, ghost s: Thread, ghost m: Machine) returns (ok: bool)
      requires Shows(s, m) && Able(s, m) && Holds(m, p) && req == Req(addr(p), req.dispatch, p % ibDepth)
      modifies `tSt, `availSt, `accesses, `window
      ensures p < |m.ops| && var (m', sent) := TryStore(s, m, Request(p, req.dispatch)); ok == sent && Shows(s, m')
    {
      hide WindowShows, ListsShow, SendStore, LogShows;
      SlotHolds(p, s, m);
      tSt := Latest(tSt, tCpu);
      if req.dispatch <= tSt {
        SendSt(req, p, s, m.(ports := m.ports.(tSt := tSt)));
        return true;
      }
      return false;
    }

    // Take comp arithmetic slots, from the current cycle on.
    method UseAlu(comp: nat)
      requires core.alu >= 1 && 1 <= availAlu <= core.alu
      modifies `tAlu, `availAlu
      ensures Ports(tAlu, availAlu, tLd, availLd, tSt, availSt)
           == TakeAlu(core, Ports(old(tAlu), old(availAlu), tLd, availLd, tSt, availSt), tCpu, comp)
    {
      tAlu := Latest(tAlu, tCpu);
      var min := Least(availAlu, comp);
      var rest := comp - min;
      availAlu := availAlu - min;
      if availAlu == 0 {
        availAlu := core.alu;
        tAlu := tAlu + 1;
        var dt := rest / core.alu;
        var dc := rest - dt * core.alu;
        assert dc == rest % core.alu;
        availAlu := core.alu - dc;
        tAlu := tAlu + dt;
        rest := 0;
      }
      assert rest == 0;
    }

    // The operation of a slot is computed.
    method Calculate(pos: nat, ghost p: nat, ghost s: Thread, ghost m: Machine)
      requires Shows(s, m) && Able(s, m) && Holds(m, p) && pos == p % ibDepth
      modifies `tAlu, `availAlu, `window
      ensures p < |m.ops| && Shows(s, Compute(s, m, p))
    {
      hide WindowShows, ListsShow, LogShows, InProgram, TakeAlu;
      SlotHolds(p, s, m);
      var op := window[pos].(dispatch := tCpu);
      if op.comp > 0 {
        UseAlu(op.comp);
        op := op.(comp := 0, dispatch := tAlu);
      }
      SetOp(pos, op, p, Compute(s, m, p).ops[p], s, m);
    }

    method Dispatch(pos: nat, ghost p: nat, ghost s: Thread, ghost m: Machine)
      requires Shows(s, m) && Able(s, m) && Holds(m, p) && pos == p % ibDepth
      modifies `tAlu, `availAlu, `tLd, `availLd, `tSt, `availSt, `asked, `loads, `accesses, `window,
        `pendingLdList, `pendingStList
      ensures p < |m.ops| && Shows(s, ProgramOrder.Dispatch(s, m, p))
    {
      hide WindowShows, ListsShow, LogShows, InProgram, Compute, ToPort, PortsOpen;
      SlotHolds(p, s, m);
      if window[pos].prev > 0 {
        SetOp(pos, window[pos].(status := Pending, dispatch := 0), p, m.ops[p].(status := Pending, dispatch := 0), s, m);
        return;
      }
      Calculate(pos, p, s, m);
      SendOrQueue(pos, p, s, Compute(s, m, p));
    }

    method PushLd(req: Req, ghost p: nat, ghost m: Machine)
      requires ListsShow(m.pendingLd, m.pendingSt, m.head) && Holds(m, p)
      requires req == Req(addr(p), req.dispatch, p % ibDepth)
      modifies `pendingLdList
      ensures ListsShow(m.pendingLd + [Request(p, req.dispatch)], m.pendingSt, m.head)
    {
      ListGrows(addr, pendingLdList, m.pendingLd, ibDepth, m.head, Fetched(), p, req.dispatch);
      hide ListShows;
      pendingLdList := pendingLdList + [req];
    }

    method QueueLd(req: Req, ghost p: nat, ghost s: Thread, ghost m: Machine)
      requires Shows(s, m) && Holds(m, p) && req == Req(addr(p), req.dispatch, p % ibDepth)
      modifies `window, `pendingLdList
      ensures p < |m.ops|
      ensures Shows(s, m.(pendingLd := m.pendingLd + [Request(p, req.dispatch)],
                          ops := m.ops[p := m.ops[p].(status := Pending)]))
    {
      hide WindowShows, ListsShow, LogShows;
      SlotHolds(p, s, m);
      PushLd(req, p, m);
      SetOp(req.pos, window[req.pos].(status := Pending), p, m.ops[p].(status := Pending), s, m);
    }

    method PushSt(req: Req, ghost p: nat, ghost m: Machine)
      requires ListsShow(m.pendingLd, m.pendingSt, m.head) && Holds(m, p)
      requires req == Req(addr(p), req.dispatch, p % ibDepth)
      modifies `pendingStList
      ensures ListsShow(m.pendingLd, m.pendingSt + [Request(p, req.dispatch)], m.head)
    {
      ListGrows(addr, pendingStList, m.pendingSt, ibDepth, m.head, Fetched(), p, req.dispatch);
      hide ListShows;
      pendingStList := pendingStList + [req];
    }

    method QueueSt(req: Req, ghost p: nat, ghost s: Thread, ghost m: Machine)
      requires Shows(s, m) && Holds(m, p) && req == Req(addr(p), req.dispatch, p % ibDepth)
      modifies `window, `pendingStList
      ensures p < |m.ops|
      ensures Shows(s, m.(pendingSt := m.pendingSt + [Request(p, req.dispatch)],
                          ops := m.ops[p := m.ops[p].(status := Pending)]))
    {
      hide WindowShows, ListsShow, LogShows;
      SlotHolds(p, s, m);
      PushSt(req, p, m);
      SetOp(req.pos, window[req.pos].(status := Pending), p, m.ops[p].(status := Pending), s, m);
    }

    // Send a load to its port, or queue it for the port.
    method LdOrQueue(req: Req, ghost p: nat, ghost s: Thread, ghost m: Machine)
      requires Shows(s, m) && Able(s, m) && Holds(m, p) && p < |m.ops| && OpAt(s, p).kind == LOAD
      requires req == Req(addr(p), m.ops[p].dispatch, p % ibDepth)
      modifies `tLd, `availLd, `asked, `loads, `accesses, `window, `pendingLdList
      ensures Shows(s, ToPort(s, m, p))
    {
      hide Shows, Able, TryLoad, TryStore, OpAt;
      ghost var r := Request(p, m.ops[p].dispatch);
      ListsKept(s, m, r);
      var ok := TryDispatchLd(req, p, s, m);
      if !ok {
        QueueLd(req, p, s, TryLoad(s, m, r).0);
      }
    }

    // Send a store to its port, or queue it for the port.
    method StOrQueue(req: Req, ghost p: nat, ghost s: Thread, ghost m: Machine)
      requires Shows(s, m) && Able(s, m) && Holds(m, p) && p < |m.ops| && OpAt(s, p).kind == STORE
      requires req == Req(addr(p), m.ops[p].dispatch, p % ibDepth)
      modifies `tSt, `availSt, `accesses, `window, `pendingStList
      ensures Shows(s, ToPort(s, m, p))
    {
      hide Shows, Able, TryLoad, TryStore, OpAt;
      ghost var r := Request(p, m.ops[p].dispatch);
      ListsKept(s, m, r);
      var ok := TryDispatchSt(req, p, s, m);
      if !ok {
        QueueSt(req, p, s, TryStore(s, m, r).0);
      }
    }

    method SendOrQueue(pos: nat, ghost p: nat, ghost s: Thread, ghost m: Machine)
      requires Shows(s, m) && Able(s, m) && Holds(m, p) && pos == p % ibDepth
      modifies `tLd, `availLd, `tSt, `availSt, `asked, `loads, `accesses, `window, `pendingLdList, `pendingStList
      ensures p < |m.ops| && Shows(s, ToPort(s, m, p))
    {
      hide WindowShows, ListsShow, LogShows, InProgram, ToPort, PortsOpen, PortsShow, OpAt;
      SlotHolds(p, s, m);
      var req := Req(window[pos].addr, window[pos].dispatch, pos);
      match window[pos].kind
      case LOAD => LdOrQueue(req, p, s, m);
      case STORE => StOrQueue(req, p, s, m);
    }

    // ---- Fetching ----

    // Offsets from a node's step to the steps of one consumer node.
    method OffsetsToNode(n: nat, k: nat, m: nat) returns (offsets: seq<StepOffset>)
      requires Grouped(g) && Linked(g) && IsLaidOut(g, genAddr) && n < m < |g.nodes| && k < Steps(g, n)
      ensures offsets == OffsetsTo(g, n, k, m)
    {
      hide Base, RangeOps, Linked, NumPrev;
      GroupOf(g, n);
      GroupOf(g, m);
      var node, nextNode := g.nodes[n], g.nodes[m];
      FirstOffset(n, k, m);
      var offset := nextNode.offset - node.offset;
      if nextNode.groupId == node.groupId {
        offsets := [StepOffset(offset, nextNode.opsStep)];
      } else {
        offset := offset - g.groups[node.groupId].numOps * k;
        var nextGroup := g.groups[nextNode.groupId];
        offsets := [];
        var i := 0;
        while i < nextGroup.groupSteps
          invariant 0 <= i <= nextGroup.groupSteps && offsets == AcrossTo(g, n, k, m, i)
        {
          offsets := offsets + [StepOffset(offset + nextGroup.numOps * i, nextNode.opsStep)];
          i := i + 1;
        }
      }
    }

    lemma FirstOffset(n: nat, k: nat, m: nat)
      requires Grouped(g) && n < m < |g.nodes| && k < Steps(g, n)
      ensures Offset(g, n) <= Offset(g, m)
      ensures !SameGroup(g, n, m) ==> Offset(g, n) + k * NumOps(g, g.nodes[n].groupId) <= Offset(g, m)
    {
      hide Offset, NumOps;
      BeginsLater(g, n, k, m, if SameGroup(g, n, m) then k else 0);
    }

    method StepOffsets(n: nat, k: nat) returns (offsets: seq<StepOffset>)
      requires Grouped(g) && n < |g.nodes| && k < Steps(g, n)
      requires forall i :: 0 <= i < |g.nodes[n].next| ==> n < g.nodes[n].next[i] < |g.nodes|
      requires Linked(g) && IsLaidOut(g, genAddr)
      ensures offsets == OffsetsOf(g, n, k, g.nodes[n].next)
    {
      hide Linked, Grouped, IsLaidOut, OffsetsTo;
      var next := g.nodes[n].next;
      offsets := [];
      var i := 0;
      while i < |next|
        invariant 0 <= i <= |next| && offsets == OffsetsOf(g, n, k, next[..i])
      {
        var more := OffsetsToNode(n, k, next[i]);
        offsets := offsets + more;
        assert next[..i + 1][..i] == next[..i];
        i := i + 1;
      }
      assert next[..i] == next;
    }

    // The distances for the operation of one access.
    method ExpandNext(offsets: seq<StepOffset>, i: nat) returns (next: seq<nat>)
      requires forall e :: 0 <= e < |offsets| ==> offsets[e].offset >= i
      ensures next == Expand(offsets, i)
    {
      next := [];
      var e := 0;
      while e < |offsets|
        invariant 0 <= e <= |offsets| && next == Expand(offsets[..e], i)
      {
        var o := offsets[e];
        var p := 0;
        ghost var before := next;
        while p < o.num
          invariant 0 <= p <= o.num
          invariant next == before + seq(p, (q: nat) requires q < p => o.offset - i + q)
        {
          next := next + [o.offset - i + p];
          p := p + 1;
        }
        assert offsets[..e + 1][..e] == offsets[..e];
        e := e + 1;
      }
      assert offsets[..e] == offsets;
    }

    // The slots hold positions head .. fetched - 1, wherever the global step stands.
    ghost predicate Fetching(s: Thread, head: nat, ops: seq<OpState>, fetched: nat)
      reads `window, `ibDepth, `winLoad
    {
      && |s.prog.ops| > 0 && |ops| == Total(s)
      && ibDepth > 0 && |window| == ibDepth && ibDepth % |s.prog.ops| == 0
      && Slots(s, addr, ops, window, head, fetched) && winLoad == fetched - head
    }

    // The next global step, from position base on, has not started and has room.
    ghost predicate StepHasRoom(s: Thread, head: nat, ops: seq<OpState>, base: nat)
      reads `ibDepth, `fetchedGlobalStep
    {
      && |s.prog.ops| == watermark > 0 && fetchedGlobalStep >= firstStep
      && base == (fetchedGlobalStep - firstStep) * watermark
      && base + watermark <= |ops| && base + watermark <= head + ibDepth
      && forall p :: base <= p < base + watermark ==> ops[p] == FreshOp(s, p)
    }

    lemma NodeAsLaidOut(n: nat)
      requires Grouped(g) && Linked(g) && IsLaidOut(g, genAddr) && n < |g.nodes|
      requires forall n: nat, k: nat :: |genAddr(n, k)| == |genAddr(n, 0)|
      ensures g.nodes[n].numPrevOps == NumPrev(g, n)
      ensures forall t: nat :: |genAddr(n, t)| == g.nodes[n].opsStep
      ensures forall e :: 0 <= e < |g.nodes[n].next| ==> n < g.nodes[n].next[e] < |g.nodes|
    {
      hide NumPrev, Offset, NumOps, Grouped;
    }

    // The window holds the program up to position p, and pos is the slot after it.
    ghost predicate FetchedTo(s: Thread, head: nat, ops: seq<OpState>, p: nat, pos: nat, before: seq<Op>)
      reads `window, `ibDepth, `winLoad
    {
      && Fetching(s, head, ops, p) && pos <= ibDepth && pos % ibDepth == p % ibDepth && |window| == |before|
      && forall slot :: 0 <= slot < |window| ==> window[slot] == before[slot] || SlotFits(s, window, slot)
    }

    // Fetch the operation of one access.
    method FetchAccess(pos: nat, n: nat, k: nat, i: nat, list: seq<nat>, offsets: seq<StepOffset>, ghost p: nat,
                       ghost s: Thread, ghost head: nat, ghost ops: seq<OpState>, ghost base: nat, ghost before: seq<Op>)
      returns (pos': nat)
      requires Grouped(g) && n < |g.nodes| && IsInst(g, Inst(n, k, i))
      requires forall e :: 0 <= e < |g.nodes[n].next| ==> n < g.nodes[n].next[e] < |g.nodes|
      requires offsets == OffsetsOf(g, n, k, g.nodes[n].next)
      requires list == genAddr(n, LocalStep(fetchedGlobalStep, Steps(g, n), k)) && i < |list|
      requires p == base + Begin(g, n, k) + i
      requires Linked(g) && Runs(s) && StepHasRoom(s, head, ops, base) && FetchedTo(s, head, ops, p, pos, before)
      modifies `window, `winLoad
      ensures FetchedTo(s, head, ops, p + 1, pos', before)
    {
      hide Begin, Walk, Linked, IsLaidOut, Exact, OffsetsOf, Expand, Runnable, NewOp, Grouped, NextOf, FetchedTo,
           Runs, ProgramOf, OpOf, ConsumersOf, AddressAt, At, Base, Steps, InDegree;
      FetchedSlot(s, head, ops, p, pos, before);
      pos' := pos;
      if pos' >= ibDepth {
        pos' := 0;
      }
      var next := ExpandNext(offsets, i);
      ExpandedIsNext(n, k, i, next);
      NewOpIsRight(Inst(n, k, i), p, Begin(g, n, k) + i, list, s, head, ops, base);
      PutOp(pos', NewOp(n, pos', list[i], next), p, s, head, ops, pos, before);
      pos' := pos' + 1;
    }

    lemma FetchedSlot(s: Thread, head: nat, ops: seq<OpState>, p: nat, pos: nat, before: seq<Op>)
      requires FetchedTo(s, head, ops, p, pos, before)
      ensures ibDepth > 0 && (if pos >= ibDepth then 0 else pos) == p % ibDepth
    {
      WrapsToSlot(pos, p, ibDepth);
    }

    // Fetch the operations of one node in one step.
    method FetchNode(start: nat, n: nat, k: nat, ghost s: Thread, ghost head: nat, ghost ops: seq<OpState>,
                     ghost base: nat, ghost before: seq<Op>)
      returns (pos: nat)
      requires Runs(s) && StepHasRoom(s, head, ops, base) && n < |g.nodes| && k < Steps(g, n)
      requires FetchedTo(s, head, ops, base + Begin(g, n, k), start, before)
      modifies `window, `winLoad
      ensures FetchedTo(s, head, ops, base + Begin(g, n, k) + g.nodes[n].opsStep, pos, before)
    {
      hide Begin, Walk, IsLaidOut, Exact, OffsetsOf, Runnable, FetchedTo, Linked, ProgramOf, OpOf, NumPrev, AddressAt,
           Base, InDegree;
      NodeAsLaidOut(n);
      pos := start;
      var localStep := LocalStep(fetchedGlobalStep, g.groups[g.nodes[n].groupId].groupSteps, k);
      var list := genAddr(n, localStep);
      var offsets := StepOffsets(n, k);
      var i := 0;
      while i < |list|
        invariant 0 <= i <= |list| && FetchedTo(s, head, ops, base + Begin(g, n, k) + i, pos, before)
      {
        pos := FetchAccess(pos, n, k, i, list, offsets, base + Begin(g, n, k) + i, s, head, ops, base, before);
        i := i + 1;
      }
    }

    // The operation of a graph node, with its own count of producers.
    function NewOp(n: nat, pos: nat, addr: nat, next: seq<nat>): Op
      requires n < |g.nodes|
    {
      var node := g.nodes[n];
      Op(Issued, pos, node.numPrevOps, node.op, node.comp, addr, 0, 0, next)
    }

    // It is what the slot of its position must hold.
    lemma NewOpIsRight(x: Inst, p: nat, q: nat, list: seq<nat>, s: Thread, head: nat, ops: seq<OpState>, base: nat)
      requires Runs(s) && StepHasRoom(s, head, ops, base) && ibDepth > 0 && IsInst(g, x) && p == base + q && q == At(g, x)
      requires list == genAddr(x.node, LocalStep(fetchedGlobalStep, Steps(g, x.node), x.step)) && x.index < |list|
      ensures q < watermark && p < |ops|
      ensures NewOp(x.node, p % ibDepth, list[x.index], NextOf(g, x)) == SlotOf(s, addr, ibDepth, p, ops[p])
    {
      hide Walk, At, IsLaidOut, Exact, NextOf, ProgramOf, Steps, IsInst, AddressAt, NumPrev, Grouped, Linked, Runnable;
      WalkHas(g, x);
      NodeAsLaidOut(x.node);
      PlacedOp(g, genAddr, firstStep, s, fetchedGlobalStep - firstStep, x, p, list);
    }

    lemma ExpandedIsNext(n: nat, k: nat, i: nat, next: seq<nat>)
      requires Grouped(g) && Linked(g) && IsInst(g, Inst(n, k, i))
      requires forall e :: 0 <= e < |g.nodes[n].next| ==> n < g.nodes[n].next[e] < |g.nodes|
      requires next == Expand(OffsetsOf(g, n, k, g.nodes[n].next), i)
      ensures next == NextOf(g, Inst(n, k, i)) && At(g, Inst(n, k, i)) == Begin(g, n, k) + i
    {
      hide Expand, OffsetsOf, Offset, NumOps, Linked, NextOf;
      OffsetsAreExact(g, Inst(n, k, i));
    }

    // Write a fetched operation into its slot.
    method PutOp(pos: nat, op: Op, ghost p: nat, ghost s: Thread, ghost head: nat, ghost ops: seq<OpState>,
                 ghost start: nat, ghost before: seq<Op>)
      requires FetchedTo(s, head, ops, p, start, before) && p < |ops| && p < head + ibDepth
      requires pos == p % ibDepth && op == SlotOf(s, addr, ibDepth, p, ops[p])
      modifies `window, `winLoad
      ensures FetchedTo(s, head, ops, p + 1, pos + 1, before)
    {
      SlotFilled(s, addr, ops, window, head, p);
      WrapsToSlot(start, p, ibDepth);
      hide Slots, SlotOf;
      ghost var was := window;
      window := window[pos := op];
      winLoad := winLoad + 1;
      forall slot | 0 <= slot < |window| ensures window[slot] == before[slot] || SlotFits(s, window, slot) {
        assert was[slot] == before[slot] || SlotFits(s, was, slot);
      }
    }

    // Fetch the nodes of a group in one step.
    method FetchStep(start: nat, group: nat, k: nat, ghost s: Thread, ghost head: nat, ghost ops: seq<OpState>,
                     ghost base: nat, ghost before: seq<Op>)
      returns (pos: nat)
      requires Runs(s) && Grouped(g) && StepHasRoom(s, head, ops, base)
      requires group < |g.groups| && k < g.groups[group].groupSteps
      requires FetchedTo(s, head, ops, base + StepBegin(g, group, k), start, before)
      modifies `window, `winLoad
      ensures FetchedTo(s, head, ops, base + StepBegin(g, group, k + 1), pos, before)
    {
      hide Walk, IsLaidOut, Exact, Runnable, FetchedTo, Linked, Begin, StepBegin, RangeOps, Grouped;
      pos := start;
      var n := g.groups[group].stNode;
      GroupBounds(g, group);
      NoNodesYet(g, n);
      while n <= g.groups[group].endNode
        invariant g.groups[group].stNode <= n <= g.groups[group].endNode + 1
        invariant FetchedTo(s, head, ops, base + StepBegin(g, group, k) + RangeOps(g, g.groups[group].stNode, n), pos, before)
      {
        NodeBegins(g, group, k, n);
        pos := FetchNode(pos, n, k, s, head, ops, base, before);
        n := n + 1;
      }
      StepEnds(g, group, k);
    }

    lemma FetchBegins(s: Thread, head: nat, ops: seq<OpState>, base: nat, start: nat)
      requires Runs(s) && Fetching(s, head, ops, base) && start <= ibDepth && start % ibDepth == base % ibDepth
      ensures FetchedTo(s, head, ops, base, start, window) && |Walk(g)| == watermark
      ensures |g.groups| >= 1 && g.groups[0].groupSteps >= 1 && StepBegin(g, 0, 0) == 0
    {
      hide Walk, IsLaidOut, Exact, Linked, StepBegin;
      ThreadIs(s);
      WindowIsWalk(g);
    }

    // Fetch the operations of one global step, from slot `start` on.
    method FetchGlobalStep(start: nat, ghost s: Thread, ghost head: nat, ghost ops: seq<OpState>, ghost base: nat)
      returns (pos: nat)
      requires Runs(s) && Grouped(g) && StepHasRoom(s, head, ops, base) && Fetching(s, head, ops, base)
      requires start <= ibDepth && start % ibDepth == base % ibDepth
      modifies `window, `winLoad, `fetchedGlobalStep
      ensures FetchedTo(s, head, ops, base + watermark, pos, old(window))
      ensures fetchedGlobalStep == old(fetchedGlobalStep) + 1
    {
      hide Runs, FetchedTo, StepBegin, Fetching, Grouped, StepHasRoom;
      ghost var before := window;
      FetchBegins(s, head, ops, base, start);
      pos := start;
      var currGroupId, currGroupStep, done := 0, 0, false;
      while !done
        modifies `window, `winLoad
        invariant !done ==> currGroupId < |g.groups| && currGroupStep < g.groups[currGroupId].groupSteps
        invariant !done ==> FetchedTo(s, head, ops, base + StepBegin(g, currGroupId, currGroupStep), pos, before)
        invariant done ==> FetchedTo(s, head, ops, base + watermark, pos, before)
        decreases !done, |g.groups| - currGroupId, if done then 0 else g.groups[currGroupId].groupSteps - currGroupStep
      {
        pos := FetchStep(pos, currGroupId, currGroupStep, s, head, ops, base, before);
        NextStepBegins(g, currGroupId, currGroupStep + 1);
        currGroupStep := currGroupStep + 1;
        if currGroupStep == g.groups[currGroupId].groupSteps {
          currGroupStep := 0;
          currGroupId := currGroupId + 1;
          if currGroupId == |g.groups| {
            done := true;
          }
        }
      }
      fetchedGlobalStep := fetchedGlobalStep + 1;
    }

    // ---- Retirement ----

    lemma MoreSteps(s: Thread, m: Machine, start: nat)
      requires Runs(s) && WindowShows(s, m.head, m.ops) && winLoad + watermark <= ibDepth
      requires fetchedGlobalStep < globalControlMax
      ensures Grouped(g) && StepHasRoom(s, m.head, m.ops, Fetched()) && Fetching(s, m.head, m.ops, Fetched())
      ensures (fetchedGlobalStep + 1 - firstStep) * watermark == Fetched() + watermark
    {
      hide Walk, IsLaidOut, Exact, Linked, Grouped, Slots, FreshOp, AllFit;
      ThreadIs(s);
      assert (fetchedGlobalStep + 1 - firstStep) * watermark == Fetched() + watermark;
      MulLe(fetchedGlobalStep + 1 - firstStep, s.steps, watermark);
    }

    // After one more global step the window still shows the program.
    lemma StepFetched(s: Thread, m: Machine, base: nat, pos: nat, before: seq<Op>)
      requires Runs(s) && FetchedTo(s, m.head, m.ops, base + watermark, pos, before) && AllFit(s, before)
      requires firstStep < fetchedGlobalStep <= globalControlMax && (fetchedGlobalStep - firstStep) * watermark == base + watermark
      requires winHead == m.head % ibDepth && m.head <= base
      requires forall p :: base <= p < |m.ops| ==> m.ops[p] == FreshOp(s, p)
      ensures WindowShows(s, m.head, m.ops)
    {
      hide Walk, IsLaidOut, Exact, Linked, Grouped, Slots, FreshOp;
      ThreadIs(s);
      forall slot | 0 <= slot < |window| ensures SlotFits(s, window, slot) {
        assert SlotFits(s, before, slot);
      }
    }

    lemma WindowParts(s: Thread, m: Machine)
      requires WindowShows(s, m.head, m.ops)
      ensures ibDepth > 0 && firstStep <= fetchedGlobalStep <= globalControlMax && AllFit(s, window)
      ensures winHead == m.head % ibDepth && m.head <= Fetched() && winLoad == Fetched() - m.head
      ensures Fetched() <= |m.ops| == Total(s) && winLoad <= ibDepth == |window|
      ensures Slots(s, addr, m.ops, window, m.head, Fetched()) && watermark > 0 && ibDepth % watermark == 0
      ensures forall p :: Fetched() <= p < |m.ops| ==> m.ops[p] == FreshOp(s, p)
    {
    }

    lemma MorePositions(ld: seq<Request>, st: seq<Request>, head: nat, was: nat)
      requires ibDepth > 0 && fetchedGlobalStep >= firstStep && was <= Fetched()
      requires ListShows(addr, pendingLdList, ld, ibDepth, head, was)
      requires ListShows(addr, pendingStList, st, ibDepth, head, was)
      ensures ListsShow(ld, st, head)
    {
    }

    // Slot number `start` is where the next fetched operation goes, wrapped or not.
    ghost predicate PointsAtNext(start: nat)
      reads `ibDepth, `fetchedGlobalStep
    {
      && ibDepth > 0 && fetchedGlobalStep >= firstStep
      && start <= ibDepth && start % ibDepth == Fetched() % ibDepth
    }

    // Fetch one more global step into the window.
    method FetchMore(start: nat, ghost s: Thread, ghost m: Machine) returns (start': nat)
      requires Runs(s) && WindowShows(s, m.head, m.ops) && ListsShow(m.pendingLd, m.pendingSt, m.head)
      requires winLoad + watermark <= ibDepth && fetchedGlobalStep < globalControlMax
      requires PointsAtNext(start)
      modifies `window, `winLoad, `fetchedGlobalStep
      ensures WindowShows(s, m.head, m.ops) && ListsShow(m.pendingLd, m.pendingSt, m.head)
      ensures fetchedGlobalStep == old(fetchedGlobalStep) + 1 && PointsAtNext(start')
    {
      hide Runs, WindowShows, Fetching, StepHasRoom, AllFit, ListShows, Grouped, FreshOp, FetchedTo;
      ghost var base, before := Fetched(), window;
      MoreSteps(s, m, start);
      WindowParts(s, m);
      start' := FetchGlobalStep(start, s, m.head, m.ops, base);
      StepFetched(s, m, base, start', before);
      AfterSlot(s, m, base + watermark, start', before);
      MorePositions(m.pendingLd, m.pendingSt, m.head, base);
    }

    lemma AfterSlot(s: Thread, m: Machine, p: nat, pos: nat, before: seq<Op>)
      requires FetchedTo(s, m.head, m.ops, p, pos, before)
      ensures ibDepth > 0 && pos <= ibDepth && pos % ibDepth == p % ibDepth
    {
    }

    // Either the largest refill leaves the reorder window full, or there is nothing
    // left to fetch.
    ghost predicate Roomy()
      reads `ibDepth, `fetchedGlobalStep
    {
      ibDepth >= core.rob + watermark || fetchedGlobalStep == globalControlMax
    }

    lemma TailPoints(s: Thread, m: Machine, start: nat)
      requires WindowShows(s, m.head, m.ops) && ibDepth > 0 && start == Wrap(winHead + winLoad, ibDepth)
      ensures PointsAtNext(start)
    {
      hide Slots, AllFit, FreshOp;
      TailSlot(m.head, winLoad, ibDepth);
    }

    // Fetch whole global steps while there is room for one.
    method Refill(ghost s: Thread, ghost m: Machine)
      requires Runs(s) && Shows(s, m) && Roomy()
      modifies `window, `winLoad, `fetchedGlobalStep
      ensures Shows(s, m) && Full(s)
    {
      hide Runs, WindowShows, ListsShow, LogShows, PortsShow, PointsAtNext, FreshOp, Slots, AllFit, Wrap;
      WindowParts(s, m);
      ThreadIs(s);
      var start := Wrap(winHead + winLoad, ibDepth);
      TailPoints(s, m, start);
      while winLoad + watermark <= ibDepth && fetchedGlobalStep < globalControlMax
        invariant Shows(s, m) && Roomy() && PointsAtNext(start)
        decreases globalControlMax - fetchedGlobalStep
      {
        start := FetchMore(start, s, m);
      }
      WindowParts(s, m);
    }

    // The head leaves the window.
    method DropHead(ghost s: Thread, ghost m: Machine)
      requires Shows(s, m) && m.head < Fetched()
      requires !Waits(m.pendingLd, m.head) && !Waits(m.pendingSt, m.head)
      modifies `winHead, `winLoad
      ensures m.head < |m.ops| && Shows(s, m.(head := m.head + 1))
    {
      hide LogShows, WindowShows, ListsShow;
      WindowParts(s, m);
      NextSlot(m.head, ibDepth);
      winHead := winHead + 1;
      if winHead == ibDepth {
        winHead := 0;
      }
      winLoad := winLoad - 1;
      WithoutHead(s, m);
      ListsWithoutHead(m);
    }

    lemma WithoutHead(s: Thread, m: Machine)
      requires Fits(s) && ibDepth > 0 && |window| == ibDepth && ibDepth % watermark == 0
      requires firstStep <= fetchedGlobalStep <= globalControlMax && |m.ops| == Total(s)
      requires m.head < Fetched() && winHead == (m.head + 1) % ibDepth && winLoad == Fetched() - m.head - 1
      requires Slots(s, addr, m.ops, window, m.head, Fetched()) && AllFit(s, window)
      requires forall p :: Fetched() <= p < |m.ops| ==> m.ops[p] == FreshOp(s, p)
      ensures WindowShows(s, m.head + 1, m.ops)
    {
      hide Walk, IsLaidOut, Linked, Grouped, Exact, AllFit, FreshOp, SlotOf;
    }

    lemma ListsWithoutHead(m: Machine)
      requires ListsShow(m.pendingLd, m.pendingSt, m.head)
      requires !Waits(m.pendingLd, m.head) && !Waits(m.pendingSt, m.head)
      ensures ListsShow(m.pendingLd, m.pendingSt, m.head + 1)
    {
      HeadOffList(addr, pendingLdList, m.pendingLd, ibDepth, m.head, Fetched());
      HeadOffList(addr, pendingStList, m.pendingSt, ibDepth, m.head, Fetched());
      hide ListShows;
    }

    // How full the window is tells how much of the program is left.
    lemma LoadTellsRest(s: Thread, m: Machine)
      requires Shows(s, m) && Full(s)
      ensures winLoad >= core.rob <==> m.head + core.rob <= |m.ops|
      ensures winLoad == 0 && fetchedGlobalStep == globalControlMax <==> m.head == |m.ops|
      ensures winLoad < core.rob ==> winLoad == |m.ops| - m.head
      ensures m.head <= Fetched() && winLoad == Fetched() - m.head && ibDepth > 0 && winHead == m.head % ibDepth
      ensures fetchedGlobalStep >= firstStep
    {
      hide Slots, AllFit, ListsShow, LogShows, PortsShow;
    }

    // The oldest operation leaves, the window is refilled if it runs low, and the
    // operation that enters the reorder window is dispatched.
    method RetireHead(ghost s: Thread, ghost m: Machine)
      requires Runs(s) && Shows(s, m) && Full(s) && Able(s, m) && Holds(m, m.head)
      requires !Waits(m.pendingLd, m.head) && !Waits(m.pendingSt, m.head)
      modifies this
      ensures m.head < |m.ops| && Shows(s, ProgramOrder.RetireHead(s, m)) && Full(s) && ibDepth == old(ibDepth)
    {
      hide Runs, WindowShows, ListsShow, LogShows, PortsShow, ProgramOrder.Dispatch, PortsOpen, ProgramOf, OpOf,
           IsLaidOut, Shows, AddressAt, Walk, Base, IsInst, Steps;
      ThreadIs(s);
      DropHead(s, m);
      ghost var m1 := m.(head := m.head + 1);
      if winLoad < core.rob {
        Refill(s, m1);
      }
      LoadTellsRest(s, m1);
      if winLoad >= core.rob {
        var pos := Wrap(winHead + core.rob - 1, ibDepth);
        SlotAfter(m1.head, core.rob - 1, ibDepth);
        Dispatch(pos, m1.head + core.rob - 1, s, m1);
      }
      if winLoad == 0 && fetchedGlobalStep == globalControlMax {
        MarkDone(s, m1);
      }
    }

    method MarkDone(ghost s: Thread, ghost m: Machine)
      requires Shows(s, m)
      modifies `isDone
      ensures Shows(s, m.(isDone := true))
    {
      hide WindowShows, ListsShow, LogShows;
      isDone := true;
    }

    // ---- Completion ----

    // Edges of an operation in the window, or of the head that just left it, lead to
    // operations in the window.
    lemma ChildHeld(s: Thread, m: Machine, p: nat, d: nat)
      requires Fits(s) && WindowShows(s, m.head, m.ops) && m.head <= p + 1 && p < Fetched()
      requires d >= 1 && p % watermark + d < watermark
      ensures Holds(m, p + d) && p + d < |m.ops|
    {
      hide WindowShows;
      WindowParts(s, m);
      SameStepBelow(p, watermark, fetchedGlobalStep - firstStep, d);
    }

    // The edges of position p can be read in its slot even when the slot has been
    // given to a later operation.
    lemma EdgesInSlot(s: Thread, m: Machine, p: nat)
      requires Fits(s) && WindowShows(s, m.head, m.ops)
      ensures p % ibDepth < |window| && window[p % ibDepth].next == OpAt(s, p).next
      ensures window[p % ibDepth].pos == p % ibDepth
    {
      hide Slots, FreshOp;
      SlotKeepsPlace(p, ibDepth, watermark);
      assert SlotFits(s, window, p % ibDepth);
    }

    // One producer less for the operation at a slot.
    method Decrement(pos: nat, ghost p: nat, ghost s: Thread, ghost m: Machine)
      requires Shows(s, m) && Holds(m, p) && pos == p % ibDepth && p < |m.ops| && m.ops[p].prev > 0
      modifies `window
      ensures Shows(s, m.(ops := m.ops[p := m.ops[p].(prev := m.ops[p].prev - 1)]))
    {
      hide WindowShows, ListsShow, LogShows;
      SlotHolds(p, s, m);
      SetOp(pos, window[pos].(prev := window[pos].prev - 1), p, m.ops[p].(prev := m.ops[p].prev - 1), s, m);
    }

    // Pass one edge on. A counter at zero would stop the simulator.
    method PassOn(pos: nat, ghost child: nat, ghost s: Thread, ghost m: Machine) returns (panic: bool)
      requires Shows(s, m) && Able(s, m) && Holds(m, child) && ibDepth > 0 && pos == child % ibDepth
      requires child < |m.ops| && m.ops[child].prev > 0
      modifies `tAlu, `availAlu, `tLd, `availLd, `tSt, `availSt, `asked, `loads, `accesses, `window,
        `pendingLdList, `pendingStList
      ensures !panic && Shows(s, PassEdge(s, m, child))
    {
      hide Shows, ProgramOrder.Dispatch, PortsOpen;
      ChildSlot(s, m, child);
      panic := window[pos].prev == 0;
      if panic {
        return;
      }
      Decrement(pos, child, s, m);
      ghost var m1 := m.(ops := m.ops[child := m.ops[child].(prev := m.ops[child].prev - 1)]);
      ChildSlot(s, m1, child);
      if window[pos].prev == 0 && window[pos].status == Pending {
        Dispatch(pos, child, s, m1);
      }
    }

    lemma ChildSlot(s: Thread, m: Machine, p: nat)
      requires Shows(s, m) && Holds(m, p)
      ensures p < |m.ops| && ibDepth > 0 && p % ibDepth < |window|
      ensures window[p % ibDepth].prev == m.ops[p].prev && window[p % ibDepth].status == m.ops[p].status
      ensures window[p % ibDepth].complete == m.ops[p].complete && window[p % ibDepth].pos == p % ibDepth
      ensures window[p % ibDepth].dispatch == m.ops[p].dispatch
    {
      hide WindowShows, ListsShow, LogShows, PortsShow;
      SlotHolds(p, s, m);
    }

    // Operation p has completed: pass all its edges on.
    method Notify(pos: nat, ghost p: nat, ghost tail: nat, ghost s: Thread, ghost m: Machine) returns (panic: bool)
      requires Shows(s, m) && Full(s) && p < Fetched() && m.head <= p + 1 && Completing(s, m, p, tail)
      requires ibDepth > 0 && pos == p % ibDepth
      modifies `tAlu, `availAlu, `tLd, `availLd, `tSt, `availSt, `asked, `loads, `accesses, `window,
        `pendingLdList, `pendingStList
      ensures !panic && Full(s) && Shows(s, Notified(s, m, p, tail))
    {
      hide Shows, Completing, PassEdge, NotifyFrom, NotifiedUpTo, ProgramOrder.Notify, Wrap, EdgesLeft, Notified,
           Keeps, Zones, Runnable, SentOnce, Listed, CountersExact, Exact, Able;
      OpenSlot(s, m, p, pos);
      var next, opPos := window[pos].next, window[pos].pos;
      ghost var now := m;
      NotifyStart(s, m, p, tail);
      panic := false;
      var e := 0;
      while e < |next|
        invariant 0 <= e <= |next| && !panic && Shows(s, now) && Full(s) && NotifiedUpTo(s, m, p, tail, now, e)
      {
        NotifyNext(s, m, p, tail, now, e, p + next[e]);
        ChildIsThere(s, m, now, p, next[e], opPos, tail, e);
        panic := PassOn(Wrap(opPos + next[e], ibDepth), p + next[e], s, now);
        now := PassEdge(s, now, p + next[e]);
        e := e + 1;
      }
      NotifyEnd(s, m, p, tail, now, e);
    }

    lemma OpenSlot(s: Thread, m: Machine, p: nat, pos: nat)
      requires Shows(s, m) && pos == p % ibDepth
      ensures pos < |window| && |s.prog.ops| > 0 && window[pos].next == OpAt(s, p).next && window[pos].pos == pos
    {
      hide WindowShows, ListsShow, LogShows, PortsShow;
      EdgesInSlot(s, m, p);
    }

    lemma ChildIsThere(s: Thread, m: Machine, now: Machine, p: nat, d: nat, pos: nat, tail: nat, e: nat)
      requires Shows(s, now) && NotifiedUpTo(s, m, p, tail, now, e) && p < Fetched() && m.head <= p + 1
      requires e < |OpAt(s, p).next| && d == OpAt(s, p).next[e] && ibDepth > 0 && pos == p % ibDepth
      ensures Holds(now, p + d) && Wrap(pos + d, ibDepth) == (p + d) % ibDepth
    {
      hide WindowShows, ListsShow, LogShows, PortsShow, NotifyFrom, OpAt, Keeps;
      EdgesStayInside(s, p);
      ChildHeld(s, now, p, d);
      SlotAfter(p, d, ibDepth);
    }

    // The operation of a slot is complete.
    method MarkCompleted(pos: nat, ghost p: nat, ghost s: Thread, ghost m: Machine)
      requires Shows(s, m) && Holds(m, p) && ibDepth > 0 && pos == p % ibDepth && p < |m.ops|
      modifies `window
      ensures Shows(s, m.(ops := m.ops[p := m.ops[p].(status := Completed)]))
    {
      hide WindowShows, ListsShow, LogShows;
      SlotHolds(p, s, m);
      SetOp(pos, window[pos].(status := Completed), p, m.ops[p].(status := Completed), s, m);
    }

    // The slot of position p is the head slot only if p is the head.
    lemma HeadSlot(s: Thread, m: Machine, p: nat)
      requires Shows(s, m) && Holds(m, p)
      ensures ibDepth > 0 && p < |m.ops| && (p % ibDepth == winHead <==> p == m.head)
    {
      hide ListsShow, LogShows, PortsShow;
      WindowParts(s, m);
      if p > m.head {
        SlotsDistinct(m.head, p, ibDepth);
      }
    }

    lemma Clock(s: Thread, m: Machine)
      requires Shows(s, m)
      ensures m.now == tCpu && m.isDone == isDone && m.hasCompleteOp == hasCompleteOp && m.nextEvent == timeNextEvent
      ensures m.ports == Ports(tAlu, availAlu, tLd, availLd, tSt, availSt)
    {
    }

    lemma ShownFits(s: Thread, m: Machine)
      requires Shows(s, m)
      ensures Fits(s)
    {
      hide PortsShow, WindowShows, ListsShow, LogShows;
    }

    lemma HeadFetched(s: Thread, m: Machine)
      requires Shows(s, m)
      ensures ibDepth > 0 && fetchedGlobalStep >= firstStep && m.head <= Fetched()
    {
      hide ListsShow, LogShows, PortsShow;
      WindowParts(s, m);
    }

    // The completed operation leaves if it is the head.
    method LeaveIfHead(pos: nat, ghost p: nat, ghost s: Thread, ghost m: Machine)
      requires Runs(s) && Shows(s, m) && Full(s) && Able(s, m) && Holds(m, p) && ibDepth > 0 && pos == p % ibDepth && p < |m.ops|
      requires !Waits(m.pendingLd, p) && !Waits(m.pendingSt, p) && s.core.rob >= 1
      modifies this
      ensures Full(s) && Shows(s, if p == m.head then ProgramOrder.RetireHead(s, m) else m)
      ensures ibDepth == old(ibDepth) && fetchedGlobalStep >= firstStep && p < Fetched()
    {
      hide Runs, Shows, Able, ProgramOrder.RetireHead;
      HeadSlot(s, m, p);
      ChildSlot(s, m, p);
      if window[pos].pos == winHead {
        RetireHead(s, m);
        HeadFetched(s, ProgramOrder.RetireHead(s, m));
      }
    }

    // A dispatched operation of the window completes: if it is the head it leaves, and
    // its consumers are told unless the program is over.
    method Complete(pos: nat, ghost p: nat, ghost s: Thread, ghost m: Machine) returns (panic: bool)
      requires Runs(s) && InOrder(s, m) && Shows(s, m) && Full(s) && Holds(m, p) && ibDepth > 0 && pos == p % ibDepth
      requires p < |m.ops| && m.ops[p].status == Dispatched && 0 < m.ops[p].complete <= m.now
      modifies this
      ensures !panic && Full(s) && Shows(s, Visited(s, m, p)) && ibDepth == old(ibDepth)
    {
      hide Runs, Shows, Visited, InOrder, Completing, Notified, Tail, Able, ProgramOrder.RetireHead, Full, ProgramOf,
           OpOf, IsLaidOut, ProgramOrder.Notify, AddressAt, Walk, Zones, Base, IsInst;
      panic := false;
      CompletionCase(s, m, p);
      MarkCompleted(pos, p, s, m);
      ghost var m2 := AfterCompletion(s, m, p);
      LeaveIfHead(pos, p, s, m.(ops := m.ops[p := m.ops[p].(status := Completed)]));
      Clock(s, m2);
      if !isDone {
        panic := Notify(pos, p, Tail(s, m2.head), s, m2);
      }
    }

    // The sweep looks at one slot.
    method VisitSlot(pos: nat, ghost p: nat, ghost s: Thread, ghost m: Machine) returns (panic: bool)
      requires Runs(s) && InOrder(s, m) && Shows(s, m) && Full(s) && Holds(m, p) && ibDepth > 0 && pos == p % ibDepth
      requires p < |m.ops|
      modifies this
      ensures !panic && Full(s) && Shows(s, Visited(s, m, p)) && ibDepth == old(ibDepth)
    {
      hide Runs, Shows, Visited, InOrder, ProgramOrder.RetireHead, Full;
      panic := false;
      ChildSlot(s, m, p);
      Clock(s, m);
      HeadSlot(s, m, p);
      VisitCases(s, m, p);
      match window[pos].status
      case Dispatched =>
        if 0 < window[pos].complete <= tCpu {
          panic := Complete(pos, p, s, m);
        }
      case Completed =>
        if window[pos].pos == winHead {
          LeaveIfHead(pos, p, s, m);
        }
      case _ =>
    }

    lemma RobIsHeld(s: Thread, m: Machine)
      requires InOrder(s, m) && Shows(s, m) && Full(s)
      ensures m.head <= |m.ops| && RobLoad(s, m) == Least(core.rob, winLoad)
      ensures ibDepth > 0 && winHead == m.head % ibDepth && winHead < ibDepth
    {
      hide InOrder, WindowShows, ListsShow, LogShows, PortsShow, Full;
      HeadInProgram(s, m);
      LoadTellsRest(s, m);
    }

    // Positions of the reorder window stay in the window while the head moves up to
    // them.
    lemma StillHeld(s: Thread, m: Machine, p: nat)
      requires Shows(s, m) && Full(s) && m.head <= p < |m.ops| && p < m.head + core.rob
      ensures Holds(m, p) && ibDepth > 0
    {
      hide WindowShows, ListsShow, LogShows, PortsShow, Full;
      LoadTellsRest(s, m);
    }

    // One pass over the reorder window.
    method Sweep(ghost s: Thread, ghost m: Machine) returns (panic: bool)
      requires Runs(s) && InOrder(s, m) && Shows(s, m) && Full(s)
      modifies this
      ensures !panic && Full(s) && m.head + RobLoad(s, m) <= |m.ops| && Shows(s, Swept(s, m, m.head, RobLoad(s, m)))
    {
      hide Runs, Shows, InOrder, Visited, Full, Swept;
      RobIsHeld(s, m);
      var robLoad := Least(core.rob, winLoad);
      var pos: nat := winHead;
      panic := false;
      ghost var n: nat, p: nat, now: Machine, size: nat := robLoad, m.head, m, ibDepth;
      assert SweptUpTo(s, m, n, m, m.head, n);
      hide SweptUpTo;
      while robLoad > 0
        invariant !panic && Shows(s, now) && Full(s) && SweptUpTo(s, m, n, now, p, robLoad)
        invariant ibDepth == size > 0 && pos <= size && pos % size == p % size
      {
        SweptNext(s, m, n, now, p, robLoad);
        WrapsToSlot(pos, p, ibDepth);
        if pos >= ibDepth {
          pos := 0;
        }
        StillHeld(s, now, p);
        panic := VisitSlot(pos, p, s, now);
        now := Visited(s, now, p);
        pos := pos + 1;
        p := p + 1;
        robLoad := robLoad - 1;
      }
      SweptEnd(s, m, n, now, p);
    }

    // ---- Waiting requests ----

    lemma WaitingLd(s: Thread, m: Machine, i: nat)
      requires Shows(s, m) && i < |pendingLdList|
      ensures |m.pendingLd| == |pendingLdList| && ibDepth > 0
      ensures var p := m.pendingLd[i].pos;
        Holds(m, p) && pendingLdList[i] == Req(addr(p), m.pendingLd[i].dispatch, p % ibDepth)
    {
      hide WindowShows, LogShows, PortsShow;
    }

    lemma WaitingSt(s: Thread, m: Machine, i: nat)
      requires Shows(s, m) && i < |pendingStList|
      ensures |m.pendingSt| == |pendingStList| && ibDepth > 0
      ensures var p := m.pendingSt[i].pos;
        Holds(m, p) && pendingStList[i] == Req(addr(p), m.pendingSt[i].dispatch, p % ibDepth)
    {
      hide WindowShows, LogShows, PortsShow;
    }

    lemma ListSizes(s: Thread, m: Machine)
      requires Shows(s, m)
      ensures |m.pendingLd| == |pendingLdList| && |m.pendingSt| == |pendingStList|
    {
      hide WindowShows, LogShows, PortsShow;
    }

    method DropLd(i: nat, ghost s: Thread, ghost m: Machine)
      requires Shows(s, m) && i < |pendingLdList|
      modifies `pendingLdList, `hasCompleteOp
      ensures i < |m.pendingLd| && Shows(s, m.(pendingLd := Drop(m.pendingLd, i), hasCompleteOp := true))
      ensures pendingLdList == Drop(old(pendingLdList), i)
    {
      hide WindowShows, LogShows;
      pendingLdList := Drop(pendingLdList, i);
      hasCompleteOp := true;
    }

    method DropSt(i: nat, ghost s: Thread, ghost m: Machine)
      requires Shows(s, m) && i < |pendingStList|
      modifies `pendingStList, `hasCompleteOp
      ensures i < |m.pendingSt| && Shows(s, m.(pendingSt := Drop(m.pendingSt, i), hasCompleteOp := true))
      ensures pendingStList == Drop(old(pendingStList), i)
    {
      hide WindowShows, LogShows;
      pendingStList := Drop(pendingStList, i);
      hasCompleteOp := true;
    }

    // Offer every waiting load its port again.
    method RetryLoads(ghost s: Thread, ghost m: Machine)
      requires InOrder(s, m) && Shows(s, m)
      modifies `tLd, `availLd, `asked, `loads, `accesses, `window, `pendingLdList, `hasCompleteOp
      ensures Shows(s, LoadsRetried(s, m, 0))
    {
      hide Shows, InOrder, LoadsRetried, TryLoad;
      ghost var now := m;
      ListSizes(s, m);
      var i := 0;
      while i < |pendingLdList|
        invariant 0 <= i <= |pendingLdList| && |now.pendingLd| == |pendingLdList| && Shows(s, now) && InOrder(s, now)
        invariant LoadsRetried(s, now, i) == LoadsRetried(s, m, 0)
        decreases |pendingLdList| - i
      {
        WaitingLd(s, now, i);
        LoadRetry(s, now, i);
        ghost var p := now.pendingLd[i].pos;
        var ok := TryDispatchLd(pendingLdList[i], p, s, now);
        now := TryLoad(s, now, Request(p, pendingLdList[i].dispatch)).0;
        if ok {
          DropLd(i, s, now);
          now := now.(pendingLd := Drop(now.pendingLd, i), hasCompleteOp := true);
        } else {
          i := i + 1;
        }
      }
      LoadRetryEnds(s, now);
    }

    // Offer every waiting store its port again.
    method RetryStores(ghost s: Thread, ghost m: Machine)
      requires InOrder(s, m) && Shows(s, m)
      modifies `tSt, `availSt, `accesses, `window, `pendingStList, `hasCompleteOp
      ensures Shows(s, StoresRetried(s, m, 0))
    {
      hide Shows, InOrder, StoresRetried, TryStore;
      ghost var now := m;
      ListSizes(s, m);
      var i := 0;
      while i < |pendingStList|
        invariant 0 <= i <= |pendingStList| && |now.pendingSt| == |pendingStList| && Shows(s, now) && InOrder(s, now)
        invariant StoresRetried(s, now, i) == StoresRetried(s, m, 0)
        decreases |pendingStList| - i
      {
        WaitingSt(s, now, i);
        StoreRetry(s, now, i);
        ghost var p := now.pendingSt[i].pos;
        var ok := TryDispatchSt(pendingStList[i], p, s, now);
        now := TryStore(s, now, Request(p, pendingStList[i].dispatch)).0;
        if ok {
          DropSt(i, s, now);
          now := now.(pendingSt := Drop(now.pendingSt, i), hasCompleteOp := true);
        } else {
          i := i + 1;
        }
      }
      StoreRetryEnds(s, now);
    }

    // ---- The core's clock ----

    // The earliest event after now in the reorder window.
    method FindNextEvent(ghost s: Thread, ghost m: Machine)
      requires InOrder(s, m) && Shows(s, m) && Full(s)
      modifies `timeNextEvent
      ensures m.head <= |m.ops| && Shows(s, WithNextEvent(s, m))
    {
      hide Shows, ShowsButEvent, InOrder, Full;
      RobIsHeld(s, m);
      AnyEvent(s, m);
      NoteEvent(NEVER, s, m);
      var robLoad := Least(core.rob, winLoad);
      var pos: nat := winHead;
      ghost var p: nat := m.head;
      while robLoad > 0
        invariant p + robLoad == m.head + RobLoad(s, m) && m.head <= p
        invariant NextEvent(m, p, robLoad, timeNextEvent) == NextEvent(m, m.head, RobLoad(s, m), NEVER)
        invariant ibDepth > 0 && pos <= ibDepth && pos % ibDepth == p % ibDepth
        invariant ShowsButEvent(s, m)
      {
        WrapsToSlot(pos, p, ibDepth);
        if pos >= ibDepth {
          pos := 0;
        }
        StillInRob(s, m, p);
        var t := if window[pos].status == Pending then window[pos].dispatch else window[pos].complete;
        if tCpu < t < timeNextEvent {
          NoteEvent(t, s, m);
        }
        pos := pos + 1;
        p := p + 1;
        robLoad := robLoad - 1;
      }
      NextEventShown(s, m);
    }

    lemma AnyEvent(s: Thread, m: Machine)
      requires Shows(s, m)
      ensures ShowsButEvent(s, m)
    {
      hide WindowShows, ListsShow, LogShows;
    }

    method NoteEvent(t: nat, ghost s: Thread, ghost m: Machine)
      requires ShowsButEvent(s, m)
      modifies `timeNextEvent
      ensures ShowsButEvent(s, m) && timeNextEvent == t
    {
      hide WindowShows, ListsShow, LogShows;
      timeNextEvent := t;
    }

    lemma NextEventShown(s: Thread, m: Machine)
      requires ShowsButEvent(s, m)
      requires timeNextEvent == NextEvent(m, m.head, RobLoad(s, m), NEVER)
      ensures Shows(s, WithNextEvent(s, m))
    {
    }

    lemma StillInRob(s: Thread, m: Machine, p: nat)
      requires ShowsButEvent(s, m) && Full(s) && m.head <= p < |m.ops| && p < m.head + core.rob
      ensures ibDepth > 0 && p % ibDepth < |window| && m.now == tCpu
      ensures window[p % ibDepth].status == m.ops[p].status && window[p % ibDepth].dispatch == m.ops[p].dispatch
      ensures window[p % ibDepth].complete == m.ops[p].complete
    {
      var m' := m.(nextEvent := timeNextEvent);
      assert Shows(s, m');
      hide Shows, Full;
      StillHeld(s, m', p);
      ChildSlot(s, m', p);
      Clock(s, m');
    }

    // As Shows, whatever the next event is.
    ghost predicate ShowsButEvent(s: Thread, m: Machine)
      reads this
    {
      Shows(s, m.(nextEvent := timeNextEvent))
    }

    method SetTime(t: nat, ghost s: Thread, ghost m: Machine)
      requires Shows(s, m)
      modifies `tCpu
      ensures Shows(s, m.(now := t))
    {
      hide WindowShows, ListsShow, LogShows;
      tCpu := t;
    }

    method ClearCompleteOp(ghost s: Thread, ghost m: Machine)
      requires Shows(s, m)
      modifies `hasCompleteOp
      ensures Shows(s, m.(hasCompleteOp := false))
    {
      hide WindowShows, ListsShow, LogShows;
      hasCompleteOp := false;
    }

    // Let time pass up to cycle t: retry what waits for a port, look at the reorder
    // window, and find the next event. No counter is ever found at zero.
    method Advance(t: nat, ghost s: Thread, ghost m: Machine) returns (done: bool, panic: bool)
      requires Runs(s) && InOrder(s, m) && Shows(s, m) && Full(s) && t >= m.now
      modifies this
      ensures !panic && Full(s) && Shows(s, Advanced(s, m, t).0) && done == Advanced(s, m, t).1
    {
      hide Runs, Shows, InOrder, Advanced, Offered, SweptRob, Full, WithNextEvent;
      done, panic := false, false;
      Clock(s, m);
      if isDone {
        AdvanceWhenDone(s, m, t);
        return;
      }
      ghost var m2 := Offered(s, m, t);
      Offer(t, s, m);
      Clock(s, m2);
      if !hasCompleteOp && timeNextEvent > tCpu {
        AdvanceWhenIdle(s, m, t);
        return;
      }
      AdvanceWhenDue(s, m, t);
      panic := SweepRob(s, m2);
      FindNextEvent(s, SweptRob(s, m2));
      done := isDone;
      Clock(s, Advanced(s, m, t).0);
    }

    // Context::get_next_event: the next event of the window, or the one of its oldest
    // operation.
    method GetNextEvent(mode: bool, ghost s: Thread, ghost m: Machine) returns (t: nat)
      requires Shows(s, m) && Full(s) && m.head < |m.ops|
      ensures t == if mode then m.nextEvent else EventOf(m.ops[m.head])
    {
      hide Shows, Full;
      Clock(s, m);
      LoadTellsRest(s, m);
      ShownFits(s, m);
      StillHeld(s, m, m.head);
      ChildSlot(s, m, m.head);
      var op := window[winHead];
      t := if mode then timeNextEvent else if op.status == Pending then op.dispatch else op.complete;
    }

    method Offer(t: nat, ghost s: Thread, ghost m: Machine)
      requires InOrder(s, m) && Shows(s, m) && Full(s) && t >= m.now
      modifies `tCpu, `tLd, `availLd, `tSt, `availSt, `asked, `loads, `accesses, `window, `pendingLdList,
        `pendingStList, `hasCompleteOp
      ensures Full(s) && Shows(s, Offered(s, m, t))
    {
      hide Shows, InOrder, LoadsRetried, StoresRetried, Full;
      ghost var out := Offered(s, m, t);
      SetTime(t, s, m);
      RetryLoads(s, m.(now := t));
      RetryStores(s, LoadsRetried(s, m.(now := t), 0));
    }

    method SweepRob(ghost s: Thread, ghost m: Machine) returns (panic: bool)
      requires Runs(s) && InOrder(s, m) && Shows(s, m) && Full(s)
      modifies this
      ensures !panic && Full(s) && Shows(s, SweptRob(s, m))
    {
      hide Runs, Shows, InOrder, Swept, Full, RobLoad;
      ghost var out := SweptRob(s, m);
      ClearCompleteOp(s, m);
      panic := Sweep(s, m.(hasCompleteOp := false));
    }

    // The memory tells when the load in a slot completes.
    method CompleteOp(pos: nat, complete: nat, ghost p: nat, ghost s: Thread, ghost m: Machine)
      requires InOrder(s, m) && Shows(s, m) && Full(s) && Holds(m, p) && ibDepth > 0 && pos == p % ibDepth
      requires Possible(m, Loaded(p, complete))
      modifies `window, `hasCompleteOp
      ensures Full(s) && Shows(s, ProgramOrder.CompleteOp(m, p, complete))
    {
      hide WindowShows, ListsShow, LogShows, InOrder;
      SlotHolds(p, s, m);
      SetOp(pos, window[pos].(complete := complete), p, m.ops[p].(complete := complete), s, m);
      hasCompleteOp := true;
    }

    // ---- The first fill ----

    constructor (g: Graph, genAddr: (nat, nat) -> seq<nat>, core: Core, l1: Cache, first: nat, last: nat, watermark: nat)
      ensures this.g == g && this.genAddr == genAddr && this.core == core && this.l1 == l1
      ensures firstStep == first && globalControlMax == last && this.watermark == watermark
      ensures forall p: nat :: addr(p) == AddressAt(g, genAddr, first, p)
      ensures Unfilled()
    {
      this.g, this.genAddr, this.core, this.l1 := g, genAddr, core, l1;
      firstStep, globalControlMax, this.watermark := first, last, watermark;
      addr := (p: nat) => AddressAt(g, genAddr, first, p);
      fetchedGlobalStep, window, ibDepth, winHead, winLoad := first, [], core.rob * 4, 0, 0;
      tCpu, hasCompleteOp, isDone, timeNextEvent := 0, false, false, 0;
      tAlu, tLd, tSt, availAlu, availLd, availSt := 0, 0, 0, 0, 0, 0;
      pendingLdList, pendingStList, accesses, asked, loads := [], [], [], 0, 0;
    }

    ghost predicate Unfilled()
      reads this
    {
      && fetchedGlobalStep == firstStep && ibDepth == core.rob * 4 && winHead == 0 && winLoad == 0
      && !hasCompleteOp && !isDone && pendingLdList == [] && pendingStList == [] && accesses == []
      && asked == 0 && loads == 0
    }

    method InitPorts()
      modifies `tCpu, `tAlu, `availAlu, `tLd, `availLd, `tSt, `availSt
      ensures tCpu == 0 && tAlu == tLd == tSt == 1
      ensures availAlu == core.alu && availLd == core.ld && availSt == core.st
    {
      tCpu, tAlu, tLd, tSt := 0, 1, 1, 1;
      availAlu, availLd, availSt := core.alu, core.ld, core.st;
    }

    lemma NothingFetched(s: Thread, n: nat)
      requires Runs(s) && fetchedGlobalStep == firstStep && winLoad == 0 && n >= 1
      requires ibDepth == n * watermark == |window|
      ensures Fetching(s, 0, Unstarted(s).ops, Fetched()) && PointsAtNext(0)
    {
      hide Walk, IsLaidOut, Linked, Grouped, Exact, FreshOp, SlotOf;
      ThreadIs(s);
      MulLe(1, n, watermark);
      MultipleOf(n, watermark);
    }

    lemma FirstSteps(s: Thread, n: nat, left: nat)
      requires Runs(s) && 0 < left <= n <= globalControlMax - firstStep
      requires fetchedGlobalStep == firstStep + n - left && ibDepth == n * watermark
      ensures Grouped(g) && StepHasRoom(s, 0, Unstarted(s).ops, Fetched())
      ensures (fetchedGlobalStep + 1 - firstStep) * watermark == Fetched() + watermark
    {
      hide Walk, IsLaidOut, Linked, Grouped, Exact, FreshOp;
      ThreadIs(s);
      assert (fetchedGlobalStep + 1 - firstStep) * watermark == Fetched() + watermark;
      MulLe(fetchedGlobalStep + 1 - firstStep, n, watermark);
      MulLe(n, s.steps, watermark);
    }

    lemma StepTaken(s: Thread, ops: seq<OpState>, base: nat, pos: nat, before: seq<Op>)
      requires FetchedTo(s, 0, ops, base + watermark, pos, before) && fetchedGlobalStep >= firstStep
      requires (fetchedGlobalStep - firstStep) * watermark == base + watermark
      ensures Fetching(s, 0, ops, Fetched()) && PointsAtNext(pos)
    {
      hide Fetching;
      assert ibDepth > 0 by { FetchingHasSlots(s, ops, base + watermark); }
    }

    lemma FetchingHasSlots(s: Thread, ops: seq<OpState>, p: nat)
      requires Fetching(s, 0, ops, p)
      ensures ibDepth > 0
    {
    }

    lemma FirstWindow(s: Thread, n: nat)
      requires Runs(s) && 1 <= n <= globalControlMax - firstStep && winHead == 0
      requires fetchedGlobalStep == firstStep + n && ibDepth == n * watermark
      requires Fetching(s, 0, Unstarted(s).ops, Fetched())
      ensures WindowShows(s, 0, Unstarted(s).ops) && winLoad == ibDepth
    {
      hide Walk, IsLaidOut, Linked, Grouped, Exact, FreshOp, SlotOf, SlotFits;
      ThreadIs(s);
      MultipleOf(n, watermark);
      forall slot | 0 <= slot < |window| ensures SlotFits(s, window, slot) {
        FilledSlotFits(s, addr, Unstarted(s).ops, window, slot);
      }
      DivUnique(0, ibDepth, 0, 0);
    }

    // Size the window and fill it with whole global steps.
    method FillWindow(ghost s: Thread)
      requires Runs(s) && Unfilled()
      modifies `ibDepth, `window, `winLoad, `fetchedGlobalStep
      ensures WindowShows(s, 0, Unstarted(s).ops) && winLoad == ibDepth && Roomy()
    {
      hide Runs, Fetching, Slots, Unstarted, WindowShows, PointsAtNext, StepHasRoom, FetchedTo, Grouped;
      ThreadIs(s);
      ghost var limit: nat := globalControlMax - firstStep;
      var numSteps := ibDepth / watermark;
      if numSteps < 2 {
        numSteps := 2;
      }
      var maxSteps := globalControlMax - fetchedGlobalStep;
      if numSteps >= maxSteps {
        numSteps := maxSteps;
      }
      WindowIsLarge(core.rob, watermark, maxSteps);
      ibDepth := numSteps * watermark;
      window := seq(ibDepth, i => EMPTY_OP);
      var pos := 0;
      ghost var n: nat, ops := numSteps, Unstarted(s).ops;
      NothingFetched(s, n);
      while numSteps > 0
        invariant 0 <= numSteps <= n <= limit && fetchedGlobalStep == firstStep + n - numSteps && ibDepth == n * watermark
        invariant Fetching(s, 0, ops, Fetched()) && PointsAtNext(pos)
      {
        FirstSteps(s, n, numSteps);
        ghost var base, before := Fetched(), window;
        PointsAtStart(pos);
        pos := FetchGlobalStep(pos, s, 0, ops, base);
        StepTaken(s, ops, base, pos, before);
        numSteps := numSteps - 1;
      }
      FirstWindow(s, n);
    }

    lemma PointsAtStart(pos: nat)
      requires PointsAtNext(pos)
      ensures ibDepth > 0 && pos <= ibDepth && pos % ibDepth == Fetched() % ibDepth
    {
    }

    lemma FirstState(s: Thread)
      requires Runs(s) && WindowShows(s, 0, Unstarted(s).ops) && pendingLdList == [] && pendingStList == []
      requires accesses == [] && asked == 0 && loads == 0 && !hasCompleteOp && !isDone && timeNextEvent == NEVER
      requires tCpu == 0 && tAlu == tLd == tSt == 1
      requires availAlu == core.alu && availLd == core.ld && availSt == core.st
      ensures Shows(s, Unstarted(s))
    {
      hide Runs, WindowShows, FreshOp;
      ThreadIs(s);
      WindowParts(s, Unstarted(s));
    }

    method SetNextEvent(t: nat, ghost s: Thread, ghost m: Machine)
      requires Shows(s, m)
      modifies `timeNextEvent
      ensures Shows(s, m.(nextEvent := t))
    {
      hide WindowShows, ListsShow, LogShows;
      timeNextEvent := t;
    }

    // Dispatch the operation of one slot of the first reorder window.
    method DispatchFirst(pos: nat, ghost s: Thread)
      requires Runnable(s) && pos < Total(s) && Shows(s, Filled(s, pos)) && pos < Fetched() && pos < ibDepth
      modifies `tAlu, `availAlu, `tLd, `availLd, `tSt, `availSt, `asked, `loads, `accesses, `window,
        `pendingLdList, `pendingStList, `timeNextEvent
      ensures Shows(s, Filled(s, pos + 1))
    {
      hide Shows, Runnable, ProgramOrder.Dispatch, Able, Filled;
      ghost var m := Filled(s, pos);
      FilledNext(s, pos);
      DivUnique(pos, ibDepth, 0, pos);
      FirstHeld(s, m, pos);
      Dispatch(pos, pos, s, m);
      ghost var m1 := ProgramOrder.Dispatch(s, m, pos);
      FirstHeld(s, m1, pos);
      ChildSlot(s, m1, pos);
      Clock(s, m1);
      var t := if window[pos].status == Pending then window[pos].dispatch else window[pos].complete;
      SetNextEvent(Least(t, timeNextEvent), s, m1);
    }

    lemma FirstHeld(s: Thread, m: Machine, p: nat)
      requires Shows(s, m) && m.head == 0 && p < Fetched()
      ensures Holds(m, p)
    {
    }

    // The window is filled and its reorder window dispatched.
    method InitWindow(ghost s: Thread)
      requires Runs(s) && Unfilled()
      modifies this
      ensures Shows(s, Start(s)) && Full(s)
    {
      hide Runs, WindowShows, Shows, Unstarted, Runnable, Filled, Full;
      ThreadRuns(s);
      FillWindow(s);
      InitPorts();
      winLoad := ibDepth;
      winHead := 0;
      var robLoad := Least(core.rob, winLoad);
      var robTail := winHead + robLoad;
      timeNextEvent := NEVER;
      FirstState(s);
      FilledNone(s);
      RobOfStart(s);
      var pos := winHead;
      while pos < robTail
        modifies `tAlu, `availAlu, `tLd, `availLd, `tSt, `availSt, `asked, `loads, `accesses, `window,
          `pendingLdList, `pendingStList, `timeNextEvent
        invariant 0 <= pos <= robTail && Shows(s, Filled(s, pos))
      {
        DispatchFirst(pos, s);
        pos := pos + 1;
      }
    }

    lemma ThreadRuns(s: Thread)
      requires Runs(s)
      ensures Runnable(s) && s.core == core
    {
    }

    lemma RobOfStart(s: Thread)
      requires Runs(s) && WindowShows(s, 0, Unstarted(s).ops) && winLoad == ibDepth && Roomy()
      ensures Least(core.rob, winLoad) == Least(core.rob, Total(s)) && Full(s)
      ensures fetchedGlobalStep >= firstStep && Least(core.rob, winLoad) <= Fetched() && winLoad <= ibDepth
    {
      hide Walk, IsLaidOut, Linked, Grouped, Exact, Slots, AllFit, FreshOp;
      ThreadIs(s);
    }
  }
}
