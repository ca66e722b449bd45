// Addresses are conserved: what the host asked for, what sits in the queues, what
// the command bus carried and what came back always add up.
module Conservation {
  import opened Wrappers
  import opened SystemConfiguration
  import opened AddressMapping
  import opened BankState
  import opened Scheduler
  import opened QueueInvariant
  import opened Channel
  import opened TimingSafety
  import opened ReadPipeline
  import opened Sequences

  // How much one packet counts.
  type Weight = BusPacket -> nat

  // The packets of one address that a count is about.
  function ReadOf(a: nat): Weight {
    (p: BusPacket) => if p.IsRead() && p.address == a then 1 else 0
  }

  function ColumnOf(a: nat): Weight {
    (p: BusPacket) => if p.IsColumn() && p.address == a then 1 else 0
  }

  function ActivateOf(a: nat): Weight {
    (p: BusPacket) => if p.kind == ACTIVATE && p.address == a then 1 else 0
  }

  function InQueue(w: Weight, queue: seq<BusPacket>): nat {
    if queue == [] then 0 else InQueue(w, queue[..|queue| - 1]) + w(queue[|queue| - 1])
  }

  function InSlots(w: Weight, slots: seq<seq<BusPacket>>): nat {
    if slots == [] then 0 else InSlots(w, slots[..|slots| - 1]) + InQueue(w, slots[|slots| - 1])
  }

  function InQueues(w: Weight, queues: seq<seq<seq<BusPacket>>>): nat {
    if queues == [] then 0 else InQueues(w, queues[..|queues| - 1]) + InSlots(w, queues[|queues| - 1])
  }

  function OnBus(w: Weight, cmd: Option<BusPacket>): nat {
    if cmd.Some? then w(cmd.value) else 0
  }

  function InHistory(w: Weight, issued: seq<Option<BusPacket>>): nat {
    if issued == [] then 0 else InHistory(w, issued[..|issued| - 1]) + OnBus(w, issued[|issued| - 1])
  }

  // ---- Sequences of packets ----

  lemma {:induction false} QueueConcat(w: Weight, a: seq<BusPacket>, b: seq<BusPacket>)
    ensures InQueue(w, a + b) == InQueue(w, a) + InQueue(w, b)
  {
    if b == [] {
      assert a + b == a;
    } else {
      var n := |b| - 1;
      assert (a + b)[..|a + b| - 1] == a + b[..n];
      QueueConcat(w, a, b[..n]);
    }
  }

  lemma QueueSingle(w: Weight, p: BusPacket)
    ensures InQueue(w, [p]) == w(p)
  {
    assert [p][..0] == [];
  }

  lemma {:induction false} QueueRemove(w: Weight, queue: seq<BusPacket>, i: nat)
    requires i < |queue|
    ensures InQueue(w, queue) == InQueue(w, Drop(queue, i)) + w(queue[i])
  {
    var n := |queue| - 1;
    if i == n {
      assert Drop(queue, i) == queue[..n];
    } else {
      assert Drop(queue, i)[..n - 1] == Drop(queue[..n], i);
      QueueRemove(w, queue[..n], i);
    }
  }

  lemma {:induction false} SlotsUpdate(w: Weight, slots: seq<seq<BusPacket>>, i: nat, queue: seq<BusPacket>)
    requires i < |slots|
    ensures InSlots(w, slots[i := queue]) + InQueue(w, slots[i]) == InSlots(w, slots) + InQueue(w, queue)
  {
    var n := |slots| - 1;
    if i == n {
      assert slots[i := queue][..n] == slots[..n];
    } else {
      assert slots[i := queue][..n] == slots[..n][i := queue];
      SlotsUpdate(w, slots[..n], i, queue);
    }
  }

  lemma {:induction false} QueuesUpdate(w: Weight, queues: seq<seq<seq<BusPacket>>>, r: nat, i: nat, queue: seq<BusPacket>)
    requires r < |queues| && i < |queues[r]|
    ensures InQueues(w, Put(queues, r, i, queue)) + InQueue(w, queues[r][i]) == InQueues(w, queues) + InQueue(w, queue)
  {
    var n := |queues| - 1;
    SlotsUpdate(w, queues[r], i, queue);
    if r == n {
      assert Put(queues, r, i, queue)[..n] == queues[..n];
    } else {
      assert Put(queues, r, i, queue)[..n] == Put(queues[..n], r, i, queue);
      QueuesUpdate(w, queues[..n], r, i, queue);
    }
  }

  // A pair of packets joins the back of one queue.
  lemma QueuedPair(w: Weight, queues: seq<seq<seq<BusPacket>>>, r: nat, i: nat, x: BusPacket, y: BusPacket)
    requires r < |queues| && i < |queues[r]|
    ensures InQueues(w, Put(queues, r, i, queues[r][i] + [x, y])) == InQueues(w, queues) + w(x) + w(y)
  {
    QueuesUpdate(w, queues, r, i, queues[r][i] + [x, y]);
    QueueConcat(w, queues[r][i], [x, y]);
    assert [x, y] == [x] + [y];
    QueueConcat(w, [x], [y]);
    QueueSingle(w, x);
    QueueSingle(w, y);
  }

  // ---- The scheduler ----

  // A count that neither closes nor refreshes carry.
  ghost predicate Counts(w: Weight) {
    forall p: BusPacket :: p.kind == PRECHARGE || p.kind == REFRESH ==> w(p) == 0
  }

  // A count that loses nothing when an unneeded activate is dropped: it ignores
  // activates, or none is ever dropped.
  ghost predicate Exact(c: Config, w: Weight) {
    c.policy == OpenPage ==> forall p: BusPacket :: p.kind == ACTIVATE ==> w(p) == 0
  }

  lemma TakeFromConserves(c: Config, w: Weight, q: QueueState, cur: Cursor, i: nat)
    requires Shape(c, q) && InGrid(c, cur) && i < |QueueAt(c, q, cur)|
    requires QueueAt(c, q, cur)[i].rank < c.NumRanks() && QueueAt(c, q, cur)[i].bank < c.NumBanks()
    ensures InQueues(w, q.queues) >= InQueues(w, TakeFrom(c, q, cur, i).queues) + w(QueueAt(c, q, cur)[i])
    ensures Exact(c, w) ==>
      InQueues(w, q.queues) == InQueues(w, TakeFrom(c, q, cur, i).queues) + w(QueueAt(c, q, cur)[i])
  {
    var queue := QueueAt(c, q, cur);
    QueueRemove(w, queue, i);
    if c.policy == OpenPage && i > 0 && queue[i - 1].kind == ACTIVATE {
      var rest := queue[..i - 1] + queue[i + 1..];
      assert Drop(queue, i)[i - 1] == queue[i - 1];
      assert Drop(Drop(queue, i), i - 1) == rest;
      QueueRemove(w, Drop(queue, i), i - 1);
      QueuesUpdate(w, q.queues, cur.rank, Slot(c, cur.bank), rest);
    } else {
      QueuesUpdate(w, q.queues, cur.rank, Slot(c, cur.bank), Drop(queue, i));
    }
  }

  lemma RefreshWorkConserves(c: Config, t: int, banks: BankTable, q: QueueState, w: Weight)
    requires TableShape(c, banks) && Shape(c, q) && Counts(w)
    ensures var (q', p) := RefreshWork(c, t, banks, q);
      InQueues(w, q.queues) == InQueues(w, q'.queues) + OnBus(w, p)
  {
    hide Issuable, InQueues, InQueue, Put;
    if q.refreshWaiting {
      var r := q.refreshRank;
      var b := FirstBusy(t, banks[r]);
      if b < c.NumBanks() && banks[r][b].state == RowActive {
        var queue := q.queues[r][Slot(c, b)];
        var j := FirstTo(queue, b, banks[r][b].openRow);
        if j < |queue| {
          QueueRemove(w, queue, j);
          QueuesUpdate(w, q.queues, r, Slot(c, b), Drop(queue, j));
        }
      }
    }
  }

  lemma ScanQueuesConserves(c: Config, t: int, banks: BankTable, q: QueueState, w: Weight)
    requires TableShape(c, banks) && Shape(c, q)
    ensures var (q', p) := ScanQueues(c, t, banks, q);
      && InQueues(w, q.queues) >= InQueues(w, q'.queues) + OnBus(w, p)
      && (Exact(c, w) ==> InQueues(w, q.queues) == InQueues(w, q'.queues) + OnBus(w, p))
  {
    hide TakeFrom, Exact;
    var k := FirstReady(c, t, banks, q);
    if k < Lap(c) {
      var cur := AdvanceQueue(c, q.next, k);
      TakeFromConserves(c, w, q, cur, FirstEligible(c, t, banks, q, QueueAt(c, q, cur)));
    }
  }

  lemma PopConserves(c: Config, t: int, banks: BankTable, q: QueueState, w: Weight)
    requires TableShape(c, banks) && Shape(c, q) && Counts(w)
    ensures var (q', p) := PopSpec(c, t, banks, q);
      && InQueues(w, q.queues) >= InQueues(w, q'.queues) + OnBus(w, p)
      && (Exact(c, w) ==> InQueues(w, q.queues) == InQueues(w, q'.queues) + OnBus(w, p))
  {
    hide RefreshWork, ScanQueues, Exact, AgeWindow;
    RefreshWorkConserves(c, t, banks, AgeWindows(q), w);
    ScanQueuesConserves(c, t, banks, RefreshWork(c, t, banks, AgeWindows(q)).0, w);
  }

  // ---- Reads in flight ----

  function PacketOf(a: nat): Weight {
    (p: BusPacket) => if p.address == a then 1 else 0
  }

  function InRank(a: nat, k: RankState): nat {
    InQueue(PacketOf(a), k.readReturnPacket) + OnBus(PacketOf(a), k.outgoing)
  }

  function InRanks(a: nat, ranks: seq<RankState>): nat {
    if ranks == [] then 0 else InRanks(a, ranks[..|ranks| - 1]) + InRank(a, ranks[|ranks| - 1])
  }

  function Times(a: nat, s: seq<nat>): nat {
    if s == [] then 0 else Times(a, s[..|s| - 1]) + if s[|s| - 1] == a then 1 else 0
  }

  // Reads of address a that have been queued and whose data has not been returned.
  function InFlight(a: nat, s: ChannelState): nat {
    InQueues(ReadOf(a), s.mc.queue.queues) + OnBus(ReadOf(a), s.mc.outgoingCmd) + InRanks(a, s.ranks)
    + Times(a, s.mc.returnTransaction)
  }

  // Every queued read is either still in flight or already returned: the list of
  // pending reads is exactly what is in flight.
  ghost predicate Matched(s: ChannelState) {
    forall a :: Times(a, s.mc.pendingReads) == InFlight(a, s)
  }

  lemma {:induction false} TimesConcat(a: nat, s: seq<nat>, u: seq<nat>)
    ensures Times(a, s + u) == Times(a, s) + Times(a, u)
  {
    if u == [] {
      assert s + u == s;
    } else {
      assert (s + u)[..|s + u| - 1] == s + u[..|u| - 1];
      TimesConcat(a, s, u[..|u| - 1]);
    }
  }

  lemma {:induction false} TimesRemove(a: nat, s: seq<nat>, i: nat)
    requires i < |s|
    ensures Times(a, s) == Times(a, Drop(s, i)) + if s[i] == a then 1 else 0
  {
    var n := |s| - 1;
    if i == n {
      assert Drop(s, i) == s[..n];
    } else {
      assert Drop(s, i)[..n - 1] == Drop(s[..n], i);
      TimesRemove(a, s[..n], i);
    }
  }

  lemma {:induction false} TimesOfMember(a: nat, s: seq<nat>)
    ensures Times(a, s) > 0 <==> a in s
  {
    if s != [] {
      TimesOfMember(a, s[..|s| - 1]);
      assert s == s[..|s| - 1] + [s[|s| - 1]];
    }
  }

  lemma {:induction false} RanksUpdate(a: nat, ranks: seq<RankState>, r: nat, k: RankState)
    requires r < |ranks|
    ensures InRanks(a, ranks[r := k]) + InRank(a, ranks[r]) == InRanks(a, ranks) + InRank(a, k)
  {
    var n := |ranks| - 1;
    if r == n {
      assert ranks[r := k][..n] == ranks[..n];
    } else {
      assert ranks[r := k][..n] == ranks[..n][r := k];
      RanksUpdate(a, ranks[..n], r, k);
    }
  }

  // Ranks that agree on their read pipelines hold the same reads.
  lemma {:induction false} SameRanks(a: nat, ranks: seq<RankState>, ranks': seq<RankState>)
    requires |ranks'| == |ranks|
    requires forall r :: 0 <= r < |ranks| ==>
      ranks'[r].readReturnPacket == ranks[r].readReturnPacket && ranks'[r].outgoing == ranks[r].outgoing
    ensures InRanks(a, ranks') == InRanks(a, ranks)
  {
    if ranks != [] {
      SameRanks(a, ranks[..|ranks| - 1], ranks'[..|ranks| - 1]);
    }
  }

  // ---- The ranks' outputs ----

  lemma RankUpdateConserves(c: Config, a: nat, k: RankState)
    requires c.Valid() && Spaced(c, k)
    ensures InRank(a, k) == InRank(a, RankUpdate(c, k).0) + OnBus(PacketOf(a), RankUpdate(c, k).1)
  {
    var w := k.readReturnCountdown;
    if |w| > 0 && Dec32(w[0]) == 0 {
      SlotIsFree(c, k);
      hide Spaced, InQueue;
      QueueRemove(PacketOf(a), k.readReturnPacket, 0);
      assert Drop(k.readReturnPacket, 0) == k.readReturnPacket[1..];
    }
  }

  lemma OutputCount(a: nat, out: Option<BusPacket>)
    ensures Times(a, AddressesIn(out)) == OnBus(PacketOf(a), out)
  {
    if out.Some? {
      assert [out.value.address][..0] == [];
    }
  }

  lemma {:induction false} OutputsConserve(c: Config, a: nat, s: ChannelState, n: nat)
    requires c.Valid() && WellFormed(c, s) && n <= c.NumRanks()
    requires forall r :: 0 <= r < c.NumRanks() ==> Spaced(c, s.ranks[r])
    ensures InRanks(a, s.ranks[..n]) == InRanks(a, MovedRanks(c, s)[..n]) + Times(a, OutputsUpTo(c, s, n))
  {
    hide RankUpdate, Spaced, InRank, MovedRanks, AddressesIn, Shape, TableOf, TableShape;
    if n > 0 {
      OutputsConserve(c, a, s, n - 1);
      RankUpdateConserves(c, a, s.ranks[n - 1]);
      assert s.ranks[..n][..n - 1] == s.ranks[..n - 1];
      assert MovedRanks(c, s)[..n][..n - 1] == MovedRanks(c, s)[..n - 1];
      TimesConcat(a, OutputsUpTo(c, s, n - 1), AddressesIn(Output(c, s, n - 1)));
      OutputCount(a, Output(c, s, n - 1));
    }
  }

  lemma UpdateRanksConserves(c: Config, s: ChannelState)
    requires c.Valid() && WellFormed(c, s) && UpdateRanks(c, s).Ok? && Matched(s)
    requires forall r :: 0 <= r < c.NumRanks() ==> Spaced(c, s.ranks[r])
    ensures Matched(UpdateRanks(c, s).value)
  {
    hide RankUpdate, Spaced, MovedRanks, OutputsUpTo, Output, TableOf, TableShape, InRanks;
    var s' := UpdateRanks(c, s).value;
    forall a ensures Times(a, s'.mc.pendingReads) == InFlight(a, s') {
      assert Times(a, s.mc.pendingReads) == InFlight(a, s);
      OutputsConserve(c, a, s, c.NumRanks());
      assert s.ranks[..c.NumRanks()] == s.ranks && s'.ranks[..c.NumRanks()] == s'.ranks;
      TimesConcat(a, s.mc.returnTransaction, OutputsUpTo(c, s, c.NumRanks()));
    }
  }

  // ---- The controller's phases ----

  lemma DeliverCommandConserves(c: Config, s: ChannelState)
    requires WellFormed(c, s) && DeliverCommand(c, s).Ok? && Matched(s)
    ensures Matched(DeliverCommand(c, s).value)
  {
    hide Accepts, Apply;
    var s' := DeliverCommand(c, s).value;
    if s.mc.outgoingCmd.Some? && s'.mc.outgoingCmd.None? {
      var p := s.mc.outgoingCmd.value;
      var k, k' := s.ranks[p.rank], s'.ranks[p.rank];
      forall a ensures Times(a, s'.mc.pendingReads) == InFlight(a, s') {
        assert Times(a, s.mc.pendingReads) == InFlight(a, s);
        RanksUpdate(a, s.ranks, p.rank, k');
        if p.IsRead() {
          QueueConcat(PacketOf(a), k.readReturnPacket, [p.(kind := DATA)]);
          QueueSingle(PacketOf(a), p.(kind := DATA));
        }
      }
    } else {
      assert forall a :: InFlight(a, s') == InFlight(a, s);
    }
  }

  lemma IssueCommandConserves(c: Config, s: ChannelState)
    requires c.Valid() && WellFormed(c, s) && s.mc.outgoingCmd.None? && Matched(s)
    ensures IssueCommand(c, s).Ok? && Matched(IssueCommand(c, s).value)
  {
    hide PopSpec, IssueAll;
    SentState(c, s);
    var s' := IssueCommand(c, s).value;
    forall a ensures Times(a, s'.mc.pendingReads) == InFlight(a, s') {
      assert Times(a, s.mc.pendingReads) == InFlight(a, s);
      PopConserves(c, s.clock, s.mc.banks, s.mc.queue, ReadOf(a));
    }
  }

  lemma ExpandTransactionConserves(c: Config, s: ChannelState)
    requires c.Valid() && TimingSent(c, s) && Matched(s)
    ensures ExpandTransaction(c, s).Ok? && Matched(ExpandTransaction(c, s).value)
  {
    hide RankOK, PowerFlags, Decode, Put, ExpandTransaction, Tracking, InQueues, InRanks, QueuesOK, FirstWithRoom,
         BanksOK, Static, BareReady, Fill, Paired, CountersOK, SameTiming;
    var i := FirstWithRoom(c, s.mc.queue, s.mc.transactionQueue);
    if i < |s.mc.transactionQueue| {
      var tr := s.mc.transactionQueue[i];
      var cur := Target(c, tr);
      QueueIsShort(c, s.clock + 1, s.mc.banks, s.mc.queue, cur);
      ExpandedState(c, s);
      var s' := ExpandTransaction(c, s).value;
      forall a ensures Times(a, s'.mc.pendingReads) == InFlight(a, s') {
        assert Times(a, s.mc.pendingReads) == InFlight(a, s);
        QueuedPair(ReadOf(a), s.mc.queue.queues, cur.rank, Slot(c, cur.bank),
                   CommandFor(c, ACTIVATE, tr), CommandFor(c, CommandKind(c, tr), tr));
        TimesConcat(a, s.mc.pendingReads, [tr.address]);
        assert [tr.address][..0] == [];
      }
    } else {
      ExpandedState(c, s);
      assert forall a :: Times(a, s.mc.pendingReads) == InFlight(a, s);
    }
  }

  lemma ReturnReadConserves(c: Config, s: ChannelState)
    requires WellFormed(c, s) && Matched(s)
    ensures ReturnRead(c, s).Ok? && Matched(ReturnRead(c, s).value)
  {
    hide Shape, TableOf, TableShape, InRanks;
    var m := s.mc;
    if m.returnTransaction != [] {
      var a0 := m.returnTransaction[0];
      TimesOfMember(a0, m.returnTransaction);
      TimesOfMember(a0, m.pendingReads);
      assert Times(a0, m.pendingReads) == InFlight(a0, s);
      var i := IndexOf(m.pendingReads, a0);
      assert m.pendingReads[..|m.pendingReads|] == m.pendingReads;
      var s' := ReturnRead(c, s).value;
      assert Drop(m.returnTransaction, 0) == s'.mc.returnTransaction;
      forall a ensures Times(a, s'.mc.pendingReads) == InFlight(a, s') {
        assert Times(a, m.pendingReads) == InFlight(a, s);
        TimesRemove(a, m.pendingReads, i);
        TimesRemove(a, m.returnTransaction, 0);
      }
    }
  }

  // Phases that move no read.
  lemma UntouchedMatch(s: ChannelState, s': ChannelState)
    requires Matched(s) && |s'.ranks| == |s.ranks|
    requires s'.mc.pendingReads == s.mc.pendingReads && s'.mc.returnTransaction == s.mc.returnTransaction
    requires s'.mc.queue.queues == s.mc.queue.queues && s'.mc.outgoingCmd == s.mc.outgoingCmd
    requires forall r :: 0 <= r < |s.ranks| ==>
      s'.ranks[r].readReturnPacket == s.ranks[r].readReturnPacket && s'.ranks[r].outgoing == s.ranks[r].outgoing
    ensures Matched(s')
  {
    forall a ensures Times(a, s'.mc.pendingReads) == InFlight(a, s') {
      assert Times(a, s.mc.pendingReads) == InFlight(a, s);
      SameRanks(a, s.ranks, s'.ranks);
    }
  }

  lemma ManagePowerConserves(c: Config, s: ChannelState)
    requires WellFormed(c, s) && ManagePower(c, s).Ok? && Matched(s)
    ensures Matched(ManagePower(c, s).value)
  {
    if c.useLowPower {
      PowerMovesNoRead(c, s, c.NumRanks());
      UntouchedMatch(s, ManagePower(c, s).value);
    }
  }

  lemma {:induction false} PowerMovesNoRead(c: Config, s: ChannelState, n: nat)
    requires WellFormed(c, s) && n <= c.NumRanks() && PowerRanks(c, s, n).Ok?
    ensures var s' := PowerRanks(c, s, n).value;
      && s'.mc == s.mc.(banks := s'.mc.banks, powerDown := s'.mc.powerDown)
      && s'.pending == s.pending && s'.clock == s.clock
      && |s'.ranks| == |s.ranks|
      && forall r :: 0 <= r < |s.ranks| ==>
           && s'.ranks[r].readReturnPacket == s.ranks[r].readReturnPacket && s'.ranks[r].outgoing == s.ranks[r].outgoing
           && s'.ranks[r].readReturnCountdown == s.ranks[r].readReturnCountdown
           && s'.ranks[r].dataCyclesLeft == s.ranks[r].dataCyclesLeft
  {
    hide RankQueuesEmpty, PowerOne, PowerRanks, Shape;
    if n == 0 {
      PowerRanksStart(c, s);
    } else {
      PowerRanksGo(c, s, n - 1);
      PowerRanksStep(c, s, n - 1);
      PowerMovesNoRead(c, s, n - 1);
      var s1 := PowerRanks(c, s, n - 1).value;
      PowerOneMovesNoRead(c, s1.clock, s1.mc.banks[n - 1], s1.mc.powerDown[n - 1], RankQueuesEmpty(c, s1.mc.queue, n - 1),
                          s1.ranks[n - 1]);
    }
  }

  lemma PowerRanksGo(c: Config, s: ChannelState, n: nat)
    requires WellFormed(c, s) && n < c.NumRanks() && PowerRanks(c, s, n + 1).Ok?
    ensures PowerRanks(c, s, n).Ok?
  {
    hide PowerOne, RankQueuesEmpty;
  }

  lemma PowerOneMovesNoRead(c: Config, t: int, row: seq<Bank>, flag: bool, empty: bool, k: RankState)
    requires |row| > 0 && PowerOne(c, t, row, flag, empty, k).Ok?
    ensures var k' := PowerOne(c, t, row, flag, empty, k).value.2;
      && k'.readReturnPacket == k.readReturnPacket && k'.readReturnCountdown == k.readReturnCountdown
      && k'.outgoing == k.outgoing && k'.dataCyclesLeft == k.dataCyclesLeft
  {
  }

  lemma InitialMatched(c: Config)
    ensures Matched(Initial(c))
  {
    var s := Initial(c);
    forall a ensures Times(a, s.mc.pendingReads) == InFlight(a, s) {
      NothingQueued(ReadOf(a), s.mc.queue.queues);
      NothingHeld(a, s.ranks);
    }
  }

  lemma {:induction false} NothingQueued(w: Weight, queues: seq<seq<seq<BusPacket>>>)
    requires forall r :: 0 <= r < |queues| ==> forall i :: 0 <= i < |queues[r]| ==> queues[r][i] == []
    ensures InQueues(w, queues) == 0
  {
    if queues != [] {
      NothingQueued(w, queues[..|queues| - 1]);
      EmptySlots(w, queues[|queues| - 1]);
    }
  }

  lemma {:induction false} EmptySlots(w: Weight, slots: seq<seq<BusPacket>>)
    requires forall i :: 0 <= i < |slots| ==> slots[i] == []
    ensures InSlots(w, slots) == 0
  {
    if slots != [] {
      EmptySlots(w, slots[..|slots| - 1]);
    }
  }

  lemma {:induction false} NothingHeld(a: nat, ranks: seq<RankState>)
    requires forall r :: 0 <= r < |ranks| ==> ranks[r].readReturnPacket == [] && ranks[r].outgoing.None?
    ensures InRanks(a, ranks) == 0
  {
    if ranks != [] {
      NothingHeld(a, ranks[..|ranks| - 1]);
    }
  }
}
