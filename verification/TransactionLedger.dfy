// Every transaction is turned into exactly one column access, preceded in closed page
// by exactly one activate and in open page by at most one, and every read that was
// asked for is still waiting, pending or returned exactly once.
module TransactionLedger {
  import opened SystemConfiguration
  import opened AddressMapping
  import opened BankState
  import opened Scheduler
  import opened QueueInvariant
  import opened Channel
  import opened TimingSafety
  import opened ReadPipeline
  import opened Conservation
  import opened ChannelSafety
  import opened Sequences
  import opened Runs

  function ReadsAmong(a: nat, trs: seq<Transaction>): nat {
    if trs == [] then 0
    else
      var tr := trs[|trs| - 1];
      ReadsAmong(a, trs[..|trs| - 1]) + if !tr.isWrite && tr.address == a then 1 else 0
  }

  function Among(a: nat, trs: seq<Transaction>): nat {
    if trs == [] then 0
    else Among(a, trs[..|trs| - 1]) + if trs[|trs| - 1].address == a then 1 else 0
  }

  // Over a whole run.
  function ReadsAsked(a: nat, requests: seq<seq<Transaction>>): nat {
    if requests == [] then 0 else ReadsAmong(a, requests[0]) + ReadsAsked(a, requests[1..])
  }

  function Asked(a: nat, requests: seq<seq<Transaction>>): nat {
    if requests == [] then 0 else Among(a, requests[0]) + Asked(a, requests[1..])
  }

  // Transactions for address a that are not in the command queues yet.
  function Waiting(a: nat, s: ChannelState): nat {
    Among(a, s.mc.transactionQueue) + Among(a, s.pending)
  }

  function WaitingReads(a: nat, s: ChannelState): nat {
    ReadsAmong(a, s.mc.transactionQueue) + ReadsAmong(a, s.pending)
  }

  // The three accounts of address a.
  function ColumnAccount(a: nat, s: ChannelState): nat {
    InHistory(ColumnOf(a), s.mc.issued) + InQueues(ColumnOf(a), s.mc.queue.queues) + Waiting(a, s)
  }

  function ActivateAccount(a: nat, s: ChannelState): nat {
    InHistory(ActivateOf(a), s.mc.issued) + InQueues(ActivateOf(a), s.mc.queue.queues) + Waiting(a, s)
  }

  function ReadAccount(a: nat, s: ChannelState): nat {
    Times(a, s.mc.returned) + Times(a, s.mc.pendingReads) + WaitingReads(a, s)
  }

  // Nothing moves between the accounts' parts, or out of them.
  ghost predicate Balanced(c: Config, a: nat, s: ChannelState, s': ChannelState) {
    && ColumnAccount(a, s') == ColumnAccount(a, s)
    && ReadAccount(a, s') == ReadAccount(a, s)
    && ActivateAccount(a, s') <= ActivateAccount(a, s)
    && (c.policy == ClosePage ==> ActivateAccount(a, s') == ActivateAccount(a, s))
  }

  ghost predicate SameBooks(s: ChannelState, s': ChannelState) {
    && s'.mc.issued == s.mc.issued && s'.mc.queue.queues == s.mc.queue.queues
    && s'.mc.transactionQueue == s.mc.transactionQueue && s'.pending == s.pending
    && s'.mc.returned == s.mc.returned && s'.mc.pendingReads == s.mc.pendingReads
  }

  // ---- Lists of transactions ----

  lemma {:induction false} AmongConcat(a: nat, u: seq<Transaction>, v: seq<Transaction>)
    ensures Among(a, u + v) == Among(a, u) + Among(a, v)
    ensures ReadsAmong(a, u + v) == ReadsAmong(a, u) + ReadsAmong(a, v)
  {
    if v == [] {
      assert u + v == u;
    } else {
      assert (u + v)[..|u + v| - 1] == u + v[..|v| - 1];
      AmongConcat(a, u, v[..|v| - 1]);
    }
  }

  lemma {:induction false} AmongRemove(a: nat, u: seq<Transaction>, i: nat)
    requires i < |u|
    ensures Among(a, u) == Among(a, Drop(u, i)) + if u[i].address == a then 1 else 0
    ensures ReadsAmong(a, u) == ReadsAmong(a, Drop(u, i)) + if !u[i].isWrite && u[i].address == a then 1 else 0
  {
    var n := |u| - 1;
    if i == n {
      assert Drop(u, i) == u[..n];
    } else {
      assert Drop(u, i)[..n - 1] == Drop(u[..n], i);
      AmongRemove(a, u[..n], i);
    }
  }

  lemma AmongSingle(a: nat, tr: Transaction)
    ensures Among(a, [tr]) == if tr.address == a then 1 else 0
    ensures ReadsAmong(a, [tr]) == if !tr.isWrite && tr.address == a then 1 else 0
  {
    assert [tr][..0] == [];
  }

  // ---- The phases ----

  lemma AdmitPendingBalances(c: Config, a: nat, s: ChannelState)
    requires WellFormed(c, s)
    ensures Balanced(c, a, s, AdmitPending(c, s))
  {
    if s.pending != [] && WillAcceptTransaction(c, s) {
      AmongConcat(a, s.mc.transactionQueue, [s.pending[0]]);
      AmongSingle(a, s.pending[0]);
      AmongRemove(a, s.pending, 0);
      assert Drop(s.pending, 0) == s.pending[1..];
    }
  }

  lemma FirstHalfBalances(c: Config, a: nat, s: ChannelState)
    requires WellFormed(c, s) && FirstHalf(c, s).Ok?
    ensures Balanced(c, a, s, FirstHalf(c, s).value)
  {
    hide UpdateRanks, AdmitPending, DeliverCommand, AgeBanks;
    RanksMoveNoWrite(c, s);
    RanksLeavePending(c, s);
    var s1 := UpdateRanks(c, s).value;
    AdmitPendingBalances(c, a, s1);
    var s2 := AdmitPending(c, s1);
    AgeBanksMovesNothing(c, s2);
    var s3 := AgeBanks(c, s2);
    DeliveryMovesNoWrite(c, s3);
    DeliveryLeavesPending(c, s3);
  }

  lemma RanksLeavePending(c: Config, s: ChannelState)
    requires WellFormed(c, s) && UpdateRanks(c, s).Ok?
    ensures UpdateRanks(c, s).value.pending == s.pending
  {
  }

  lemma DeliveryLeavesPending(c: Config, s: ChannelState)
    requires WellFormed(c, s) && DeliverCommand(c, s).Ok?
    ensures DeliverCommand(c, s).value.pending == s.pending
  {
  }

  lemma DataBusBalances(c: Config, s: ChannelState)
    requires WellFormed(c, s) && DriveDataBus(c, s).Ok?
    ensures SameBooks(s, DriveDataBus(c, s).value)
  {
  }

  lemma RefreshTimerBalances(c: Config, s: ChannelState)
    requires WellFormed(c, s)
    ensures SameBooks(s, RefreshTimer(c, s))
  {
  }

  lemma IssueCommandBalances(c: Config, a: nat, s: ChannelState)
    requires WellFormed(c, s) && IssueCommand(c, s).Ok?
    ensures Balanced(c, a, s, IssueCommand(c, s).value)
  {
    hide PopSpec, IssueAll, Issue, IssueWrite, IssueRead, TableOf, TableShape, InQueues;
    var (q, popped) := PopSpec(c, s.clock, s.mc.banks, s.mc.queue);
    var s' := IssueCommand(c, s).value;
    assert s'.mc.queue == q && s'.mc.issued == s.mc.issued + [popped];
    assert (s.mc.issued + [popped])[..|s.mc.issued|] == s.mc.issued;
    PopConserves(c, s.clock, s.mc.banks, s.mc.queue, ColumnOf(a));
    PopConserves(c, s.clock, s.mc.banks, s.mc.queue, ActivateOf(a));
  }

  lemma ExpandTransactionBalances(c: Config, a: nat, s: ChannelState)
    requires c.Valid() && WellFormed(c, s) && AfterPop(c, s) && ExpandTransaction(c, s).Ok?
    ensures Balanced(c, a, s, ExpandTransaction(c, s).value)
  {
    hide TimingSent, Reads, Matched, ExpandTransaction, Decode, Put, InQueues, InHistory, TimingAged, QueuesOK,
         Tracking, RankOK, FirstWithRoom, PowerFlags, HasRoomFor, BanksOK, Static;
    ShortTargets(c, s);
    ExpandedState(c, s);
    ExpandLeavesPending(c, s);
    var i := FirstWithRoom(c, s.mc.queue, s.mc.transactionQueue);
    if i < |s.mc.transactionQueue| {
      var tr := s.mc.transactionQueue[i];
      var cur := Target(c, tr);
      var x, y := CommandFor(c, ACTIVATE, tr), CommandFor(c, CommandKind(c, tr), tr);
      QueuedPair(ColumnOf(a), s.mc.queue.queues, cur.rank, Slot(c, cur.bank), x, y);
      QueuedPair(ActivateOf(a), s.mc.queue.queues, cur.rank, Slot(c, cur.bank), x, y);
      AmongRemove(a, s.mc.transactionQueue, i);
      TimesConcat(a, s.mc.pendingReads, [tr.address]);
      assert [tr.address][..0] == [];
    }
  }

  lemma ExpandLeavesPending(c: Config, s: ChannelState)
    requires WellFormed(c, s) && ExpandTransaction(c, s).Ok?
    ensures ExpandTransaction(c, s).value.pending == s.pending
  {
    hide FirstWithRoom, WellFormed, Target, HasRoomFor, QueueAt, CommandFor, Shape, Decode, Put;
  }

  lemma PowerBalances(c: Config, s: ChannelState)
    requires WellFormed(c, s) && ManagePower(c, s).Ok?
    ensures SameBooks(s, ManagePower(c, s).value)
  {
    hide PowerRanks;
    if c.useLowPower {
      PowerMovesNoRead(c, s, c.NumRanks());
    }
  }

  lemma ReturnReadBalances(c: Config, a: nat, s: ChannelState)
    requires WellFormed(c, s) && ReturnRead(c, s).Ok?
    ensures Balanced(c, a, s, ReturnRead(c, s).value)
  {
    hide Shape, TableOf, TableShape;
    var m := s.mc;
    if m.returnTransaction != [] {
      var x := m.returnTransaction[0];
      TimesRemove(a, m.pendingReads, IndexOf(m.pendingReads, x));
      TimesConcat(a, m.returned, [x]);
      assert [x][..0] == [];
    }
  }

  lemma SecondHalfBalances(c: Config, a: nat, s: ChannelState)
    requires c.Valid() && WellFormed(c, s) && AtDataBus(c, s)
    ensures SecondHalf(c, s).Ok? && Balanced(c, a, s, SecondHalf(c, s).value)
  {
    hide AtDataBus, AfterPop, IssueCommand, ExpandTransaction, ManagePower, ReturnRead, RefreshTimer, WellFormed;
    RefreshTimerKeepsAll(c, s);
    RefreshTimerBalances(c, s);
    var s2 := RefreshTimer(c, s);
    PopKeepsAll(c, s2);
    IssueCommandBalances(c, a, s2);
    var s3 := IssueCommand(c, s2).value;
    ExpandKeepsAll(c, s3);
    ExpandTransactionBalances(c, a, s3);
    var s4 := ExpandTransaction(c, s3).value;
    PowerKeepsAll(c, s4);
    PowerBalances(c, s4);
    var s5 := ManagePower(c, s4).value;
    ReturnKeepsAll(c, s5);
    ReturnReadBalances(c, a, s5);
  }

  lemma UpdateBalances(c: Config, a: nat, s: ChannelState)
    requires c.Valid() && WellFormed(c, s) && Safe(c, s) && Update(c, s).Ok?
    ensures Balanced(c, a, s, Update(c, s).value)
  {
    hide Update, FirstHalf, SecondHalf, DriveDataBus, Safe, AtDataBus, WellFormed;
    UpdateInHalves(c, s);
    FirstHalfIsSafe(c, s);
    FirstHalfBalances(c, a, s);
    var s1 := FirstHalf(c, s).value;
    DataBusKeepsRest(c, s1);
    DataBusBalances(c, s1);
    SecondHalfBalances(c, a, DriveDataBus(c, s1).value);
  }

  lemma AddTransactionRecords(c: Config, a: nat, s: ChannelState, tr: Transaction)
    requires WellFormed(c, s)
    ensures var s' := AddTransaction(c, s, tr);
      && ColumnAccount(a, s') == ColumnAccount(a, s) + Among(a, [tr])
      && ActivateAccount(a, s') == ActivateAccount(a, s) + Among(a, [tr])
      && ReadAccount(a, s') == ReadAccount(a, s) + ReadsAmong(a, [tr])
  {
    hide InQueues, InHistory, Among, ReadsAmong, Times, Shape, TableOf, TableShape;
    AmongConcat(a, s.mc.transactionQueue, [tr]);
    AmongConcat(a, s.pending, [tr]);
  }

  lemma {:induction false} AddAllRecords(c: Config, a: nat, s: ChannelState, trs: seq<Transaction>)
    requires WellFormed(c, s)
    ensures var s' := AddAll(c, s, trs);
      && ColumnAccount(a, s') == ColumnAccount(a, s) + Among(a, trs)
      && ActivateAccount(a, s') == ActivateAccount(a, s) + Among(a, trs)
      && ReadAccount(a, s') == ReadAccount(a, s) + ReadsAmong(a, trs)
    decreases trs
  {
    hide ColumnAccount, ReadAccount, ActivateAccount, AddTransaction, WellFormed;
    if trs != [] {
      AddTransactionRecords(c, a, s, trs[0]);
      assert trs == [trs[0]] + trs[1..];
      AmongConcat(a, [trs[0]], trs[1..]);
      AddAllRecords(c, a, AddTransaction(c, s, trs[0]), trs[1..]);
    }
  }

  // What has been asked for and what the accounts hold, when `ahead` is still to come.
  ghost predicate OnAccount(c: Config, a: nat, s: ChannelState, ahead: seq<seq<Transaction>>, columns: nat, asked: nat) {
    && ColumnAccount(a, s) + Asked(a, ahead) == columns
    && ReadAccount(a, s) + ReadsAsked(a, ahead) == asked
    && ActivateAccount(a, s) + Asked(a, ahead) <= columns
    && (c.policy == ClosePage ==> ActivateAccount(a, s) + Asked(a, ahead) == columns)
  }

  lemma CycleKeepsAccount(c: Config, a: nat, s: ChannelState, s': ChannelState, ahead: seq<seq<Transaction>>, columns: nat,
                          asked: nat)
    requires WellFormed(c, s) && ahead != [] && OnAccount(c, a, s, ahead, columns, asked)
    requires Cycle(c, AddAll(c, s, ahead[0]), s')
    ensures OnAccount(c, a, s', ahead[1..], columns, asked)
  {
    hide Safe, Update, AddAll, ColumnAccount, ReadAccount, ActivateAccount, WellFormed;
    AddAllRecords(c, a, s, ahead[0]);
    UpdateBalances(c, a, AddAll(c, s, ahead[0]));
  }

  lemma RunBalances(c: Config, a: nat, requests: seq<seq<Transaction>>)
    requires c.Valid() && Run(c, Initial(c), requests).Ok?
    ensures OnAccount(c, a, Run(c, Initial(c), requests).value, [], Asked(a, requests), ReadsAsked(a, requests))
  {
    InitialIsSafe(c);
    InitialAccounts(c, a);
    hide Safe, Update, AddAll, Run, Initial, ColumnAccount, ReadAccount, ActivateAccount, WellFormed;
    var columns, asked := Asked(a, requests), ReadsAsked(a, requests);
    var inv := (s: ChannelState, ahead: seq<seq<Transaction>>) => OnAccount(c, a, s, ahead, columns, asked);
    forall s, s', ahead | WellFormed(c, s) && ahead != [] && inv(s, ahead) && Cycle(c, AddAll(c, s, ahead[0]), s')
      ensures inv(s', ahead[1..])
    {
      CycleKeepsAccount(c, a, s, s', ahead, columns, asked);
    }
    RunKeepsAhead(c, inv, Initial(c), requests);
  }

  lemma InitialAccounts(c: Config, a: nat)
    ensures ColumnAccount(a, Initial(c)) == 0 && ActivateAccount(a, Initial(c)) == 0 && ReadAccount(a, Initial(c)) == 0
  {
    InitialIsEmpty(c);
    hide Initial;
    NothingQueued(ColumnOf(a), Initial(c).mc.queue.queues);
    NothingQueued(ActivateOf(a), Initial(c).mc.queue.queues);
  }

  lemma InitialIsEmpty(c: Config)
    ensures var s := Initial(c);
      && s.pending == [] && s.mc.transactionQueue == [] && s.mc.pendingReads == [] && s.mc.returned == [] && s.mc.issued == []
      && forall r :: 0 <= r < |s.mc.queue.queues| ==>
           forall i :: 0 <= i < |s.mc.queue.queues[r]| ==> s.mc.queue.queues[r][i] == []
  {
  }

  // Every read asked for is waiting, pending, or was returned, exactly once; and what
  // is pending is exactly what is in flight.
  lemma EveryReadIsAccountedFor(c: Config, a: nat, requests: seq<seq<Transaction>>)
    requires c.Valid()
    ensures Run(c, Initial(c), requests).Ok? ==>
      var s := Run(c, Initial(c), requests).value;
      && ReadsAsked(a, requests) == Times(a, s.mc.returned) + Times(a, s.mc.pendingReads) + WaitingReads(a, s)
      && Times(a, s.mc.pendingReads) == InFlight(a, s)
  {
    hide Run, InFlight, Safe, Timing, QueuesOK, Tracking, RankOK, Initial, Reads, PowerFlags, BanksOK;
    if Run(c, Initial(c), requests).Ok? {
      RunBalances(c, a, requests);
      NoErrorExit(c, requests);
      PendingIsInFlight(c, a, Run(c, Initial(c), requests).value);
    }
  }

  lemma PendingIsInFlight(c: Config, a: nat, s: ChannelState)
    requires Safe(c, s)
    ensures Times(a, s.mc.pendingReads) == InFlight(a, s)
  {
    hide Timing, Reads;
  }

  // Activates in a queue never outnumber column accesses: each is followed by its own.
  lemma {:induction false} ActivatesPaired(a: nat, queue: seq<BusPacket>)
    requires Paired(queue)
    ensures InQueue(ActivateOf(a), queue) <= InQueue(ColumnOf(a), queue)
    decreases |queue|
  {
    var n := |queue|;
    if n > 0 {
      var p := queue[n - 1];
      assert p.kind != ACTIVATE;
      if n > 1 && queue[n - 2].kind == ACTIVATE {
        assert PairOf(queue[n - 2], p);
        assert queue[..n - 1][..n - 2] == queue[..n - 2];
        PairedPrefix(queue, n - 2);
        ActivatesPaired(a, queue[..n - 2]);
      } else {
        PairedPrefix(queue, n - 1);
        ActivatesPaired(a, queue[..n - 1]);
      }
    }
  }

  lemma PairedPrefix(queue: seq<BusPacket>, n: nat)
    requires Paired(queue) && n <= |queue| && (n > 0 ==> queue[n - 1].kind != ACTIVATE)
    ensures Paired(queue[..n])
  {
  }

  lemma {:induction false} SlotsPaired(a: nat, slots: seq<seq<BusPacket>>)
    requires forall i :: 0 <= i < |slots| ==> Paired(slots[i])
    ensures InSlots(ActivateOf(a), slots) <= InSlots(ColumnOf(a), slots)
  {
    if slots != [] {
      SlotsPaired(a, slots[..|slots| - 1]);
      ActivatesPaired(a, slots[|slots| - 1]);
    }
  }

  lemma {:induction false} QueuesPaired(a: nat, queues: seq<seq<seq<BusPacket>>>)
    requires forall r :: 0 <= r < |queues| ==> forall i :: 0 <= i < |queues[r]| ==> Paired(queues[r][i])
    ensures InQueues(ActivateOf(a), queues) <= InQueues(ColumnOf(a), queues)
  {
    if queues != [] {
      QueuesPaired(a, queues[..|queues| - 1]);
      SlotsPaired(a, queues[|queues| - 1]);
    }
  }

  // Every transaction becomes one column access. In closed page it also takes one
  // activate, and at no time have more column accesses than activates been issued
  // for an address; in open page it takes at most one activate.
  lemma EveryTransactionIsAccountedFor(c: Config, a: nat, requests: seq<seq<Transaction>>)
    requires c.Valid()
    ensures Run(c, Initial(c), requests).Ok? ==>
      var s := Run(c, Initial(c), requests).value;
      var columns, activates := InHistory(ColumnOf(a), s.mc.issued), InHistory(ActivateOf(a), s.mc.issued);
      && Asked(a, requests) == columns + InQueues(ColumnOf(a), s.mc.queue.queues) + Waiting(a, s)
      && activates + InQueues(ActivateOf(a), s.mc.queue.queues) + Waiting(a, s) <= Asked(a, requests)
      && (c.policy == ClosePage ==>
            && Asked(a, requests) == activates + InQueues(ActivateOf(a), s.mc.queue.queues) + Waiting(a, s)
            && columns <= activates)
  {
    hide Run, Safe, Timing, QueuesOK, Tracking, RankOK, Initial, Reads, PowerFlags, BanksOK, Static;
    if Run(c, Initial(c), requests).Ok? {
      RunBalances(c, a, requests);
      NoErrorExit(c, requests);
      var s := Run(c, Initial(c), requests).value;
      SafeQueuesPaired(c, s);
      QueuesPaired(a, s.mc.queue.queues);
    }
  }

  lemma SafeQueuesPaired(c: Config, s: ChannelState)
    requires Safe(c, s)
    ensures forall r :: 0 <= r < |s.mc.queue.queues| ==>
      forall i :: 0 <= i < |s.mc.queue.queues[r]| ==> Paired(s.mc.queue.queues[r][i])
  {
    hide Reads, Matched, Tracking, PowerFlags;
    var q := s.mc.queue;
    forall r, i | 0 <= r < |q.queues| && 0 <= i < |q.queues[r]| ensures Paired(q.queues[r][i]) {
      assert RankOK(c, s.clock, r, s.mc.banks[r], q.rowAccessCounters[r], q.queues[r]);
      assert Static(c, r, i, q.queues[r][i]);
    }
  }
}
