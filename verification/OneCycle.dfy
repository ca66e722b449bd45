// What one cycle does to the bank table, the queues and the issued commands.
module OneCycle {
  import opened Wrappers
  import opened SystemConfiguration
  import opened AddressMapping
  import opened BankState
  import opened Scheduler
  import opened QueueInvariant
  import opened Channel
  import opened TimingSafety
  import opened ReadPipeline
  import opened WriteBus
  import opened Conservation
  import opened ChannelSafety

  // ---- One cycle, seen from the command bus ----

  // The state in which the scheduler pops.
  function PopState(c: Config, s: ChannelState): (r: Result<ChannelState, Error>)
    requires WellFormed(c, s)
    ensures r.Ok? ==> WellFormed(c, r.value)
  {
    var s1 :- FirstHalf(c, s);
    var s2 :- DriveDataBus(c, s1);
    Ok(RefreshTimer(c, s2))
  }

  function Popped(c: Config, s: ChannelState): (QueueState, Option<BusPacket>)
    requires WellFormed(c, s) && PopState(c, s).Ok?
  {
    var m := PopState(c, s).value.mc;
    PopSpec(c, s.clock, m.banks, m.queue)
  }

  // Same data bus and same history.
  predicate SameBus(m: ControllerState, m': ControllerState) {
    && m'.outgoingData == m.outgoingData && m'.dataCyclesLeft == m.dataCyclesLeft
    && m'.writeDataToSend == m.writeDataToSend && m'.writeDataCountdown == m.writeDataCountdown
    && m'.issued == m.issued
  }

  // The refresh timer starts over when the rank that is next is due.
  function Restarted(c: Config, countdowns: seq<nat>, r: nat): (seq<nat>, nat)
    requires r < |countdowns| == c.NumRanks()
  {
    if countdowns[r] == 0 then (countdowns[r := c.refreshPeriod], if r + 1 == c.NumRanks() then 0 else r + 1)
    else (countdowns, r)
  }

  // Same data bus, same history and same refresh timer.
  predicate SameBusAndTimer(m: ControllerState, m': ControllerState) {
    SameBus(m, m') && m'.refreshCountdown == m.refreshCountdown && m'.refreshRank == m.refreshRank
  }

  // The queue invariant, as the pop needs it.
  lemma QueuesAtPop(c: Config, s: ChannelState)
    requires WellFormed(c, s) && AtDataBus(c, s)
    ensures QueuesOK(c, s.clock + 1, s.mc.banks, s.mc.queue)
  {
    hide QueuesOK, Tracking, Reads, Matched, PowerFlags;
  }

  // Up to the pop only the banks and the refresh timer move.
  lemma PopStateIs(c: Config, s: ChannelState)
    requires c.Valid() && WellFormed(c, s) && Safe(c, s) && PopState(c, s).Ok?
    ensures var s' := PopState(c, s).value;
      && AtDataBus(c, s') && s'.clock == s.clock
      && s'.mc.banks == AgeAll(c, s.mc.banks) && s'.mc.issued == s.mc.issued
      && s'.mc.queue == s.mc.queue.(refreshWaiting := s'.mc.queue.refreshWaiting, refreshRank := s'.mc.queue.refreshRank)
      && (s'.mc.refreshCountdown, s'.mc.refreshRank) == Restarted(c, s.mc.refreshCountdown, s.mc.refreshRank)
  {
    hide Safe, AtDataBus, FirstHalf, DriveDataBus, RefreshTimer, Restarted;
    FirstHalfIsSafe(c, s);
    FirstHalfMoves(c, s);
    var s1 := FirstHalf(c, s).value;
    DataBusKeepsRest(c, s1);
    DataBusMoves(c, s1);
    var s2 := DriveDataBus(c, s1).value;
    RefreshTimerKeepsAll(c, s2);
    RefreshTimerMoves(c, s2);
  }

  lemma FirstHalfMoves(c: Config, s: ChannelState)
    requires WellFormed(c, s) && FirstHalf(c, s).Ok?
    ensures var s' := FirstHalf(c, s).value;
      && s'.clock == s.clock && s'.mc.banks == AgeAll(c, s.mc.banks)
      && SameBusAndTimer(s.mc, s'.mc) && s'.mc.queue == s.mc.queue
  {
    hide UpdateRanks, AdmitPending, DeliverCommand;
    RanksMoveNoWrite(c, s);
    var s1 := UpdateRanks(c, s).value;
    AdmitPendingMovesNothing(c, s1);
    DeliveryMovesNoWrite(c, AgeBanks(c, AdmitPending(c, s1)));
  }

  lemma DataBusMoves(c: Config, s: ChannelState)
    requires WellFormed(c, s) && DriveDataBus(c, s).Ok?
    ensures var s' := DriveDataBus(c, s).value;
      && s'.clock == s.clock && s'.mc.banks == s.mc.banks && s'.mc.issued == s.mc.issued && s'.mc.queue == s.mc.queue
      && s'.mc.refreshCountdown == s.mc.refreshCountdown && s'.mc.refreshRank == s.mc.refreshRank
  {
  }

  lemma RefreshTimerMoves(c: Config, s: ChannelState)
    requires WellFormed(c, s)
    ensures var s' := RefreshTimer(c, s);
      && s'.clock == s.clock && s'.mc.banks == s.mc.banks && SameBus(s.mc, s'.mc)
      && s'.mc.queue == s.mc.queue.(refreshWaiting := s'.mc.queue.refreshWaiting, refreshRank := s'.mc.queue.refreshRank)
      && (s'.mc.refreshCountdown, s'.mc.refreshRank) == Restarted(c, s.mc.refreshCountdown, s.mc.refreshRank)
  {
  }

  // A bank entry after the power phase of cycle t: as before, or put to sleep when idle,
  // or woken up once it has slept long enough.
  predicate PoweredFrom(c: Config, t: int, m: Bank, m': Bank) {
    || m' == m
    || (c.useLowPower && m.state == Idle && m' == m.(state := PowerDown, nextPowerUp := t + c.tCKE))
    || (c.useLowPower && m.state == PowerDown && t >= m.nextPowerUp
        && m' == m.(state := Idle, nextActivate := t + c.tXP))
  }

  ghost predicate PoweredTable(c: Config, t: int, banks: BankTable, banks': BankTable) {
    && |banks'| == |banks|
    && forall r :: 0 <= r < |banks| ==>
         |banks'[r]| == |banks[r]| && forall b :: 0 <= b < |banks[r]| ==> PoweredFrom(c, t, banks[r][b], banks'[r][b])
  }

  // From the pop to the end of the cycle: the popped packet is recorded, one
  // transaction may join the queues, ranks may change power state.
  ghost predicate CycleEnd(c: Config, s: ChannelState, s': ChannelState)
    requires WellFormed(c, s)
  {
    var (q, popped) := PopSpec(c, s.clock, s.mc.banks, s.mc.queue);
    && s'.clock == s.clock + 1
    && s'.mc.issued == s.mc.issued + [popped]
    && s'.mc.refreshCountdown == DecAll(s.mc.refreshCountdown) && s'.mc.refreshRank == s.mc.refreshRank
    && s'.mc.outgoingCmd == popped
    && s'.mc.queue == q.(queues := s'.mc.queue.queues)
    && PoweredTable(c, s.clock, if popped.Some? then IssueAll(c, s.clock, popped.value, s.mc.banks) else s.mc.banks, s'.mc.banks)
    && (s'.mc.queue.queues == q.queues
        || exists tr: Transaction :: Expanded(c, q, tr, s'.mc.queue))
  }

  // Transaction tr's activate and column access were added to its queue.
  ghost predicate Expanded(c: Config, q: QueueState, tr: Transaction, q': QueueState) {
    var cur := Target(c, tr);
    && Shape(c, q)
    && q'.queues == Put(q.queues, cur.rank, Slot(c, cur.bank),
         QueueAt(c, q, cur) + [CommandFor(c, ACTIVATE, tr), CommandFor(c, CommandKind(c, tr), tr)])
  }

  lemma SecondHalfEnds(c: Config, s: ChannelState)
    requires c.Valid() && WellFormed(c, s) && AtDataBus(c, s)
    ensures SecondHalf(c, s).Ok?
    ensures CycleEnd(c, RefreshTimer(c, s), SecondHalf(c, s).value)
    ensures IssueCommand(c, RefreshTimer(c, s)).Ok?
    ensures SameBus(IssueCommand(c, RefreshTimer(c, s)).value.mc, SecondHalf(c, s).value.mc)
  {
    hide AtDataBus, AfterPop, IssueCommand, ExpandTransaction, ManagePower, ReturnRead, RefreshTimer,
         WellFormed, PopSpec, Expanded, PoweredTable;
    RefreshTimerKeepsAll(c, s);
    var s2 := RefreshTimer(c, s);
    PopKeepsAll(c, s2);
    PopMoves(c, s2);
    var s3 := IssueCommand(c, s2).value;
    ExpandKeepsAll(c, s3);
    ExpandMoves(c, s3);
    var s4 := ExpandTransaction(c, s3).value;
    PowerKeepsAll(c, s4);
    PowerMoves(c, s4);
    var s5 := ManagePower(c, s4).value;
    ReturnKeepsAll(c, s5);
    ReturnMoves(c, s5);
  }

  lemma PopMoves(c: Config, s: ChannelState)
    requires c.Valid() && WellFormed(c, s) && AtDataBus(c, s) && IssueCommand(c, s).Ok?
    ensures var (q, popped) := PopSpec(c, s.clock, s.mc.banks, s.mc.queue);
      var s' := IssueCommand(c, s).value;
      && s'.mc.issued == s.mc.issued + [popped] && s'.mc.queue == q && s'.mc.outgoingCmd == popped
      && s'.mc.refreshCountdown == s.mc.refreshCountdown && s'.mc.refreshRank == s.mc.refreshRank
      && s'.mc.banks == if popped.Some? then IssueAll(c, s.clock, popped.value, s.mc.banks) else s.mc.banks
  {
    hide PopSpec, IssueAll, Tracking, TimingAged, Reads, Matched;
  }

  lemma ExpandMoves(c: Config, s: ChannelState)
    requires c.Valid() && WellFormed(c, s) && AfterPop(c, s) && ExpandTransaction(c, s).Ok?
    ensures var s' := ExpandTransaction(c, s).value;
      && s'.clock == s.clock && s'.mc.banks == s.mc.banks && SameBusAndTimer(s.mc, s'.mc) && s'.mc.outgoingCmd == s.mc.outgoingCmd
      && s'.mc.queue == s.mc.queue.(queues := s'.mc.queue.queues)
      && (s'.mc.queue.queues == s.mc.queue.queues
          || exists tr: Transaction :: Expanded(c, s.mc.queue, tr, s'.mc.queue))
  {
    hide TimingSent, Reads, Matched, ExpandTransaction, Decode, Put;
    ShortTargets(c, s);
    ExpandedState(c, s);
    var i := FirstWithRoom(c, s.mc.queue, s.mc.transactionQueue);
    if i < |s.mc.transactionQueue| {
      assert Expanded(c, s.mc.queue, s.mc.transactionQueue[i], ExpandTransaction(c, s).value.mc.queue);
    }
  }

  lemma ReturnMoves(c: Config, s: ChannelState)
    requires WellFormed(c, s) && ReturnRead(c, s).Ok?
    ensures var s' := ReturnRead(c, s).value;
      s'.clock == s.clock && s'.mc.banks == s.mc.banks && SameBusAndTimer(s.mc, s'.mc) && s'.mc.queue == s.mc.queue
      && s'.mc.outgoingCmd == s.mc.outgoingCmd
  {
  }

  lemma PowerMoves(c: Config, s: ChannelState)
    requires c.Valid() && WellFormed(c, s) && AfterPop(c, s) && ManagePower(c, s).Ok?
    ensures var s' := ManagePower(c, s).value;
      && s'.clock == s.clock && SameBusAndTimer(s.mc, s'.mc) && s'.mc.queue == s.mc.queue
      && s'.mc.outgoingCmd == s.mc.outgoingCmd && PoweredTable(c, s.clock, s.mc.banks, s'.mc.banks)
  {
    hide PowerRanks, TimingSent, TimingAged, QueuesOK, Tracking, RankOK, Reads, PowerFlags, BanksOK, Static, Matched;
    if c.useLowPower {
      PowerMovesNoRead(c, s, c.NumRanks());
      PowerChangesBanks(c, s, c.NumRanks());
    } else {
      SamePowered(c, s.clock, s.mc.banks);
    }
  }

  // Ranks from n on are still as they were.
  lemma {:induction false} PowerChangesBanks(c: Config, s: ChannelState, n: nat)
    requires c.Valid() && WellFormed(c, s) && TimingSent(c, s) && n <= c.NumRanks() && c.useLowPower
    requires PowerRanks(c, s, n).Ok?
    ensures PoweredTable(c, s.clock, s.mc.banks, PowerRanks(c, s, n).value.mc.banks)
    ensures forall r :: n <= r < c.NumRanks() ==> PowerRanks(c, s, n).value.mc.banks[r] == s.mc.banks[r]
  {
    hide TimingSent, PowerOne, RankQueuesEmpty, PoweredFrom, PoweredTable, Shape, PowerRanks;
    if n == 0 {
      PowerRanksStart(c, s);
      SamePowered(c, s.clock, s.mc.banks);
    } else {
      PowerRanksIsSafe(c, s, n - 1);
      PowerRanksStep(c, s, n - 1);
      PowerChangesBanks(c, s, n - 1);
      var s1 := PowerRanks(c, s, n - 1).value;
      PowerStepChanges(c, s1, n - 1);
      var row := PowerAt(c, s1, n - 1).value.0;
      OneRowPowered(c, s.clock, s.mc.banks, s1.mc.banks, n - 1, row);
    }
  }

  lemma OneRowPowered(c: Config, t: int, banks: BankTable, now: BankTable, r: nat, row: seq<Bank>)
    requires PoweredTable(c, t, banks, now) && r < |banks| && now[r] == banks[r] && |row| == |banks[r]|
    requires forall b :: 0 <= b < |row| ==> PoweredFrom(c, t, banks[r][b], row[b])
    ensures PoweredTable(c, t, banks, now[r := row])
  {
    hide PoweredFrom;
  }

  lemma SamePowered(c: Config, t: int, banks: BankTable)
    ensures PoweredTable(c, t, banks, banks)
  {
  }

  lemma PowerStepChanges(c: Config, s: ChannelState, r: nat)
    requires WellFormed(c, s) && TimingSent(c, s) && r < c.NumRanks() && PowerAt(c, s, r).Ok? && c.useLowPower
    ensures var row, row' := s.mc.banks[r], PowerAt(c, s, r).value.0;
      |row'| == |row| && forall b :: 0 <= b < |row| ==> PoweredFrom(c, s.clock, row[b], row'[b])
  {
    hide RankOK, RowTracks, Accepts, RankQueuesEmpty, QueuesOK, Tracking, BanksOK, Static, BareReady, Shape, Paired,
         Tracks, CountersOK;
    assert PowerFlag(s.mc.banks[r], s.mc.powerDown[r], s.ranks[r]);
  }

  // One whole cycle.
  lemma CycleShape(c: Config, s: ChannelState)
    requires c.Valid() && WellFormed(c, s) && Safe(c, s) && Update(c, s).Ok?
    ensures PopState(c, s).Ok? && CycleEnd(c, PopState(c, s).value, Update(c, s).value)
  {
    hide Update, FirstHalf, SecondHalf, DriveDataBus, Safe, AtDataBus, WriteSafe, WritesMoved, WellFormed,
         RefreshTimer, CycleEnd, IssueCommand, TimingFree, Timing, TimingAged, QueuesOK, Tracking, RankOK, Reads,
         PowerFlags;
    UpdateInHalves(c, s);
    FirstHalfIsSafe(c, s);
    var s1 := FirstHalf(c, s).value;
    DataBusKeepsRest(c, s1);
    SecondHalfEnds(c, DriveDataBus(c, s1).value);
  }
}
