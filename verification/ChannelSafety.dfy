// Whole cycles and whole runs: which error exits of the simulator can be reached.
module ChannelSafety {
  import opened Wrappers
  import opened SystemConfiguration
  import opened AddressMapping
  import opened BankState
  import opened Scheduler
  import opened QueueInvariant
  import opened Channel
  import opened TimingSafety
  import opened ReadPipeline
  import opened WriteBus
  import opened Conservation

  // The invariant between cycles.
  ghost predicate Safe(c: Config, s: ChannelState) {
    Timing(c, s) && Reads(c, s, s.clock - 1, 0, 0) && Matched(s)
  }

  // Writes cannot collide on the data bus.
  predicate BusWideEnough(c: Config) {
    Roomy(c) || c.NumRanks() == 1
  }

  ghost predicate WriteSafe(c: Config, s: ChannelState)
    requires WellFormed(c, s)
  {
    Writes(c, s, s.clock - 1, 0, 0)
  }

  // Up to the data bus.
  ghost predicate AtDataBus(c: Config, s: ChannelState) {
    TimingFree(c, s) && Reads(c, s, s.clock, 0, 0) && Matched(s)
  }

  // From the pop to the end of the cycle.
  ghost predicate AfterPop(c: Config, s: ChannelState) {
    TimingSent(c, s) && Reads(c, s, s.clock, 0, 0) && Matched(s)
  }

  function FirstHalf(c: Config, s: ChannelState): (r: Result<ChannelState, Error>)
    requires WellFormed(c, s)
    ensures r.Ok? ==> WellFormed(c, r.value)
  {
    var s1 :- UpdateRanks(c, s);
    DeliverCommand(c, AgeBanks(c, AdmitPending(c, s1)))
  }

  function SecondHalf(c: Config, s: ChannelState): (r: Result<ChannelState, Error>)
    requires WellFormed(c, s)
    ensures r.Ok? ==> WellFormed(c, r.value)
  {
    var s3 :- IssueCommand(c, RefreshTimer(c, s));
    var s4 :- ExpandTransaction(c, s3);
    var s5 :- ManagePower(c, s4);
    var s6 :- ReturnRead(c, s5);
    Ok(CountRefresh(c, s6).(clock := s6.clock + 1))
  }

  lemma UpdateInHalves(c: Config, s: ChannelState)
    requires WellFormed(c, s)
    ensures Update(c, s) ==
      match FirstHalf(c, s)
      case Halt(e) => Halt(e)
      case Ok(s1) =>
        match DriveDataBus(c, s1)
        case Halt(e) => Halt(e)
        case Ok(s2) => SecondHalf(c, s2)
  {
    hide UpdateRanks, AdmitPending, AgeBanks, DeliverCommand, DriveDataBus, RefreshTimer, IssueCommand,
         ExpandTransaction, ManagePower, ReturnRead, Shape, TableOf, TableShape;
  }

  lemma FirstHalfIsSafe(c: Config, s: ChannelState)
    requires c.Valid() && WellFormed(c, s) && Safe(c, s)
    ensures FirstHalf(c, s).Ok? && AtDataBus(c, FirstHalf(c, s).value)
  {
    hide Timing, TimingAged, TimingFree, Reads, Matched, AgeBanks, DeliverCommand, AdmitPending, UpdateRanks, Tracking;
    UpdateRanksKeepsTiming(c, s);
    UpdateRanksKeepsReads(c, s);
    PipesSpaced(c, s, s.clock - 1, 0, 0);
    UpdateRanksConserves(c, s);
    var s1 := UpdateRanks(c, s).value;
    var s2 := AdmitPending(c, s1);
    AdmitPendingKeepsTiming(c, s1);
    AdmitPendingMovesNothing(c, s1);
    UntouchedReads(c, s1, s2, s.clock, 1, 1);
    UntouchedMatch(s1, s2);
    UpdateRanksKeepsClock(c, s);
    var s3 := AgeBanks(c, s2);
    AgeBanksIsSafe(c, s2);
    AgeBanksKeepsReads(c, s2);
    AgeBanksMovesNothing(c, s2);
    UntouchedMatch(s2, s3);
    DeliverCommandIsSafe(c, s3);
    InFlightDue(c, s3);
    DeliverCommandKeepsReads(c, s3);
    DeliverCommandConserves(c, s3);
    DeliverCommandKeepsClock(c, s3);
  }

  lemma PipesSpaced(c: Config, s: ChannelState, t: int, late: nat, lag: nat)
    requires WellFormed(c, s) && Reads(c, s, t, late, lag)
    ensures forall r :: 0 <= r < c.NumRanks() ==> Spaced(c, s.ranks[r])
  {
    forall r | 0 <= r < c.NumRanks() ensures Spaced(c, s.ranks[r]) {
      assert RankReads(c, t, s.mc.outgoingCmd, r, s.mc.banks[r], s.ranks[r], late, lag);
    }
  }

  lemma UpdateRanksKeepsClock(c: Config, s: ChannelState)
    requires WellFormed(c, s) && UpdateRanks(c, s).Ok?
    ensures UpdateRanks(c, s).value.clock == s.clock
  {
  }

  lemma AdmitPendingMovesNothing(c: Config, s: ChannelState)
    requires WellFormed(c, s)
    ensures var s' := AdmitPending(c, s);
      s' == s.(mc := s.mc.(transactionQueue := s'.mc.transactionQueue), pending := s'.pending)
  {
  }

  lemma AgeBanksMovesNothing(c: Config, s: ChannelState)
    requires WellFormed(c, s)
    ensures AgeBanks(c, s) == s.(mc := s.mc.(banks := AgeBanks(c, s).mc.banks))
  {
  }

  lemma InFlightDue(c: Config, s: ChannelState)
    requires WellFormed(c, s) && Tracking(c, s.clock, s)
    ensures s.mc.outgoingCmd.Some? ==> s.mc.cmdCyclesLeft == 1
  {
  }

  lemma DeliverCommandKeepsClock(c: Config, s: ChannelState)
    requires WellFormed(c, s) && DeliverCommand(c, s).Ok?
    ensures DeliverCommand(c, s).value.clock == s.clock
  {
  }

  lemma DataBusKeepsRest(c: Config, s: ChannelState)
    requires WellFormed(c, s) && AtDataBus(c, s)
    ensures DriveDataBus(c, s).Halt? ==> DriveDataBus(c, s).error == DataBusCollision
    ensures DriveDataBus(c, s).Ok? ==> AtDataBus(c, DriveDataBus(c, s).value) && DriveDataBus(c, s).value.clock == s.clock
  {
    hide TimingFree, Reads, Matched;
    if DriveDataBus(c, s).Ok? {
      var s' := DriveDataBus(c, s).value;
      DriveDataBusKeepsTiming(c, s);
      UntouchedReads(c, s, s', s.clock, 0, 0);
      UntouchedMatch(s, s');
    }
  }

  lemma RefreshTimerKeepsAll(c: Config, s: ChannelState)
    requires c.Valid() && WellFormed(c, s) && AtDataBus(c, s)
    ensures AtDataBus(c, RefreshTimer(c, s)) && RefreshTimer(c, s).clock == s.clock
    ensures WritesMoved(c, s) ==> WritesMoved(c, RefreshTimer(c, s))
  {
    hide TimingFree, Reads, Matched, Writes;
    var s' := RefreshTimer(c, s);
    RefreshTimerIsSafe(c, s);
    UntouchedReads(c, s, s', s.clock, 0, 0);
    UntouchedMatch(s, s');
    if WritesMoved(c, s) {
      SameWritesKeep(c, s, s', s.clock, 0, 0);
    }
  }

  lemma PopKeepsAll(c: Config, s: ChannelState)
    requires c.Valid() && WellFormed(c, s) && AtDataBus(c, s)
    ensures IssueCommand(c, s).Ok? && AfterPop(c, IssueCommand(c, s).value) && IssueCommand(c, s).value.clock == s.clock
  {
    hide Tracking, TimingAged, Reads, Matched, IssueCommand, TimingSent, PopSpec;
    IssueCommandIsSafe(c, s);
    IssueCommandKeepsReads(c, s);
    IssueCommandConserves(c, s);
    SentState(c, s);
  }

  lemma ExpandKeepsAll(c: Config, s: ChannelState)
    requires c.Valid() && WellFormed(c, s) && AfterPop(c, s)
    ensures ExpandTransaction(c, s).Ok? && AfterPop(c, ExpandTransaction(c, s).value)
    ensures ExpandTransaction(c, s).value.clock == s.clock
    ensures forall t :: Writes(c, s, t, 0, 0) ==> Writes(c, ExpandTransaction(c, s).value, t, 0, 0)
  {
    hide TimingSent, Reads, Matched, ExpandTransaction, Writes, Decode, Put;
    ExpandTransactionIsSafe(c, s);
    ExpandTransactionConserves(c, s);
    ShortTargets(c, s);
    ExpandedState(c, s);
    var s' := ExpandTransaction(c, s).value;
    UntouchedReads(c, s, s', s.clock, 0, 0);
    forall t | Writes(c, s, t, 0, 0) ensures Writes(c, s', t, 0, 0) {
      SameWritesKeep(c, s, s', t, 0, 0);
    }
  }

  lemma ShortTargets(c: Config, s: ChannelState)
    requires TimingSent(c, s)
    ensures var i := FirstWithRoom(c, s.mc.queue, s.mc.transactionQueue);
      i < |s.mc.transactionQueue| ==> |QueueAt(c, s.mc.queue, Target(c, s.mc.transactionQueue[i]))| <= c.cmdQueueDepth
  {
    hide QueuesOK, PowerFlags, Tracking, RankOK, FirstWithRoom, Target, BanksOK, Static, QueueAt, BareReady, Shape,
         Paired;
    var i := FirstWithRoom(c, s.mc.queue, s.mc.transactionQueue);
    if i < |s.mc.transactionQueue| {
      QueueIsShort(c, s.clock + 1, s.mc.banks, s.mc.queue, Target(c, s.mc.transactionQueue[i]));
    }
  }

  lemma PowerKeepsAll(c: Config, s: ChannelState)
    requires c.Valid() && WellFormed(c, s) && AfterPop(c, s)
    ensures ManagePower(c, s).Ok? && AfterPop(c, ManagePower(c, s).value)
    ensures ManagePower(c, s).value.clock == s.clock
    ensures forall t :: Writes(c, s, t, 0, 0) ==> Writes(c, ManagePower(c, s).value, t, 0, 0)
  {
    hide TimingSent, Reads, Matched, Writes, ManagePower, TimingAged, QueuesOK, Tracking, RankOK, PowerFlags,
         WellFormed, BanksOK, Static, BareReady;
    ManagePowerIsSafe(c, s);
    ManagePowerKeepsReads(c, s, s.clock);
    ManagePowerConserves(c, s);
    PowerKeepsClock(c, s);
    forall t | Writes(c, s, t, 0, 0) ensures Writes(c, ManagePower(c, s).value, t, 0, 0) {
      ManagePowerKeepsWrites(c, s, t);
    }
  }

  lemma PowerKeepsClock(c: Config, s: ChannelState)
    requires WellFormed(c, s) && ManagePower(c, s).Ok?
    ensures ManagePower(c, s).value.clock == s.clock
  {
    hide PowerRanks;
    if c.useLowPower {
      PowerMovesNoRead(c, s, c.NumRanks());
    }
  }

  lemma ReturnKeepsAll(c: Config, s: ChannelState)
    requires WellFormed(c, s) && AfterPop(c, s)
    ensures ReturnRead(c, s).Ok? && AfterPop(c, ReturnRead(c, s).value)
    ensures ReturnRead(c, s).value.clock == s.clock
    ensures forall t :: Writes(c, s, t, 0, 0) ==> Writes(c, ReturnRead(c, s).value, t, 0, 0)
  {
    hide TimingSent, Reads, Matched, Writes;
    ReturnReadConserves(c, s);
    ReturnReadKeepsTiming(c, s);
    var s' := ReturnRead(c, s).value;
    UntouchedReads(c, s, s', s.clock, 0, 0);
    forall t | Writes(c, s, t, 0, 0) ensures Writes(c, s', t, 0, 0) {
      SameWritesKeep(c, s, s', t, 0, 0);
    }
  }

  lemma TickKeepsAll(c: Config, s: ChannelState)
    requires WellFormed(c, s) && AfterPop(c, s)
    ensures Safe(c, CountRefresh(c, s).(clock := s.clock + 1))
    ensures Writes(c, s, s.clock, 0, 0) ==> WriteSafe(c, CountRefresh(c, s).(clock := s.clock + 1))
  {
    hide TimingSent, Timing, Reads, Matched, Writes;
    var s' := CountRefresh(c, s).(clock := s.clock + 1);
    TickKeepsTiming(c, s);
    UntouchedReads(c, s, s', s.clock, 0, 0);
    UntouchedMatch(s, s');
    if Writes(c, s, s.clock, 0, 0) {
      SameWritesKeep(c, s, s', s.clock, 0, 0);
    }
  }

  lemma SecondHalfIsSafe(c: Config, s: ChannelState)
    requires c.Valid() && WellFormed(c, s) && AtDataBus(c, s)
    ensures SecondHalf(c, s).Ok? && Safe(c, SecondHalf(c, s).value)
    ensures BusWideEnough(c) && WritesMoved(c, s) ==> WriteSafe(c, SecondHalf(c, s).value)
  {
    hide Safe, WriteSafe, AtDataBus, AfterPop, IssueCommand, ExpandTransaction, ManagePower, ReturnRead, RefreshTimer,
         CountRefresh, WritesMoved, Writes, WellFormed, TimingSent, TimingFree, Timing, TimingAged, QueuesOK,
         Tracking, RankOK, Reads, PowerFlags;
    RefreshTimerKeepsAll(c, s);
    var s2 := RefreshTimer(c, s);
    PopKeepsAll(c, s2);
    if BusWideEnough(c) && WritesMoved(c, s) {
      PopKeepsWrites(c, s2);
    }
    var s3 := IssueCommand(c, s2).value;
    ExpandKeepsAll(c, s3);
    var s4 := ExpandTransaction(c, s3).value;
    PowerKeepsAll(c, s4);
    var s5 := ManagePower(c, s4).value;
    ReturnKeepsAll(c, s5);
    TickKeepsAll(c, ReturnRead(c, s5).value);
  }

  lemma PopKeepsWrites(c: Config, s: ChannelState)
    requires c.Valid() && BusWideEnough(c) && AtDataBus(c, s) && WritesMoved(c, s)
    requires IssueCommand(c, s).Ok?
    ensures Writes(c, IssueCommand(c, s).value, s.clock, 0, 0)
  {
    IssueCommandKeepsWrites(c, s);
  }

  // One cycle: the only error exit in reach is the data-bus collision, and not even
  // that one when the bus is wide enough for the activation delay.
  lemma UpdateIsSafe(c: Config, s: ChannelState)
    requires c.Valid() && WellFormed(c, s) && Safe(c, s)
    ensures Update(c, s).Halt? ==> Update(c, s).error == DataBusCollision
    ensures Update(c, s).Ok? ==> Safe(c, Update(c, s).value)
    ensures BusWideEnough(c) && WriteSafe(c, s) ==> Update(c, s).Ok? && WriteSafe(c, Update(c, s).value)
  {
    hide Update, FirstHalf, SecondHalf, DriveDataBus, Safe, AtDataBus, WriteSafe, WritesMoved, WellFormed;
    UpdateInHalves(c, s);
    FirstHalfIsSafe(c, s);
    var s1 := FirstHalf(c, s).value;
    DataBusKeepsRest(c, s1);
    if BusWideEnough(c) && WriteSafe(c, s) {
      FirstHalfKeepsWrites(c, s);
      DriveDataBusIsSafe(c, s1);
    }
    if DriveDataBus(c, s1).Ok? {
      SecondHalfIsSafe(c, DriveDataBus(c, s1).value);
    }
  }

  lemma FirstHalfKeepsWrites(c: Config, s: ChannelState)
    requires WellFormed(c, s) && WriteSafe(c, s) && FirstHalf(c, s).Ok?
    ensures var s' := FirstHalf(c, s).value; s'.clock == s.clock && Writes(c, s', s.clock, 1, 0)
  {
    hide Writes, AgeBanks, DeliverCommand, UpdateRanks, AdmitPending;
    var s1 := UpdateRanks(c, s).value;
    RanksMoveNoWrite(c, s);
    SameWritesKeep(c, s, s1, s.clock - 1, 0, 0);
    var s2 := AdmitPending(c, s1);
    AdmitPendingMovesNothing(c, s1);
    SameWritesKeep(c, s1, s2, s.clock - 1, 0, 0);
    NextCycle(c, s2, s.clock - 1);
    AgeBanksKeepsWrites(c, s2);
    var s3 := AgeBanks(c, s2);
    AgeBanksMovesNothing(c, s2);
    DeliveryMovesNoWrite(c, s3);
    SameWritesKeep(c, s3, DeliverCommand(c, s3).value, s.clock, 1, 0);
  }

  lemma RanksMoveNoWrite(c: Config, s: ChannelState)
    requires WellFormed(c, s) && UpdateRanks(c, s).Ok?
    ensures var s' := UpdateRanks(c, s).value;
      s'.mc == s.mc.(returnTransaction := s'.mc.returnTransaction) && s'.clock == s.clock
  {
  }

  lemma DeliveryMovesNoWrite(c: Config, s: ChannelState)
    requires WellFormed(c, s) && DeliverCommand(c, s).Ok?
    ensures var s' := DeliverCommand(c, s).value;
      && s'.mc == s.mc.(outgoingCmd := s'.mc.outgoingCmd, cmdCyclesLeft := s'.mc.cmdCyclesLeft)
      && s'.clock == s.clock
  {
    hide Accepts, Apply;
  }

  // ---- The host's side ----

  lemma {:induction false} AddAllKeeps(c: Config, s: ChannelState, trs: seq<Transaction>)
    requires c.Valid() && WellFormed(c, s) && Safe(c, s)
    ensures Safe(c, AddAll(c, s, trs)) && (WriteSafe(c, s) ==> WriteSafe(c, AddAll(c, s, trs)))
    decreases trs
  {
    hide Timing, Reads, Matched, Writes;
    if trs != [] {
      var s1 := AddTransaction(c, s, trs[0]);
      AddTransactionKeepsTiming(c, s, trs[0]);
      UntouchedReads(c, s, s1, s.clock - 1, 0, 0);
      UntouchedMatch(s, s1);
      if WriteSafe(c, s) {
        SameWritesKeep(c, s, s1, s.clock - 1, 0, 0);
      }
      AddAllKeeps(c, s1, trs[1..]);
    }
  }

  lemma InitialIsSafe(c: Config)
    requires c.Valid()
    ensures Safe(c, Initial(c)) && WriteSafe(c, Initial(c))
  {
    InitialTiming(c);
    InitialReads(c);
    InitialMatched(c);
    InitialWrites(c);
  }

  // ---- Runs ----

  lemma {:induction false} RunIsSafe(c: Config, s: ChannelState, requests: seq<seq<Transaction>>)
    requires c.Valid() && WellFormed(c, s) && Safe(c, s)
    ensures var r := Run(c, s, requests);
      && (r.Halt? ==> r.error == DataBusCollision)
      && (r.Ok? ==> Safe(c, r.value))
      && (BusWideEnough(c) && WriteSafe(c, s) ==> r.Ok?)
    decreases requests
  {
    hide Safe, WriteSafe, Update, AddAll, WellFormed;
    if requests != [] {
      var s1 := AddAll(c, s, requests[0]);
      AddAllKeeps(c, s, requests[0]);
      UpdateIsSafe(c, s1);
      if Update(c, s1).Ok? {
        RunIsSafe(c, Update(c, s1).value, requests[1..]);
      }
    }
  }

  // From the initial state, whatever the host asks for, no rank ever rejects a
  // command or a power transition, no queue overflows, commands never collide and
  // every returned burst finds its read; the data bus is safe when it is wide enough.
  lemma NoErrorExit(c: Config, requests: seq<seq<Transaction>>)
    requires c.Valid()
    ensures Run(c, Initial(c), requests).Halt? ==>
      Run(c, Initial(c), requests).error == DataBusCollision && !BusWideEnough(c)
    ensures Run(c, Initial(c), requests).Ok? ==> Safe(c, Run(c, Initial(c), requests).value)
  {
    hide Run, Safe, WriteSafe, Timing, QueuesOK, Tracking, RankOK, Initial, Reads, PowerFlags, WellFormed, BanksOK;
    InitialIsSafe(c);
    RunIsSafe(c, Initial(c), requests);
  }
}
