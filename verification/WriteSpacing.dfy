// Over a whole run, any two writes of a channel are issued at least a burst apart.
module WriteSpacing {
  import opened Wrappers
  import opened SystemConfiguration
  import opened BankState
  import opened Scheduler
  import opened QueueInvariant
  import opened SchedulerSafety
  import opened Channel
  import opened TimingSafety
  import opened ReadPipeline
  import opened WriteBus
  import opened ChannelSafety
  import opened OneCycle
  import opened Runs

  predicate WriteAt(issued: seq<Option<BusPacket>>, i: nat) {
    i < |issued| && issued[i].Some? && issued[i].value.IsWrite()
  }

  ghost predicate WritesSpaced(c: Config, issued: seq<Option<BusPacket>>) {
    forall i: nat, j: nat :: i < j && WriteAt(issued, i) && WriteAt(issued, j) ==> j - i >= c.BL / 2
  }

  // Seen from cycle t, the bus is still taken for the bursts of all writes so far.
  ghost predicate Awaits(c: Config, t: int, m: ControllerState) {
    forall i: nat :: WriteAt(m.issued, i) ==> BusBacklog(c, m) >= i + c.WL() + c.BL / 2 - t
  }

  lemma SameBusAwaits(c: Config, t: int, m: ControllerState, m': ControllerState)
    requires SameBus(m, m') && Awaits(c, t, m)
    ensures Awaits(c, t, m')
  {
  }

  // One cycle of the bus takes at most one cycle off what it is still taken for.
  lemma BusMovesByOne(c: Config, s: ChannelState)
    requires c.Valid() && WellFormed(c, s) && BurstsApart(c, s.mc, c.WL()) && DriveDataBus(c, s).Ok?
    ensures BusBacklog(c, DriveDataBus(c, s).value.mc) >= BusBacklog(c, s.mc) - 1
    ensures DriveDataBus(c, s).value.mc.issued == s.mc.issued
  {
    var w := s.mc.writeDataCountdown;
    if |w| > 0 {
      CountedDown(w, c.BL / 2, c.WL());
    }
    hide Apart;
  }

  // A write is popped only once the bus is free of the writes before it.
  lemma PopSpacesWrites(c: Config, s: ChannelState)
    requires c.Valid() && BusWideEnough(c) && WellFormed(c, s) && AtDataBus(c, s) && WritesMoved(c, s)
    requires IssueCommand(c, s).Ok? && |s.mc.issued| == s.clock
    requires Awaits(c, s.clock, s.mc) && WritesSpaced(c, s.mc.issued)
    ensures var m := IssueCommand(c, s).value.mc; Awaits(c, s.clock, m) && WritesSpaced(c, m.issued)
  {
    hide TimingAged, QueuesOK, Tracking, RankOK, Reads, WriteGates, IssueAll, PowerFlags, Issue;
    PopMoves(c, s);
    PopFindsRoom(c, s);
    var popped := PopSpec(c, s.clock, s.mc.banks, s.mc.queue).1;
    var m := IssueCommand(c, s).value.mc;
    hide PopSpec, IssueCommand, BusBacklog, AtDataBus, WritesMoved, WellFormed;
    assert forall i: nat :: WriteAt(m.issued, i) ==> WriteAt(s.mc.issued, i) || i == s.clock;
  }

  lemma PopFindsRoom(c: Config, s: ChannelState)
    requires c.Valid() && WellFormed(c, s) && AtDataBus(c, s) && WritesMoved(c, s)
    requires IssueCommand(c, s).Ok?
    ensures var popped := PopSpec(c, s.clock, s.mc.banks, s.mc.queue).1;
      var before, after := BusBacklog(c, s.mc), BusBacklog(c, IssueCommand(c, s).value.mc);
      if popped.Some? && popped.value.IsWrite() then before <= c.WL() && after == c.WL() + c.BL / 2
      else after == before
  {
    hide PopSpec, MayIssue, IssueCommand, RankOK, IssueAll, WriteGate, Issue, QueuesOK, Tracking, Reads, PowerFlags,
         BanksOK, Static, BareReady, Shape, IssueWrite;
    SentState(c, s);
    SentWrites(c, s);
    PopIsSafe(c, s.clock, s.mc.banks, s.mc.queue);
    var s' := IssueCommand(c, s).value;
    if s'.mc.outgoingCmd.Some? {
      var p, wait := s'.mc.outgoingCmd.value, BusBacklog(c, s.mc) - c.WL();
      IssuedWriteGate(c, s.clock, s.mc.banks[p.rank], p, p.rank, p.bank, wait);
    }
  }

  ghost predicate SpacedHistory(c: Config, s: ChannelState)
    requires WellFormed(c, s)
  {
    && WriteSafe(c, s) && |s.mc.issued| == s.clock
    && Awaits(c, s.clock - 1, s.mc) && WritesSpaced(c, s.mc.issued)
  }

  lemma UpdateKeepsSpacing(c: Config, s: ChannelState)
    requires c.Valid() && BusWideEnough(c) && WellFormed(c, s) && Safe(c, s) && SpacedHistory(c, s)
    ensures Update(c, s).Ok? && SpacedHistory(c, Update(c, s).value)
  {
    hide Update, FirstHalf, SecondHalf, DriveDataBus, Safe, AtDataBus, WriteSafe, WritesMoved, WellFormed, Awaits,
         WritesSpaced, SameBus, IssueCommand, RefreshTimer, PopSpec, CycleEnd, TimingFree, Timing, TimingAged,
         QueuesOK, Tracking, RankOK, Reads, Writes, PowerFlags;
    UpdateIsSafe(c, s);
    UpdateInHalves(c, s);
    FirstHalfIsSafe(c, s);
    FirstHalfKeepsWrites(c, s);
    FirstHalfMoves(c, s);
    var s1 := FirstHalf(c, s).value;
    SameBusAwaits(c, s.clock - 1, s.mc, s1.mc);
    DataBusKeepsRest(c, s1);
    DriveDataBusIsSafe(c, s1);
    var s2 := DriveDataBus(c, s1).value;
    BusCycleAwaits(c, s1);
    RefreshTimerKeepsAll(c, s2);
    RefreshTimerMoves(c, s2);
    SecondHalfEnds(c, s2);
    var s3 := RefreshTimer(c, s2);
    SameBusAwaits(c, s.clock, s2.mc, s3.mc);
    SameIssued(s.mc, s1.mc);
    SameIssued(s2.mc, s3.mc);
    PopSpacesWrites(c, s3);
    var s4, s' := IssueCommand(c, s3).value, Update(c, s).value;
    SameIssued(s4.mc, s'.mc);
    SameBusAwaits(c, s.clock, s4.mc, s'.mc);
    PopCounts(c, s3);
    CycleCounts(c, s3, s');
  }

  lemma SameIssued(m: ControllerState, m': ControllerState)
    requires SameBus(m, m')
    ensures m'.issued == m.issued
  {
  }

  lemma PopCounts(c: Config, s: ChannelState)
    requires c.Valid() && WellFormed(c, s) && AtDataBus(c, s) && IssueCommand(c, s).Ok?
    ensures |IssueCommand(c, s).value.mc.issued| == |s.mc.issued| + 1
  {
    hide IssueCommand, AtDataBus, PopSpec, TimingFree, TimingAged, QueuesOK, Tracking, RankOK, Reads;
    PopMoves(c, s);
  }

  lemma CycleCounts(c: Config, s: ChannelState, s': ChannelState)
    requires WellFormed(c, s) && CycleEnd(c, s, s')
    ensures s'.clock == s.clock + 1
  {
    hide PopSpec, PoweredTable, Expanded;
  }

  lemma BusCycleAwaits(c: Config, s: ChannelState)
    requires c.Valid() && WellFormed(c, s) && Writes(c, s, s.clock, 1, 0) && DriveDataBus(c, s).Ok?
    requires Awaits(c, s.clock - 1, s.mc)
    ensures Awaits(c, s.clock, DriveDataBus(c, s).value.mc)
    ensures DriveDataBus(c, s).value.mc.issued == s.mc.issued
  {
    BusMovesByOne(c, s);
    hide DriveDataBus, BusBacklog;
  }

  lemma AddedSpacing(c: Config, s: ChannelState, s': ChannelState)
    requires Requested(c, s, s') && SpacedHistory(c, s)
    ensures SpacedHistory(c, s')
  {
    hide WellFormed;
    SameWritesKeep(c, s, s', s.clock - 1, 0, 0);
    hide Writes;
    SameBusAwaits(c, s.clock - 1, s.mc, s'.mc);
  }

  lemma InitialSpacing(c: Config)
    requires c.Valid()
    ensures SpacedHistory(c, Initial(c))
  {
    InitialWrites(c);
  }

  lemma WritesAreSpaced(c: Config, s: ChannelState)
    requires WellFormed(c, s) && SpacedHistory(c, s)
    ensures WritesSpaced(c, s.mc.issued)
  {
    hide WellFormed, WriteSafe, Awaits;
  }

  // On a bus that is wide enough, in every run and on whatever ranks, writes are issued at
  // least the length of a burst apart, and no burst ever finds the data bus taken.
  lemma EveryRunSpacesWrites(c: Config, requests: seq<seq<Transaction>>)
    requires c.Valid() && BusWideEnough(c)
    ensures Run(c, Initial(c), requests).Ok?
    ensures WritesSpaced(c, Run(c, Initial(c), requests).value.mc.issued)
  {
    hide Safe, Run, Initial, Update, SpacedHistory, WellFormed, BusWideEnough;
    InitialSpacing(c);
    NoErrorExit(c, requests);
    var inv := (s: ChannelState) => WellFormed(c, s) && SpacedHistory(c, s);
    forall s, s' | Requested(c, s, s') && inv(s) ensures inv(s') {
      AddedSpacing(c, s, s');
    }
    forall s, s' | Cycle(c, s, s') && inv(s) ensures inv(s') {
      UpdateKeepsSpacing(c, s);
    }
    RunKeeps(c, inv, requests);
    WritesAreSpaced(c, Run(c, Initial(c), requests).value);
  }
}
