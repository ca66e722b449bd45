// A rank whose refresh has been asked for knows of it until the refresh reaches it; until
// then it is not put to sleep, and it wakes up as soon as it may.
module RefreshFlag {
  import opened Wrappers
  import opened SystemConfiguration
  import opened AddressMapping
  import opened BankState
  import opened Scheduler
  import opened QueueInvariant
  import opened SchedulerSafety
  import opened Channel
  import opened TimingSafety
  import opened ReadPipeline
  import opened Conservation
  import opened ChannelSafety
  import opened OneCycle
  import opened BankStages

  predicate RefreshFor(p: Option<BusPacket>, r: nat) {
    p.Some? && p.value.kind == REFRESH && p.value.rank == r
  }

  // The rank for which a refresh has been asked for knows of it, and the refresh is not
  // on its way.
  ghost predicate Flagged(c: Config, s: ChannelState)
    requires WellFormed(c, s)
  {
    s.mc.queue.refreshWaiting ==>
      s.ranks[s.mc.queue.refreshRank].refreshWaiting && !RefreshFor(s.mc.outgoingCmd, s.mc.queue.refreshRank)
  }

  // ---- Up to the pop ----

  // Only the refresh itself takes a rank's flag away.
  ghost predicate KeepsFlags(s: ChannelState, s': ChannelState) {
    |s'.ranks| == |s.ranks| && forall r :: 0 <= r < |s.ranks| && s.ranks[r].refreshWaiting ==> s'.ranks[r].refreshWaiting
  }

  lemma UpdateRanksFlags(c: Config, s: ChannelState)
    requires WellFormed(c, s) && UpdateRanks(c, s).Ok?
    ensures KeepsFlags(s, UpdateRanks(c, s).value)
  {
  }

  lemma DeliverFlags(c: Config, s: ChannelState)
    requires WellFormed(c, s) && DeliverCommand(c, s).Ok? && Flagged(c, s)
    requires s.mc.outgoingCmd.Some? ==> s.mc.cmdCyclesLeft == 1
    ensures var s' := DeliverCommand(c, s).value;
      s'.mc.outgoingCmd.None? && s'.mc.queue == s.mc.queue
      && (s.mc.queue.refreshWaiting ==> s'.ranks[s.mc.queue.refreshRank].refreshWaiting)
  {
    hide Accepts, Apply;
  }

  lemma FirstHalfFlags(c: Config, s: ChannelState)
    requires c.Valid() && WellFormed(c, s) && Safe(c, s) && Flagged(c, s) && FirstHalf(c, s).Ok?
    ensures var s' := FirstHalf(c, s).value;
      s'.mc.outgoingCmd.None? && (s'.mc.queue.refreshWaiting ==> s'.ranks[s'.mc.queue.refreshRank].refreshWaiting)
  {
    hide UpdateRanks, AdmitPending, DeliverCommand, AgeBanks, Reads, Matched, QueuesOK, PowerFlags;
    InFlightDue(c, s);
    UpdateRanksFlags(c, s);
    RanksMoveNoWrite(c, s);
    var s1 := UpdateRanks(c, s).value;
    AdmitPendingMovesNothing(c, s1);
    AgeBanksMovesNothing(c, AdmitPending(c, s1));
    DeliverFlags(c, AgeBanks(c, AdmitPending(c, s1)));
  }

  lemma PopStateFlags(c: Config, s: ChannelState)
    requires c.Valid() && WellFormed(c, s) && Safe(c, s) && Flagged(c, s) && PopState(c, s).Ok?
    ensures var s' := PopState(c, s).value;
      s'.mc.queue.refreshWaiting ==> s'.ranks[s'.mc.queue.refreshRank].refreshWaiting
  {
    hide FirstHalf, Safe;
    FirstHalfFlags(c, s);
  }

  // ---- The power phase ----

  ghost predicate RowWoken(c: Config, t: int, row: seq<Bank>, row': seq<Bank>) {
    |row'| == |row| && forall b :: 0 <= b < |row| ==> row'[b] == Woken(c, t, row[b])
  }

  // Only the low-power mode puts a bank to sleep.
  ghost predicate MaySleep(c: Config, row: seq<Bank>) {
    forall b :: 0 <= b < |row| && row[b].state == PowerDown ==> c.useLowPower
  }

  lemma PowerOneWakes(c: Config, t: int, row: seq<Bank>, flag: bool, empty: bool, k: RankState)
    requires |row| > 0 && k.refreshWaiting && PowerFlag(row, flag, k) && PowerOne(c, t, row, flag, empty, k).Ok?
    ensures var (row', _, k') := PowerOne(c, t, row, flag, empty, k).value;
      k'.refreshWaiting && RowWoken(c, t, row, row')
  {
  }

  lemma {:induction false} PowerRanksWake(c: Config, s: ChannelState, n: nat, r: nat)
    requires c.Valid() && WellFormed(c, s) && TimingSent(c, s) && n <= c.NumRanks() && r < c.NumRanks()
    requires PowerRanks(c, s, n).Ok? && s.ranks[r].refreshWaiting
    ensures var s' := PowerRanks(c, s, n).value;
      if r < n then s'.ranks[r].refreshWaiting && RowWoken(c, s.clock, s.mc.banks[r], s'.mc.banks[r])
      else s'.ranks[r] == s.ranks[r] && s'.mc.banks[r] == s.mc.banks[r] && s'.mc.powerDown[r] == s.mc.powerDown[r]
    decreases n
  {
    hide TimingSent, PowerOne, RankQueuesEmpty, Shape, PowerRanks, RowWoken;
    if n == 0 {
      PowerRanksStart(c, s);
    } else {
      PowerRanksIsSafe(c, s, n - 1);
      PowerRanksStep(c, s, n - 1);
      PowerRanksWake(c, s, n - 1, r);
      if r == n - 1 {
        FlagAt(c, s, r);
        var empty := RankQueuesEmpty(c, PowerRanks(c, s, n - 1).value.mc.queue, r);
        PowerOneWakes(c, s.clock, s.mc.banks[r], s.mc.powerDown[r], empty, s.ranks[r]);
      }
    }
  }

  lemma FlagAt(c: Config, s: ChannelState, r: nat)
    requires WellFormed(c, s) && TimingSent(c, s) && r < c.NumRanks()
    ensures PowerFlag(s.mc.banks[r], s.mc.powerDown[r], s.ranks[r])
  {
    hide QueuesOK, Tracking;
  }

  lemma ManagePowerWakes(c: Config, s: ChannelState, r: nat)
    requires c.Valid() && WellFormed(c, s) && AfterPop(c, s) && ManagePower(c, s).Ok? && r < c.NumRanks()
    requires s.ranks[r].refreshWaiting
    requires MaySleep(c, s.mc.banks[r])
    ensures var s' := ManagePower(c, s).value;
      s'.ranks[r].refreshWaiting && RowWoken(c, s.clock, s.mc.banks[r], s'.mc.banks[r])
  {
    hide PowerRanks, TimingSent, Reads, Matched;
    if c.useLowPower {
      PowerRanksWake(c, s, c.NumRanks(), r);
    }
  }

  // ---- From the pop to the end of the cycle ----

  lemma PopFlags(c: Config, s: ChannelState)
    requires WellFormed(c, s) && IssueCommand(c, s).Ok?
    ensures IssueCommand(c, s).value.ranks == s.ranks
  {
    hide PopSpec, IssueAll;
  }

  lemma ExpandFlags(c: Config, s: ChannelState)
    requires WellFormed(c, s) && ExpandTransaction(c, s).Ok?
    ensures ExpandTransaction(c, s).value.ranks == s.ranks
  {
    hide Enqueue, FirstWithRoom, Target, CommandFor;
  }

  lemma ReturnFlags(c: Config, s: ChannelState)
    requires WellFormed(c, s) && ReturnRead(c, s).Ok?
    ensures ReturnRead(c, s).value.ranks == s.ranks && ReturnRead(c, s).value.mc.banks == s.mc.banks
  {
  }

  // The table after the pop.
  function PoppedTable(c: Config, s: ChannelState): (banks: BankTable)
    requires WellFormed(c, s)
    ensures TableShape(c, banks)
  {
    hide PopSpec;
    var p := PopSpec(c, s.clock, s.mc.banks, s.mc.queue).1;
    if p.Some? then IssueAll(c, s.clock, p.value, s.mc.banks) else s.mc.banks
  }

  lemma SecondHalfWakes(c: Config, s: ChannelState, r: nat)
    requires c.Valid() && WellFormed(c, s) && AtDataBus(c, s) && SecondHalf(c, s).Ok? && r < c.NumRanks()
    requires RefreshTimer(c, s).ranks[r].refreshWaiting
    requires MaySleep(c, PoppedTable(c, RefreshTimer(c, s))[r])
    ensures var s' := SecondHalf(c, s).value;
      s'.ranks[r].refreshWaiting && RowWoken(c, s.clock, PoppedTable(c, RefreshTimer(c, s))[r], s'.mc.banks[r])
  {
    hide AtDataBus, AfterPop, IssueCommand, ExpandTransaction, ManagePower, ReturnRead, RefreshTimer, WellFormed, PopSpec,
         RowWoken, MaySleep;
    RefreshTimerKeepsAll(c, s);
    var s2 := RefreshTimer(c, s);
    PopKeepsAll(c, s2);
    PopMoves(c, s2);
    PopFlags(c, s2);
    var s3 := IssueCommand(c, s2).value;
    ExpandKeepsAll(c, s3);
    ExpandMoves(c, s3);
    ExpandFlags(c, s3);
    var s4 := ExpandTransaction(c, s3).value;
    PowerKeepsAll(c, s4);
    ManagePowerWakes(c, s4, r);
    var s5 := ManagePower(c, s4).value;
    ReturnKeepsAll(c, s5);
    ReturnFlags(c, s5);
  }

  // A whole cycle: a rank that is asked for a refresh at the pop keeps its flag, and its
  // banks only wake up.
  lemma CycleWakes(c: Config, s: ChannelState, r: nat)
    requires c.Valid() && WellFormed(c, s) && Safe(c, s) && Update(c, s).Ok? && PopState(c, s).Ok? && r < c.NumRanks()
    requires PopState(c, s).value.ranks[r].refreshWaiting
    requires MaySleep(c, PoppedTable(c, PopState(c, s).value)[r])
    ensures var s1, s' := PopState(c, s).value, Update(c, s).value;
      s'.ranks[r].refreshWaiting && RowWoken(c, s.clock, PoppedTable(c, s1)[r], s'.mc.banks[r])
  {
    hide Update, FirstHalf, SecondHalf, DriveDataBus, Safe, AtDataBus, WellFormed, RefreshTimer, RowWoken, PoppedTable, MaySleep;
    UpdateInHalves(c, s);
    FirstHalfIsSafe(c, s);
    var s1 := FirstHalf(c, s).value;
    DataBusKeepsRest(c, s1);
    FirstHalfMoves(c, s);
    SecondHalfWakes(c, DriveDataBus(c, s1).value, r);
  }

  // ---- Waking up ahead of the refresh ----

  lemma TimerFlags(c: Config, s: ChannelState)
    requires c.Valid() && WellFormed(c, s) && Safe(c, s) && PopState(c, s).Ok?
    requires s.mc.powerDown[s.mc.refreshRank] && s.mc.refreshCountdown[s.mc.refreshRank] <= c.tXP
    ensures PopState(c, s).value.ranks[s.mc.refreshRank].refreshWaiting
  {
    hide UpdateRanks, AdmitPending, DeliverCommand, AgeBanks, Safe;
    var s1 := UpdateRanks(c, s).value;
    RanksMoveNoWrite(c, s);
    AdmitPendingMovesNothing(c, s1);
    var s2 := AdmitPending(c, s1);
    AgeBanksMovesNothing(c, s2);
    DeliveryMovesNoWrite(c, AgeBanks(c, s2));
  }

  // Nothing is issued to a rank that sleeps, so the pop leaves it alone.
  lemma SleeperGetsNothing(t: int, banks: BankTable, p: BusPacket, r: nat)
    requires p.rank < |banks| && r < |banks| && |banks[r]| > 0 && MayIssue(t, banks[p.rank], p)
    requires forall i :: 0 <= i < |banks[r]| ==> banks[r][i].state == PowerDown
    ensures p.rank != r
  {
    assert banks[r][0].state == PowerDown;
  }

  lemma SleeperUntouched(c: Config, t: int, p: BusPacket, r: nat, b: nat, m: Bank)
    requires p.rank != r && m.state == PowerDown
    ensures Issue(c, t, p, r, b, m) == m
  {
  }

  lemma SleeperIsLeftAlone(c: Config, s: ChannelState, r: nat, b: nat)
    requires c.Valid() && WellFormed(c, s) && QueuesOK(c, s.clock + 1, s.mc.banks, s.mc.queue)
    requires r < c.NumRanks() && b < c.NumBanks()
    requires forall i :: 0 <= i < c.NumBanks() ==> s.mc.banks[r][i].state == PowerDown
    ensures PoppedTable(c, s)[r][b] == s.mc.banks[r][b]
  {
    PopIsSafe(c, s.clock, s.mc.banks, s.mc.queue);
    hide PopSpec, QueuesOK, MayIssue, RankOK, Issue, Shape;
    var p := PopSpec(c, s.clock, s.mc.banks, s.mc.queue).1;
    if p.Some? {
      SleeperGetsNothing(s.clock, s.mc.banks, p.value, r);
      SleeperUntouched(c, s.clock, p.value, r, b, s.mc.banks[r][b]);
    }
  }

  // A rank that sleeps while its refresh is less than the wake-up delay away wakes up in
  // this very cycle, or as soon as it has slept long enough.
  lemma SleeperIsWokenAhead(c: Config, s: ChannelState, b: nat)
    requires c.Valid() && c.useLowPower && WellFormed(c, s) && Safe(c, s) && Update(c, s).Ok? && b < c.NumBanks()
    requires s.mc.powerDown[s.mc.refreshRank] && s.mc.refreshCountdown[s.mc.refreshRank] <= c.tXP
    ensures var r := s.mc.refreshRank;
      var m, m' := s.mc.banks[r][b], Update(c, s).value.mc.banks[r][b];
      m.state == PowerDown && m' == if s.clock >= m.nextPowerUp then m.(state := Idle, nextActivate := s.clock + c.tXP) else m
  {
    hide Safe, Update, PopState, PopSpec, CycleEnd, AtDataBus, QueuesOK, PoppedTable;
    CycleShape(c, s);
    PopStateIs(c, s);
    TimerFlags(c, s);
    var s1, r := PopState(c, s).value, s.mc.refreshRank;
    AsleepAtPop(c, s, s1, r);
    SleeperIsLeftAlone(c, s1, r, b);
    CycleWakes(c, s, r);
  }

  lemma AsleepAtPop(c: Config, s: ChannelState, s1: ChannelState, r: nat)
    requires c.Valid() && WellFormed(c, s) && WellFormed(c, s1) && Safe(c, s) && AtDataBus(c, s1) && r < c.NumRanks()
    requires s.mc.powerDown[r] && s1.mc.banks == AgeAll(c, s.mc.banks)
    ensures QueuesOK(c, s1.clock + 1, s1.mc.banks, s1.mc.queue)
    ensures forall i :: 0 <= i < c.NumBanks() ==> s1.mc.banks[r][i] == s.mc.banks[r][i] && s1.mc.banks[r][i].state == PowerDown
  {
    hide QueuesOK, Tracking, Reads, Matched;
    assert PowerFlag(s.mc.banks[r], s.mc.powerDown[r], s.ranks[r]);
    RowConsistent(c, s.clock, s.mc.banks, s.mc.queue, r);
  }
}
