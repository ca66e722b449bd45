// When an activated row takes long enough to reach its first write, or there is only
// one rank, bursts never meet on the controller's data bus.
module WriteBus {
  import opened SystemConfiguration
  import opened BankState
  import opened Scheduler
  import opened QueueInvariant
  import opened SchedulerSafety
  import opened Channel
  import opened TimingSafety
  import opened ReadPipeline

  // From the activate of a row to a write to it.
  function ToColumn(c: Config): int {
    Max(1, c.tRCD - c.AL)
  }

  // A write to a freshly activated row of another rank, activated in the cycle after the
  // previous write at the earliest, cannot catch up with the burst of that write.
  predicate Roomy(c: Config) {
    1 + ToColumn(c) >= c.BL / 2
  }

  // The writes waiting for their latency are a burst apart, and the burst on the
  // bus ends before the first of them starts.
  ghost predicate BurstsApart(c: Config, m: ControllerState, high: int) {
    var w := m.writeDataCountdown;
    && |m.writeDataToSend| == |w|
    && Apart(w, c.BL / 2, 1, high)
    && (m.outgoingData.Some? ==>
          1 <= m.dataCyclesLeft <= c.BL / 2 && (|w| > 0 ==> m.dataCyclesLeft <= w[0]))
  }

  // Cycles until the bus is free of every write popped so far.
  function BusBacklog(c: Config, m: ControllerState): int {
    var w := m.writeDataCountdown;
    if |w| > 0 then w[|w| - 1] + c.BL / 2
    else if m.outgoingData.Some? then m.dataCyclesLeft
    else 0
  }

  // A write to bank m has to wait, or need not any more; `slack` is 1 once nothing more is
  // issued in cycle t.
  predicate WriteGate(c: Config, t: int, m: Bank, wait: int, lag: nat, slack: nat) {
    || wait <= slack
    || m.nextWrite >= t + wait
    || (AutoPrecharging(m) && m.countdown >= wait + lag)
    || (Roomy(c) && !Open(m))
  }

  ghost predicate WriteGates(c: Config, s: ChannelState, t: int, early: nat, lag: nat, slack: nat)
    requires WellFormed(c, s)
  {
    forall r, b :: 0 <= r < c.NumRanks() && 0 <= b < c.NumBanks() ==>
      WriteGate(c, t, s.mc.banks[r][b], BusBacklog(c, s.mc) - c.WL() - early, lag, slack)
  }

  // From the pop of cycle t to the pop of the next one; `early` is 1 when the next cycle
  // has begun and the bus countdowns have not yet moved in it.
  ghost predicate Writes(c: Config, s: ChannelState, t: int, early: nat, lag: nat)
    requires WellFormed(c, s)
  {
    BurstsApart(c, s.mc, c.WL()) && WriteGates(c, s, t, early, lag, if early == 0 then 1 else 0)
  }

  // The bus has moved: nothing waits the full latency any more.
  ghost predicate WritesMoved(c: Config, s: ChannelState)
    requires WellFormed(c, s)
  {
    BurstsApart(c, s.mc, c.WL() - 1) && WriteGates(c, s, s.clock, 0, 0, 0)
  }

  lemma NextCycle(c: Config, s: ChannelState, t: int)
    requires WellFormed(c, s) && Writes(c, s, t, 0, 0)
    ensures Writes(c, s, t + 1, 1, 1)
  {
    forall r, b | 0 <= r < c.NumRanks() && 0 <= b < c.NumBanks()
      ensures WriteGate(c, t + 1, s.mc.banks[r][b], BusBacklog(c, s.mc) - c.WL() - 1, 1, 0)
    {
      assert WriteGate(c, t, s.mc.banks[r][b], BusBacklog(c, s.mc) - c.WL(), 0, 1);
    }
  }

  lemma AgedWriteGate(c: Config, t: int, m: Bank, wait: int)
    requires WriteGate(c, t, m, wait, 1, 0)
    ensures WriteGate(c, t, Age(c, m), wait, 0, 0)
  {
  }

  lemma AgeBanksKeepsWrites(c: Config, s: ChannelState)
    requires WellFormed(c, s) && Writes(c, s, s.clock, 1, 1)
    ensures Writes(c, AgeBanks(c, s), s.clock, 1, 0)
  {
    hide WriteGate, Age, Apart;
    var wait := BusBacklog(c, s.mc) - c.WL() - 1;
    forall r, b | 0 <= r < c.NumRanks() && 0 <= b < c.NumBanks()
      ensures WriteGate(c, s.clock, AgeBanks(c, s).mc.banks[r][b], wait, 0, 0)
    {
      AgedWriteGate(c, s.clock, s.mc.banks[r][b], wait);
    }
  }

  // ---- The bus itself ----

  ghost predicate DrivenBus(c: Config, s: ChannelState)
    requires WellFormed(c, s)
  {
    && DriveDataBus(c, s).Ok?
    && var m := DriveDataBus(c, s).value.mc;
       BurstsApart(c, m, c.WL() - 1) && BusBacklog(c, m) <= Max(0, BusBacklog(c, s.mc) - 1)
  }

  // The oldest write leaves for the bus, which is free.
  lemma StartFirst(c: Config, s: ChannelState)
    requires WellFormed(c, s) && |s.mc.writeDataCountdown| > 0 && DecAll(s.mc.writeDataCountdown)[0] == 0
    requires s.mc.outgoingData.Some? ==> s.mc.dataCyclesLeft == 1
    ensures DriveDataBus(c, s).Ok?
    ensures var m := DriveDataBus(c, s).value.mc;
      && m.writeDataToSend == s.mc.writeDataToSend[1..] && m.writeDataCountdown == DecAll(s.mc.writeDataCountdown)[1..]
      && m.outgoingData.Some? && m.dataCyclesLeft == c.BL / 2
  {
    hide DecAll;
  }

  lemma NextTakesBus(c: Config, s: ChannelState)
    requires c.Valid() && WellFormed(c, s) && BurstsApart(c, s.mc, c.WL())
    requires |s.mc.writeDataCountdown| > 0 && DecAll(s.mc.writeDataCountdown)[0] == 0
    ensures DrivenBus(c, s)
  {
    hide WellFormed, Shape, TableOf, TableShape;
    var w, d := s.mc.writeDataCountdown, DecAll(s.mc.writeDataCountdown);
    CountedDown(w, c.BL / 2, c.WL());
    StartFirst(c, s);
    hide DecAll, Dec32, DriveDataBus;
    assert |w| > 1 ==> d[1..][|w| - 2] == d[|w| - 1];
    assert forall i :: 0 <= i < |d[1..]| ==> d[1..][i] == w[i + 1] - 1;
  }

  lemma BusCountsDown(c: Config, s: ChannelState)
    requires c.Valid() && WellFormed(c, s) && BurstsApart(c, s.mc, c.WL())
    requires |s.mc.writeDataCountdown| > 0 ==> DecAll(s.mc.writeDataCountdown)[0] != 0
    ensures DrivenBus(c, s)
  {
    var w := s.mc.writeDataCountdown;
    CountedDown(w, c.BL / 2, c.WL());
    hide DecAll;
    assert forall i :: 0 <= i < |w| ==> DecAll(w)[i] <= c.WL() - 1;
  }

  lemma DriveDataBusIsSafe(c: Config, s: ChannelState)
    requires c.Valid() && WellFormed(c, s) && Writes(c, s, s.clock, 1, 0)
    ensures DriveDataBus(c, s).Ok? && WritesMoved(c, DriveDataBus(c, s).value)
  {
    if |s.mc.writeDataCountdown| > 0 && DecAll(s.mc.writeDataCountdown)[0] == 0 {
      NextTakesBus(c, s);
    } else {
      BusCountsDown(c, s);
    }
    DrivenGates(c, s);
  }

  lemma DrivenGates(c: Config, s: ChannelState)
    requires c.Valid() && WellFormed(c, s) && Writes(c, s, s.clock, 1, 0) && DrivenBus(c, s)
    ensures WritesMoved(c, DriveDataBus(c, s).value)
  {
    hide BurstsApart, Apart, TableOf;
    var s' := DriveDataBus(c, s).value;
    assert s'.mc.banks == s.mc.banks && s'.clock == s.clock;
    hide DriveDataBus, BusBacklog;
    forall r, b | 0 <= r < c.NumRanks() && 0 <= b < c.NumBanks()
      ensures WriteGate(c, s.clock, s'.mc.banks[r][b], BusBacklog(c, s'.mc) - c.WL(), 0, 0)
    {
      assert WriteGate(c, s.clock, s.mc.banks[r][b], BusBacklog(c, s.mc) - c.WL() - 1, 0, 0);
    }
  }

  // ---- Pop ----

  lemma IssuedWriteGate(c: Config, t: int, row: seq<Bank>, p: BusPacket, r: nat, b: nat, wait: int)
    requires c.Valid() && (Roomy(c) || p.rank == r)
    requires b < |row| && wait < c.BL / 2
    requires p.rank == r ==> MayIssue(t, row, p) && WriteGate(c, t, row[p.bank], wait, 0, 0)
    requires WriteGate(c, t, row[b], wait, 0, 0)
    ensures p.rank == r && p.IsWrite() ==> wait <= 0
    ensures WriteGate(c, t, Issue(c, t, p, r, b, row[b]), if p.IsWrite() then c.BL / 2 else wait, 0, 1)
  {
  }

  lemma QuietGates(c: Config, s: ChannelState, s': ChannelState)
    requires WellFormed(c, s) && WellFormed(c, s') && WriteGates(c, s, s.clock, 0, 0, 0)
    requires s'.mc.banks == s.mc.banks && BusBacklog(c, s'.mc) == BusBacklog(c, s.mc)
    ensures WriteGates(c, s', s.clock, 0, 0, 1)
  {
    hide BusBacklog;
    forall r, b | 0 <= r < c.NumRanks() && 0 <= b < c.NumBanks()
      ensures WriteGate(c, s.clock, s'.mc.banks[r][b], BusBacklog(c, s'.mc) - c.WL(), 0, 1)
    {
      assert WriteGate(c, s.clock, s.mc.banks[r][b], BusBacklog(c, s.mc) - c.WL(), 0, 0);
    }
  }

  lemma IssueCommandKeepsWrites(c: Config, s: ChannelState)
    requires c.Valid() && (Roomy(c) || c.NumRanks() == 1)
    requires TimingFree(c, s) && WritesMoved(c, s) && IssueCommand(c, s).Ok?
    ensures Writes(c, IssueCommand(c, s).value, s.clock, 0, 0)
  {
    hide PopSpec, MayIssue, IssueCommand, RankOK, IssueAll, WriteGate, Issue, QueuesOK, Tracking, PowerFlags, BanksOK,
         Static, BareReady, Shape, IssueWrite, IssueRead;
    SentState(c, s);
    SentWrites(c, s);
    PopIsSafe(c, s.clock, s.mc.banks, s.mc.queue);
    var s' := IssueCommand(c, s).value;
    if s'.mc.outgoingCmd.Some? {
      var p, wait := s'.mc.outgoingCmd.value, BusBacklog(c, s.mc) - c.WL();
      IssuedWriteGate(c, s.clock, s.mc.banks[p.rank], p, p.rank, p.bank, wait);
      forall r, b | 0 <= r < c.NumRanks() && 0 <= b < c.NumBanks()
        ensures WriteGate(c, s.clock, s'.mc.banks[r][b], if p.IsWrite() then c.BL / 2 else wait, 0, 1)
      {
        IssuedWriteGate(c, s.clock, s.mc.banks[r], p, r, b, wait);
      }
    } else {
      QuietGates(c, s, s');
    }
  }

  // A popped write joins the back of the bus pipeline.
  lemma SentWrites(c: Config, s: ChannelState)
    requires c.Valid() && WellFormed(c, s) && IssueCommand(c, s).Ok?
    requires BurstsApart(c, s.mc, c.WL() - 1)
    ensures var (q, popped) := PopSpec(c, s.clock, s.mc.banks, s.mc.queue);
      var m, m' := s.mc, IssueCommand(c, s).value.mc;
      if popped.Some? && popped.value.IsWrite() then
        BusBacklog(c, m) <= c.WL() ==> BurstsApart(c, m', c.WL()) && BusBacklog(c, m') == c.WL() + c.BL / 2
      else BurstsApart(c, m', c.WL()) && BusBacklog(c, m') == BusBacklog(c, m)
  {
    hide PopSpec, Issue, IssueAll, Shape, IssueWrite, IssueRead, TableOf, TableShape;
    var popped := PopSpec(c, s.clock, s.mc.banks, s.mc.queue).1;
    var w, w' := s.mc.writeDataCountdown, IssueCommand(c, s).value.mc.writeDataCountdown;
    if popped.Some? && popped.value.IsWrite() && BusBacklog(c, s.mc) <= c.WL() {
      assert w' == w + [c.WL()];
      forall i | 0 <= i < |w| ensures w[i] + c.BL / 2 <= c.WL() {
        assert i < |w| - 1 ==> w[i] + c.BL / 2 <= w[|w| - 1];
      }
    }
  }

  // ---- The rest of the cycle ----

  // Same bus, and only banks that are closed have changed.
  ghost predicate SameWrites(c: Config, s: ChannelState, s': ChannelState)
    requires WellFormed(c, s) && WellFormed(c, s')
  {
    && s'.mc.writeDataCountdown == s.mc.writeDataCountdown && s'.mc.writeDataToSend == s.mc.writeDataToSend
    && s'.mc.outgoingData == s.mc.outgoingData && s'.mc.dataCyclesLeft == s.mc.dataCyclesLeft
    && forall r, b :: 0 <= r < c.NumRanks() && 0 <= b < c.NumBanks() ==>
         && s'.mc.banks[r][b].nextWrite == s.mc.banks[r][b].nextWrite
         && (s.mc.banks[r][b].state == RowActive ==> s'.mc.banks[r][b] == s.mc.banks[r][b])
         && (s.mc.banks[r][b].state != RowActive ==> s'.mc.banks[r][b].state != RowActive)
  }

  lemma SameWritesKeep(c: Config, s: ChannelState, s': ChannelState, t: int, early: nat, lag: nat)
    requires WellFormed(c, s) && WellFormed(c, s') && SameWrites(c, s, s')
    ensures Writes(c, s, t, early, lag) ==> Writes(c, s', t, early, lag)
    ensures s'.clock == s.clock && WritesMoved(c, s) ==> WritesMoved(c, s')
  {
    SameGatesKeep(c, s, s', t, early, lag, if early == 0 then 1 else 0);
    SameGatesKeep(c, s, s', s.clock, 0, 0, 0);
  }

  lemma SameGatesKeep(c: Config, s: ChannelState, s': ChannelState, t: int, early: nat, lag: nat, slack: nat)
    requires WellFormed(c, s) && WellFormed(c, s') && SameWrites(c, s, s')
    ensures WriteGates(c, s, t, early, lag, slack) ==> WriteGates(c, s', t, early, lag, slack)
  {
    hide Apart;
    if WriteGates(c, s, t, early, lag, slack) {
      forall r, b | 0 <= r < c.NumRanks() && 0 <= b < c.NumBanks()
        ensures WriteGate(c, t, s'.mc.banks[r][b], BusBacklog(c, s'.mc) - c.WL() - early, lag, slack)
      {
        assert WriteGate(c, t, s.mc.banks[r][b], BusBacklog(c, s.mc) - c.WL() - early, lag, slack);
      }
    }
  }

  lemma PowerRanksKeepsWrites(c: Config, s: ChannelState, n: nat, t: int)
    requires c.Valid() && WellFormed(c, s) && TimingSent(c, s) && n <= c.NumRanks() && Writes(c, s, t, 0, 0)
    requires PowerRanks(c, s, n).Ok?
    ensures Writes(c, PowerRanks(c, s, n).value, t, 0, 0)
  {
    hide Writes, TimingSent, PowerOne, RankQueuesEmpty, TableShape, Shape, TimingAged, QueuesOK, Tracking, RankOK,
         PowerFlags, WellFormed, BanksOK, Static, BareReady;
    if n > 0 {
      PowerRanksIsSafe(c, s, n - 1);
      PowerRanksKeepsWrites(c, s, n - 1, t);
      var s1 := PowerRanks(c, s, n - 1).value;
      PowerStep(c, s1, n - 1);
      PowerStepKeepsWrites(c, s1, n - 1, t);
    }
  }

  lemma PowerStepKeepsWrites(c: Config, s: ChannelState, r: nat, t: int)
    requires c.Valid() && WellFormed(c, s) && TimingSent(c, s) && r < c.NumRanks() && Writes(c, s, t, 0, 0)
    requires PowerAt(c, s, r).Ok?
    ensures var (row, flag, k) := PowerAt(c, s, r).value;
      var s' := WithRank(s, r, row, flag, k);
      WellFormed(c, s') && Writes(c, s', t, 0, 0)
  {
    hide Writes, PowerOne, RankOK, RowTracks, Accepts, QueuesOK, Tracking, WritesMoved, SameWrites, RankQueuesEmpty,
         BanksOK, Static, BareReady, Shape;
    assert PowerFlag(s.mc.banks[r], s.mc.powerDown[r], s.ranks[r]);
    PowerOneKeepsReads(c, s.clock, s.mc.banks[r], s.mc.powerDown[r], RankQueuesEmpty(c, s.mc.queue, r), s.ranks[r]);
    var (row, flag, k) := PowerAt(c, s, r).value;
    PowerStep(c, s, r);
    SameWritesKeep(c, s, WithRank(s, r, row, flag, k), t, 0, 0);
  }

  lemma ManagePowerKeepsWrites(c: Config, s: ChannelState, t: int)
    requires c.Valid() && WellFormed(c, s) && TimingSent(c, s) && Writes(c, s, t, 0, 0)
    requires ManagePower(c, s).Ok?
    ensures Writes(c, ManagePower(c, s).value, t, 0, 0)
  {
    hide Writes, TimingSent, PowerRanks;
    if c.useLowPower {
      PowerRanksKeepsWrites(c, s, c.NumRanks(), t);
    }
  }

  lemma InitialWrites(c: Config)
    ensures Writes(c, Initial(c), -1, 0, 0)
  {
  }
}
