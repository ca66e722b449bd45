// Reads to one rank are always issued far enough apart that a burst has left the
// rank's output slot before the next one needs it.
module ReadPipeline {
  import opened Wrappers
  import opened SystemConfiguration
  import opened BankState
  import opened Scheduler
  import opened QueueInvariant
  import opened SchedulerSafety
  import opened Channel
  import opened TimingSafety

  // The packets waiting in a rank come out at least a burst apart, and the burst in
  // the output slot ends before the first of them needs the slot.
  ghost predicate Spaced(c: Config, k: RankState) {
    var w := k.readReturnCountdown;
    && |k.readReturnPacket| == |w|
    && (forall i :: 0 <= i < |w| ==> 1 <= w[i] <= c.RL() && k.readReturnPacket[i].kind == DATA)
    && (forall i, j :: 0 <= i < j < |w| ==> w[i] + c.BL / 2 <= w[j])
    && (k.outgoing.Some? ==>
          && 1 <= k.dataCyclesLeft <= c.BL / 2 && k.outgoing.value.kind == DATA
          && (|w| > 0 ==> k.dataCyclesLeft <= w[0]))
  }

  // Cycles until the output slot is free of everything the rank holds.
  function Backlog(c: Config, k: RankState): int {
    var w := k.readReturnCountdown;
    if |w| > 0 then w[|w| - 1] + c.BL / 2
    else if k.outgoing.Some? then k.dataCyclesLeft
    else 0
  }

  // The countdowns of a spaced pipeline.
  ghost predicate Apart(w: seq<nat>, gap: int, low: int, high: int) {
    && (forall i :: 0 <= i < |w| ==> low <= w[i] <= high)
    && (forall i, j :: 0 <= i < j < |w| ==> w[i] + gap <= w[j])
  }

  lemma CountedDown(w: seq<nat>, gap: int, high: int)
    requires Apart(w, gap, 1, high) && gap >= 1
    ensures |DecAll(w)| == |w| && forall i :: 0 <= i < |w| ==> DecAll(w)[i] == w[i] - 1
    ensures |w| > 0 && DecAll(w)[0] != 0 ==> Apart(DecAll(w), gap, 1, high)
    ensures |w| > 0 && DecAll(w)[0] == 0 ==> Apart(DecAll(w)[1..], gap, gap, high)
  {
    var d := DecAll(w);
    assert forall i :: 0 < i < |w| ==> w[0] + gap <= w[i];
  }

  ghost predicate UpdatedPipe(c: Config, k: RankState)
    requires |k.readReturnPacket| == |k.readReturnCountdown|
  {
    var (k', out) := RankUpdate(c, k);
    && Spaced(c, k') && Backlog(c, k') <= Max(0, Backlog(c, k) - 1)
    && (out.Some? ==> out.value.kind == DATA)
  }

  // The first packet leaves for the output slot.
  lemma PopFirst(c: Config, k: RankState)
    requires |k.readReturnPacket| == |k.readReturnCountdown| > 0 && DecAll(k.readReturnCountdown)[0] == 0
    ensures var (k', out) := RankUpdate(c, k);
      && k'.readReturnPacket == k.readReturnPacket[1..] && k'.readReturnCountdown == DecAll(k.readReturnCountdown)[1..]
      && k'.outgoing == Some(k.readReturnPacket[0]) && k'.dataCyclesLeft == c.BL / 2
      && (out.Some? ==> out == k.outgoing)
  {
    hide Dec32;
  }

  lemma NextTakesSlot(c: Config, k: RankState)
    requires c.Valid() && Spaced(c, k)
    requires |k.readReturnCountdown| > 0 && DecAll(k.readReturnCountdown)[0] == 0
    ensures UpdatedPipe(c, k)
  {
    hide Apart;
    var w, d := k.readReturnCountdown, DecAll(k.readReturnCountdown);
    var (k', out) := RankUpdate(c, k);
    PopFirst(c, k);
    hide DecAll, Dec32, RankUpdate;
    CountedDown(w, c.BL / 2, c.RL());
    RestSpaced(c, k, d, k');
    assert |w| > 1 ==> d[1..][|w| - 2] == d[|w| - 1];
  }

  // What stays behind the packet in the slot.
  lemma RestSpaced(c: Config, k: RankState, d: seq<nat>, k': RankState)
    requires c.Valid() && Spaced(c, k) && |d| == |k.readReturnCountdown| > 0
    requires Apart(d[1..], c.BL / 2, c.BL / 2, c.RL())
    requires k'.readReturnPacket == k.readReturnPacket[1..] && k'.readReturnCountdown == d[1..]
    requires k'.outgoing == Some(k.readReturnPacket[0]) && k'.dataCyclesLeft == c.BL / 2
    ensures Spaced(c, k')
  {
    assert forall i :: 0 <= i < |d| - 1 ==> k'.readReturnPacket[i] == k.readReturnPacket[i + 1];
  }

  lemma SlotCountsDown(c: Config, k: RankState)
    requires c.Valid() && Spaced(c, k)
    requires |k.readReturnCountdown| > 0 ==> DecAll(k.readReturnCountdown)[0] != 0
    ensures UpdatedPipe(c, k)
  {
    CountedDown(k.readReturnCountdown, c.BL / 2, c.RL());
    hide DecAll;
  }

  lemma RankUpdateKeepsSpacing(c: Config, k: RankState)
    requires c.Valid() && Spaced(c, k)
    ensures var (k', out) := RankUpdate(c, k);
      && Spaced(c, k') && Backlog(c, k') <= Max(0, Backlog(c, k) - 1)
      && (out.Some? ==> out.value.kind == DATA)
  {
    hide RankUpdate;
    if |k.readReturnCountdown| > 0 && DecAll(k.readReturnCountdown)[0] == 0 {
      NextTakesSlot(c, k);
    } else {
      SlotCountsDown(c, k);
    }
  }

  // When a waiting packet takes the output slot, the slot is free.
  lemma SlotIsFree(c: Config, k: RankState)
    requires Spaced(c, k)
    requires |k.readReturnCountdown| > 0 && Dec32(k.readReturnCountdown[0]) == 0
    ensures k.outgoing.Some? ==> RankUpdate(c, k).1 == k.outgoing
  {
  }

  ghost predicate ReadTo(cmd: Option<BusPacket>, r: nat) {
    cmd.Some? && cmd.value.IsRead() && cmd.value.rank == r
  }

  // How long from now a read of rank r must still wait to find the slot free when
  // its data comes; `late` is 1 once the ranks have moved on in the delivery cycle.
  ghost function Wait(c: Config, cmd: Option<BusPacket>, r: nat, k: RankState, late: nat): int {
    if ReadTo(cmd, r) then c.BL / 2 - late else Backlog(c, k) - 1 - c.RL()
  }

  // Bank m of the controller's table cannot be read before the wait is over; `lag`
  // is 1 while its countdown has not yet been taken down for the current cycle.
  predicate Gate(t: int, m: Bank, wait: int, lag: nat) {
    wait <= 0 || m.nextRead >= t + wait || (AutoPrecharging(m) && m.countdown >= wait + lag)
  }

  ghost predicate RankReads(c: Config, t: int, cmd: Option<BusPacket>, r: nat, row: seq<Bank>, k: RankState,
                            late: nat, lag: nat)
  {
    && Spaced(c, k)
    && (ReadTo(cmd, r) ==> Backlog(c, k) <= c.RL() + 1 - late)
    && forall b :: 0 <= b < |row| ==> Gate(t, row[b], Wait(c, cmd, r, k, late), lag)
  }

  ghost predicate Reads(c: Config, s: ChannelState, t: int, late: nat, lag: nat)
    requires WellFormed(c, s)
  {
    forall r :: 0 <= r < c.NumRanks() ==>
      RankReads(c, t, s.mc.outgoingCmd, r, s.mc.banks[r], s.ranks[r], late, lag)
  }

  // ---- Start of a cycle ----

  lemma UpdateRanksKeepsReads(c: Config, s: ChannelState)
    requires c.Valid() && WellFormed(c, s) && Reads(c, s, s.clock - 1, 0, 0)
    ensures UpdateRanks(c, s).Ok? && Reads(c, UpdateRanks(c, s).value, s.clock, 1, 1)
  {
    hide RankUpdate, Spaced, OutputsUpTo;
    forall r | 0 <= r < c.NumRanks()
      ensures Output(c, s, r).Some? ==> Output(c, s, r).value.kind == DATA
      ensures RankReads(c, s.clock, s.mc.outgoingCmd, r, s.mc.banks[r], RankUpdate(c, s.ranks[r]).0, 1, 1)
    {
      assert RankReads(c, s.clock - 1, s.mc.outgoingCmd, r, s.mc.banks[r], s.ranks[r], 0, 0);
      RankUpdateKeepsSpacing(c, s.ranks[r]);
    }
    assert UpdateRanks(c, s).Ok?;
  }

  lemma AgedGate(c: Config, t: int, m: Bank, wait: int)
    requires Gate(t, m, wait, 1)
    ensures Gate(t, Age(c, m), wait, 0)
  {
  }

  lemma AgeBanksKeepsReads(c: Config, s: ChannelState)
    requires WellFormed(c, s) && Reads(c, s, s.clock, 1, 1)
    ensures Reads(c, AgeBanks(c, s), s.clock, 1, 0)
  {
    hide Spaced, Gate, Age;
    var s' := AgeBanks(c, s);
    forall r | 0 <= r < c.NumRanks()
      ensures RankReads(c, s.clock, s.mc.outgoingCmd, r, s'.mc.banks[r], s.ranks[r], 1, 0)
    {
      assert RankReads(c, s.clock, s.mc.outgoingCmd, r, s.mc.banks[r], s.ranks[r], 1, 1);
      forall b | 0 <= b < |s'.mc.banks[r]|
        ensures Gate(s.clock, s'.mc.banks[r][b], Wait(c, s.mc.outgoingCmd, r, s.ranks[r], 1), 0)
      {
        AgedGate(c, s.clock, s.mc.banks[r][b], Wait(c, s.mc.outgoingCmd, r, s.ranks[r], 1));
      }
    }
  }

  // ---- Delivery ----

  lemma ReceiveKeepsSpacing(c: Config, t: int, k: RankState, p: BusPacket)
    requires c.Valid() && Spaced(c, k) && RankReceive(c, t, k, p).Ok?
    requires p.IsRead() ==> Backlog(c, k) <= c.RL()
    ensures var k' := RankReceive(c, t, k, p).value;
      Spaced(c, k') && Backlog(c, k') == if p.IsRead() then c.RL() + c.BL / 2 else Backlog(c, k)
  {
    hide Accepts, Apply;
    var k' := RankReceive(c, t, k, p).value;
    if p.IsRead() {
      var n := |k.readReturnCountdown|;
      forall i | 0 <= i < n ensures k'.readReturnCountdown[i] + c.BL / 2 <= c.RL() {
        assert i < n - 1 ==> k.readReturnCountdown[i] + c.BL / 2 <= k.readReturnCountdown[n - 1];
      }
    }
  }

  lemma DeliverCommandKeepsReads(c: Config, s: ChannelState)
    requires c.Valid() && WellFormed(c, s) && Reads(c, s, s.clock, 1, 0)
    requires s.mc.outgoingCmd.Some? ==> s.mc.cmdCyclesLeft == 1
    requires DeliverCommand(c, s).Ok?
    ensures Reads(c, DeliverCommand(c, s).value, s.clock, 0, 0) && DeliverCommand(c, s).value.mc.outgoingCmd.None?
  {
    hide RankReceive, Spaced, Gate, Accepts;
    if s.mc.outgoingCmd.Some? {
      var p := s.mc.outgoingCmd.value;
      assert RankReads(c, s.clock, s.mc.outgoingCmd, p.rank, s.mc.banks[p.rank], s.ranks[p.rank], 1, 0);
      ReceiveKeepsSpacing(c, s.clock, s.ranks[p.rank], p);
      var s' := DeliverCommand(c, s).value;
      forall r | 0 <= r < c.NumRanks()
        ensures RankReads(c, s.clock, None, r, s'.mc.banks[r], s'.ranks[r], 0, 0)
      {
        assert RankReads(c, s.clock, s.mc.outgoingCmd, r, s.mc.banks[r], s.ranks[r], 1, 0);
      }
    } else {
      forall r | 0 <= r < c.NumRanks()
        ensures RankReads(c, s.clock, None, r, s.mc.banks[r], s.ranks[r], 0, 0)
      {
        assert RankReads(c, s.clock, s.mc.outgoingCmd, r, s.mc.banks[r], s.ranks[r], 1, 0);
      }
    }
  }

  // ---- Pop ----

  // A read that may issue finds no wait left, and whatever issues keeps the gate.
  lemma IssuedGate(c: Config, t: int, row: seq<Bank>, p: BusPacket, r: nat, b: nat, wait: int)
    requires c.Valid() && b < |row| && wait < c.BL / 2
    requires p.rank == r ==> MayIssue(t, row, p) && Gate(t, row[p.bank], wait, 0)
    requires Gate(t, row[b], wait, 0)
    ensures p.rank == r && p.IsRead() ==> wait <= 0
    ensures Gate(t, Issue(c, t, p, r, b, row[b]), if p.rank == r && p.IsRead() then c.BL / 2 else wait, 0)
  {
  }

  lemma BacklogBound(c: Config, k: RankState)
    requires c.Valid() && Spaced(c, k)
    ensures Backlog(c, k) <= c.RL() + c.BL / 2
  {
  }

  lemma IssuedRankReads(c: Config, t: int, banks: BankTable, p: BusPacket, r: nat, k: RankState)
    requires c.Valid() && r < |banks| && RankReads(c, t, None, r, banks[r], k, 0, 0)
    requires p.rank == r ==> MayIssue(t, banks[r], p)
    ensures RankReads(c, t, Some(p), r, IssueAll(c, t, p, banks)[r], k, 0, 0)
  {
    hide Issue, Gate;
    BacklogBound(c, k);
    hide Spaced;
    var wait := Wait(c, None, r, k, 0);
    var row' := IssueAll(c, t, p, banks)[r];
    if p.rank == r {
      IssuedGate(c, t, banks[r], p, r, p.bank, wait);
    }
    forall b | 0 <= b < |row'|
      ensures Gate(t, row'[b], Wait(c, Some(p), r, k, 0), 0)
    {
      IssuedGate(c, t, banks[r], p, r, b, wait);
    }
  }

  // ---- Whole-state lemmas for the rest of the cycle ----

  // Commands, read pipelines and read gates as before.
  ghost predicate SameReads(c: Config, s: ChannelState, s': ChannelState)
    requires WellFormed(c, s) && WellFormed(c, s')
  {
    && s'.mc.outgoingCmd == s.mc.outgoingCmd
    && forall r :: 0 <= r < c.NumRanks() ==>
         && s'.ranks[r].readReturnPacket == s.ranks[r].readReturnPacket
         && s'.ranks[r].readReturnCountdown == s.ranks[r].readReturnCountdown
         && s'.ranks[r].outgoing == s.ranks[r].outgoing
         && s'.ranks[r].dataCyclesLeft == s.ranks[r].dataCyclesLeft
         && forall b :: 0 <= b < c.NumBanks() ==>
              && s'.mc.banks[r][b].nextRead == s.mc.banks[r][b].nextRead
              && (AutoPrecharging(s.mc.banks[r][b]) ==> s'.mc.banks[r][b] == s.mc.banks[r][b])
  }

  lemma SameReadsKeep(c: Config, s: ChannelState, s': ChannelState, t: int, late: nat, lag: nat)
    requires WellFormed(c, s) && WellFormed(c, s') && SameReads(c, s, s') && Reads(c, s, t, late, lag)
    ensures Reads(c, s', t, late, lag)
  {
    forall r | 0 <= r < c.NumRanks()
      ensures RankReads(c, t, s'.mc.outgoingCmd, r, s'.mc.banks[r], s'.ranks[r], late, lag)
    {
      assert RankReads(c, t, s.mc.outgoingCmd, r, s.mc.banks[r], s.ranks[r], late, lag);
      forall b | 0 <= b < c.NumBanks()
        ensures Gate(t, s'.mc.banks[r][b], Wait(c, s'.mc.outgoingCmd, r, s'.ranks[r], late), lag)
      {
        assert Gate(t, s.mc.banks[r][b], Wait(c, s.mc.outgoingCmd, r, s.ranks[r], late), lag);
      }
    }
  }

  lemma IssueCommandKeepsReads(c: Config, s: ChannelState)
    requires c.Valid() && TimingFree(c, s) && Reads(c, s, s.clock, 0, 0)
    ensures IssueCommand(c, s).Ok? && Reads(c, IssueCommand(c, s).value, s.clock, 0, 0)
  {
    hide PopSpec, MayIssue, IssueCommand, RankOK, RankReads, IssueAll, QueuesOK, Tracking, PowerFlags, Issue, BanksOK,
         Static, BareReady, Shape, IssueWrite;
    SentState(c, s);
    PopIsSafe(c, s.clock, s.mc.banks, s.mc.queue);
    var s' := IssueCommand(c, s).value;
    forall r | 0 <= r < c.NumRanks()
      ensures RankReads(c, s.clock, s'.mc.outgoingCmd, r, s'.mc.banks[r], s'.ranks[r], 0, 0)
    {
      assert RankReads(c, s.clock, None, r, s.mc.banks[r], s.ranks[r], 0, 0);
      if s'.mc.outgoingCmd.Some? {
        IssuedRankReads(c, s.clock, s.mc.banks, s'.mc.outgoingCmd.value, r, s.ranks[r]);
      }
    }
  }

  lemma PowerOneKeepsReads(c: Config, t: int, row: seq<Bank>, flag: bool, empty: bool, k: RankState)
    requires |row| > 0 && PowerOne(c, t, row, flag, empty, k).Ok?
    requires flag ==> forall b :: 0 <= b < |row| ==> row[b].state == PowerDown
    ensures var (row', flag', k') := PowerOne(c, t, row, flag, empty, k).value;
      && |row'| == |row|
      && k'.readReturnPacket == k.readReturnPacket && k'.readReturnCountdown == k.readReturnCountdown
      && k'.outgoing == k.outgoing && k'.dataCyclesLeft == k.dataCyclesLeft
      && forall b :: 0 <= b < |row| ==>
           && row'[b].nextRead == row[b].nextRead && row'[b].nextWrite == row[b].nextWrite
           && (row[b].state == RowActive ==> row'[b] == row[b])
           && (row[b].state != RowActive ==> row'[b].state != RowActive)
  {
  }

  lemma PowerRanksKeepsReads(c: Config, s: ChannelState, n: nat, t: int)
    requires c.Valid() && WellFormed(c, s) && TimingSent(c, s) && n <= c.NumRanks() && Reads(c, s, t, 0, 0)
    requires PowerRanks(c, s, n).Ok?
    ensures Reads(c, PowerRanks(c, s, n).value, t, 0, 0)
  {
    hide Reads, TimingSent, PowerOne, RankQueuesEmpty, TableShape, Shape, TimingAged, QueuesOK, Tracking, RankOK,
         PowerFlags, WellFormed, BanksOK, Static, BareReady;
    if n > 0 {
      PowerRanksIsSafe(c, s, n - 1);
      PowerRanksKeepsReads(c, s, n - 1, t);
      var s1 := PowerRanks(c, s, n - 1).value;
      PowerStep(c, s1, n - 1);
      PowerStepKeepsReads(c, s1, n - 1, t);
    }
  }

  lemma PowerStepKeepsReads(c: Config, s: ChannelState, r: nat, t: int)
    requires c.Valid() && WellFormed(c, s) && TimingSent(c, s) && r < c.NumRanks() && Reads(c, s, t, 0, 0)
    requires PowerAt(c, s, r).Ok?
    ensures var (row, flag, k) := PowerAt(c, s, r).value;
      var s' := WithRank(s, r, row, flag, k);
      WellFormed(c, s') && Reads(c, s', t, 0, 0)
  {
    hide Reads, PowerOne, RankOK, RowTracks, Accepts, QueuesOK, Tracking, RankQueuesEmpty, BanksOK, Static, BareReady,
         Shape, Paired, Tracks;
    assert PowerFlag(s.mc.banks[r], s.mc.powerDown[r], s.ranks[r]);
    PowerOneKeepsReads(c, s.clock, s.mc.banks[r], s.mc.powerDown[r], RankQueuesEmpty(c, s.mc.queue, r), s.ranks[r]);
    var (row, flag, k) := PowerAt(c, s, r).value;
    PowerStep(c, s, r);
    SameReadsKeep(c, s, WithRank(s, r, row, flag, k), t, 0, 0);
  }

  lemma ManagePowerKeepsReads(c: Config, s: ChannelState, t: int)
    requires c.Valid() && WellFormed(c, s) && TimingSent(c, s) && Reads(c, s, t, 0, 0)
    requires ManagePower(c, s).Ok?
    ensures Reads(c, ManagePower(c, s).value, t, 0, 0)
  {
    hide Reads, TimingSent, PowerRanks;
    if c.useLowPower {
      PowerRanksKeepsReads(c, s, c.NumRanks(), t);
    }
  }

  // Phases that touch neither the command bus, the banks nor the pipelines.
  lemma UntouchedReads(c: Config, s: ChannelState, s': ChannelState, t: int, late: nat, lag: nat)
    requires WellFormed(c, s) && WellFormed(c, s') && Reads(c, s, t, late, lag)
    requires s'.mc.outgoingCmd == s.mc.outgoingCmd && s'.mc.banks == s.mc.banks
    requires forall r :: 0 <= r < c.NumRanks() ==> s'.ranks[r] == s.ranks[r].(refreshWaiting := s'.ranks[r].refreshWaiting)
    ensures Reads(c, s', t, late, lag)
  {
    hide Reads;
    SameReadsKeep(c, s, s', t, late, lag);
  }

  lemma InitialReads(c: Config)
    requires c.Valid()
    ensures Reads(c, Initial(c), -1, 0, 0)
  {
    var s := Initial(c);
    forall r | 0 <= r < c.NumRanks()
      ensures RankReads(c, -1, None, r, s.mc.banks[r], s.ranks[r], 0, 0)
    {
    }
  }
}
