// The device's timing rules in its own parameters: commands against commands, and the
// bursts of data they move against each other. Both the channel's history and the checks
// of a single rank keep them.
module DeviceTimings {
  import opened Wrappers
  import opened SystemConfiguration
  import opened BankState
  import opened Scheduler
  import opened Channel
  import opened ChannelSafety
  import opened OneCycle
  import opened CommandHistory
  import opened RowHistory
  import opened Turnaround
  import opened SleepHistory
  import opened Runs

  // ---- Bursts: the cycles in which the data of a column access moves ----

  function ReadBegins(c: Config, i: int): int {
    i + c.CL + c.AL
  }

  function ReadEnds(c: Config, i: int): int {
    ReadBegins(c, i) + c.BL / 2
  }

  function WriteBegins(c: Config, i: int): int {
    i + c.CL + c.AL - 1
  }

  function WriteEnds(c: Config, i: int): int {
    WriteBegins(c, i) + c.BL / 2
  }

  // ---- The rules, for command p of cycle i and command q of cycle j ----

  // Two column accesses. Within a rank commands also stay tCCD apart, and written data is
  // tWTR old before a read; bursts never overlap, and lie tRTRS apart when the data bus
  // turns around or another rank drives it.
  predicate ColumnsApart(c: Config, i: int, p: BusPacket, j: int, q: BusPacket) {
    var same := p.rank == q.rank;
    && (p.IsRead() && q.IsRead() ==>
          (if same then j >= i + c.tCCD && ReadBegins(c, j) >= ReadEnds(c, i)
           else ReadBegins(c, j) >= ReadEnds(c, i) + c.tRTRS))
    && (p.IsWrite() && q.IsWrite() ==>
          (if same then j >= i + c.tCCD && WriteBegins(c, j) >= WriteEnds(c, i)
           else WriteBegins(c, j) >= WriteEnds(c, i) + c.tRTRS))
    && (p.IsRead() && q.IsWrite() ==> WriteBegins(c, j) >= ReadEnds(c, i) + c.tRTRS)
    && (p.IsWrite() && q.IsRead() ==>
          (if same then j >= WriteEnds(c, i) + c.tWTR else ReadBegins(c, j) >= WriteEnds(c, i) + c.tRTRS))
  }

  // A bank's row is open tRCD before its columns are used (AL of it after the command) and
  // tRAS before it is closed; read data has left the row, and written data is tWR old,
  // before it is closed.
  predicate RowKept(c: Config, i: int, p: BusPacket, j: int, q: BusPacket) {
    && (p.kind == ACTIVATE && q.IsColumn() ==> j + c.AL >= i + c.tRCD)
    && (p.kind == ACTIVATE && q.kind == PRECHARGE ==> j >= i + c.tRAS)
    && (p.kind == READ && q.kind == PRECHARGE ==>
          j >= i + c.AL + c.BL / 2 && j + c.tCCD >= i + c.AL + c.BL / 2 + c.tRTP)
    && (p.kind == WRITE && q.kind == PRECHARGE ==> j >= WriteEnds(c, i) + c.tWR)
  }

  // A bank is precharged tRP before it is activated or refreshed again, by command or by
  // itself after a column access with auto-precharge.
  predicate BankRests(c: Config, i: int, p: BusPacket, j: int) {
    && (p.kind == ACTIVATE ==> j >= i + c.tRC)
    && (p.kind == PRECHARGE ==> j >= i + c.tRP)
    && (p.kind == READ_P ==> j >= i + c.AL + c.tRTP + c.tRP)
    && (p.kind == WRITE_P ==> j >= WriteEnds(c, i) + c.tWR + c.tRP)
  }

  // ---- Histories ----

  // Packet i of a history and packet j after it. An activate or a refresh keeps its delays
  // in full when no nap can cut them short.
  ghost predicate KeepsDevice(c: Config, issued: seq<Option<BusPacket>>, i: nat, j: nat)
    requires i < j < |issued| && issued[i].Some? && issued[j].Some?
  {
    var p, q := issued[i].value, issued[j].value;
    var sameRank, sameBank := p.rank == q.rank, p.rank == q.rank && p.bank == q.bank;
    var closing := p.kind == READ_P || p.kind == WRITE_P;
    && (p.IsColumn() && q.IsColumn() && !(sameBank && closing) && Remembered(issued[..j], i, q.rank, q.bank) ==>
          ColumnsApart(c, i, p, j, q))
    && (sameBank && closing && q.IsColumn() ==> BankRests(c, i, p, j))
    && (sameBank ==> RowKept(c, i, p, j, q))
    && (!c.useLowPower || NapsAreLong(c) ==>
          && (sameBank && q.kind == ACTIVATE ==> BankRests(c, i, p, j))
          && (sameRank && q.kind == REFRESH ==> BankRests(c, i, p, j))
          && (sameRank && !sameBank && p.kind == ACTIVATE && q.kind == ACTIVATE ==> j >= i + c.tRRD)
          && (sameRank && p.kind == REFRESH && (q.kind == ACTIVATE || q.kind == REFRESH) ==> j >= i + c.tRFC))
  }

  lemma LegalColumns(c: Config, i: nat, p: BusPacket, j: nat, q: BusPacket)
    requires c.Valid() && p.IsColumn() && q.IsColumn() && p.rank == q.rank && p.bank == q.bank
    requires FarEnough(c, i, p, j, q)
    ensures if p.kind == READ_P || p.kind == WRITE_P then BankRests(c, i, p, j) else ColumnsApart(c, i, p, j, q)
  {
  }

  lemma TurnedColumns(c: Config, i: nat, p: BusPacket, j: nat, q: BusPacket)
    requires c.Valid() && p.IsColumn() && q.IsColumn()
    requires j - i >= if q.IsRead() then ToRead(c, p, q.rank) else ToWrite(c, p, q.rank)
    ensures ColumnsApart(c, i, p, j, q)
  {
  }

  lemma LegalRows(c: Config, i: nat, p: BusPacket, j: nat, q: BusPacket)
    requires c.Valid() && p.rank == q.rank && p.bank == q.bank && FarEnough(c, i, p, j, q)
    ensures RowKept(c, i, p, j, q)
  {
  }

  lemma FullRests(c: Config, i: nat, p: BusPacket, j: nat, q: BusPacket)
    requires c.Valid() && p.rank == q.rank && p.bank < c.NumBanks() && KeepsAway(c, true, i, p, j, q)
    ensures q.kind == ACTIVATE && p.bank == q.bank ==> BankRests(c, i, p, j)
    ensures q.kind == ACTIVATE && p.bank != q.bank && p.kind == ACTIVATE ==> j >= i + c.tRRD
    ensures q.kind == REFRESH ==> BankRests(c, i, p, j)
    ensures p.kind == REFRESH && (q.kind == ACTIVATE || q.kind == REFRESH) ==> j >= i + c.tRFC
  {
    if q.kind == REFRESH {
      assert j - i >= DelayAfter(c, true, p, q.rank, p.bank);
    }
  }

  // Everything issued is for a bank of the channel.
  ghost predicate InChannel(c: Config, issued: seq<Option<BusPacket>>) {
    forall i :: 0 <= i < |issued| && issued[i].Some? ==>
      issued[i].value.rank < c.NumRanks() && issued[i].value.bank < c.NumBanks()
  }

  lemma UpdateStaysInChannel(c: Config, s: ChannelState)
    requires c.Valid() && WellFormed(c, s) && Safe(c, s) && Update(c, s).Ok? && InChannel(c, s.mc.issued)
    ensures InChannel(c, Update(c, s).value.mc.issued)
  {
    hide Safe, Update, PopState, PopSpec, AtDataBus, PoweredTable, Expanded, AgeAll, DecAll, Restarted;
    CycleShape(c, s);
    PopStateIs(c, s);
  }

  lemma EveryRunIsInChannel(c: Config, requests: seq<seq<Transaction>>)
    requires c.Valid() && Run(c, Initial(c), requests).Ok?
    ensures InChannel(c, Run(c, Initial(c), requests).value.mc.issued)
  {
    hide Safe, Run, Initial, Update, WellFormed;
    NothingIssued(c);
    var inv := (s: ChannelState) => InChannel(c, s.mc.issued);
    forall s, s' | Cycle(c, s, s') && inv(s) ensures inv(s') {
      UpdateStaysInChannel(c, s);
    }
    RunKeeps(c, inv, requests);
  }

  lemma NothingIssued(c: Config)
    ensures Initial(c).mc.issued == []
  {
    hide Shape, TableShape;
  }

  // Two commands of a run.
  lemma HistoryKeepsDevice(c: Config, issued: seq<Option<BusPacket>>, i: nat, j: nat)
    requires c.Valid() && i < j < |issued| && issued[i].Some? && issued[j].Some?
    requires LegalHistory(c, issued) && TurnsAround(c, issued) && InChannel(c, issued)
    requires !c.useLowPower || NapsAreLong(c) ==> DelaysKept(c, true, issued)
    ensures KeepsDevice(c, issued, i, j)
  {
    var p, q := issued[i].value, issued[j].value;
    assert FarEnough(c, i, p, j, q);
    hide FarEnough, Remembered, ToRead, ToWrite, RowKept, BankRests, ColumnsApart, NapsAreLong, KeepsAway;
    if p.rank == q.rank && p.bank == q.bank {
      LegalRows(c, i, p, j, q);
    }
    if p.IsColumn() && q.IsColumn() {
      if p.rank == q.rank && p.bank == q.bank {
        LegalColumns(c, i, p, j, q);
      } else if Remembered(issued[..j], i, q.rank, q.bank) {
        TurnedColumns(c, i, p, j, q);
      }
    }
    if p.rank == q.rank && (!c.useLowPower || NapsAreLong(c)) {
      FullRests(c, i, p, j, q);
    }
  }

  // In every run any two commands keep the device's distances, in the device's own
  // parameters.
  lemma EveryRunKeepsTheDevice(c: Config, requests: seq<seq<Transaction>>, i: nat, j: nat)
    requires c.Valid()
    ensures Run(c, Initial(c), requests).Ok? ==>
      var issued := Run(c, Initial(c), requests).value.mc.issued;
      i < j < |issued| && issued[i].Some? && issued[j].Some? ==> KeepsDevice(c, issued, i, j)
  {
    hide Run, Initial, KeepsDevice, LegalHistory, TurnsAround, InChannel, DelaysKept, NapsAreLong;
    if Run(c, Initial(c), requests).Ok? {
      EveryRunIsLegal(c, requests);
      EveryRunTurnsAround(c, requests);
      EveryRunIsInChannel(c, requests);
      LongNapsOrNone(c);
      if !c.useLowPower || NapsAreLong(c) {
        EveryRunKeepsFullDelays(c, requests);
      }
      var issued := Run(c, Initial(c), requests).value.mc.issued;
      if i < j < |issued| && issued[i].Some? && issued[j].Some? {
        HistoryKeepsDevice(c, issued, i, j);
      }
    }
  }

  lemma LongNapsOrNone(c: Config)
    ensures !c.useLowPower ==> NapsAreLong(c)
  {
  }

  // ---- What a rank refuses ----

  // The rank's table after packet p of cycle t.
  function AfterPacket(c: Config, t: int, p: BusPacket, banks: seq<Bank>): seq<Bank> {
    seq(|banks|, b requires 0 <= b < |banks| => Apply(c, t, p, b, banks[b]))
  }

  // Packets that a rank takes one after the other, without stopping the simulation.
  predicate Takes(c: Config, k: RankState, cmds: seq<(int, BusPacket)>)
    decreases |cmds|
  {
    cmds == []
    || (RankReceive(c, cmds[0].0, k, cmds[0].1).Ok?
        && Takes(c, RankReceive(c, cmds[0].0, k, cmds[0].1).value, cmds[1..]))
  }

  lemma ReceivedPacket(c: Config, t: int, k: RankState, p: BusPacket)
    requires RankReceive(c, t, k, p).Ok?
    ensures Accepts(t, k.banks, p) && RankReceive(c, t, k, p).value.banks == AfterPacket(c, t, p, k.banks)
  {
    hide Accepts, Apply;
  }

  // Packet q of cycle j is far enough from packet p of cycle i of the same rank.
  predicate RankApart(c: Config, i: int, p: BusPacket, j: int, q: BusPacket) {
    var closing := p.kind == READ_P || p.kind == WRITE_P;
    && (p.IsColumn() && q.IsColumn() && p.rank == q.rank && (p.bank != q.bank || !closing) ==> ColumnsApart(c, i, p, j, q))
    && (p.bank == q.bank ==> RowKept(c, i, p, j, q))
    && (q.kind == ACTIVATE && p.bank == q.bank ==> BankRests(c, i, p, j))
    && (q.kind == ACTIVATE && p.bank != q.bank && p.kind == ACTIVATE ==> j >= i + c.tRRD)
    && (q.kind == ACTIVATE && p.kind == REFRESH ==> j >= i + c.tRFC)
  }

  // The bank's entry still holds back what packet p of cycle i holds back.
  predicate HoldsBack(c: Config, i: int, p: BusPacket, b: nat, k: Bank) {
    var closing := p.kind == READ_P || p.kind == WRITE_P;
    var own := p.bank == b;
    && (p.IsRead() && !(own && closing) ==>
          && k.nextRead >= i + c.tCCD && k.nextRead >= i + c.BL / 2
          && k.nextWrite >= i + c.BL / 2 + c.tRTRS + 1)
    && (p.IsWrite() && !(own && closing) ==>
          && k.nextWrite >= i + c.tCCD && k.nextWrite >= i + c.BL / 2
          && k.nextRead >= i + c.CL + c.AL - 1 + c.BL / 2 + c.tWTR)
    && (own && p.kind == ACTIVATE ==>
          && k.nextRead >= i + c.tRCD - c.AL && k.nextWrite >= i + c.tRCD - c.AL
          && k.nextPrecharge >= i + c.tRAS && k.nextActivate >= i + c.tRC)
    && (own && p.kind == READ ==>
          k.nextPrecharge >= i + c.AL + c.BL / 2 && k.nextPrecharge + c.tCCD >= i + c.AL + c.BL / 2 + c.tRTP)
    && (own && p.kind == WRITE ==> k.nextPrecharge >= i + c.CL + c.AL - 1 + c.BL / 2 + c.tWR)
    && (own && p.kind == READ_P ==> k.nextActivate >= i + c.AL + c.tRTP + c.tRP)
    && (own && p.kind == WRITE_P ==> k.nextActivate >= i + c.CL + c.AL - 1 + c.BL / 2 + c.tWR + c.tRP)
    && (own && p.kind == PRECHARGE ==> k.nextActivate >= i + c.tRP)
    && (!own && p.kind == ACTIVATE ==> k.nextActivate >= i + c.tRRD)
    && (p.kind == REFRESH ==> k.nextActivate >= i + c.tRFC)
  }

  // It does from the packet on, until the bank is activated or the rank refreshed.
  lemma AppliedHoldsBack(c: Config, i: int, p: BusPacket, b: nat, k: Bank)
    requires c.Valid()
    ensures HoldsBack(c, i, p, b, Apply(c, i, p, b, k))
  {
  }

  predicate Restarts(x: BusPacket, b: nat) {
    (x.kind == ACTIVATE && x.bank == b) || x.kind == REFRESH
  }

  lemma AppliedKeepsBack(c: Config, i: int, p: BusPacket, t: int, x: BusPacket, b: nat, k: Bank)
    requires c.Valid() && HoldsBack(c, i, p, b, k) && !Restarts(x, b)
    ensures HoldsBack(c, i, p, b, Apply(c, t, x, b, k))
  {
  }

  lemma HeldBackRefused(c: Config, i: int, p: BusPacket, j: int, q: BusPacket, banks: seq<Bank>)
    requires Accepts(j, banks, q) && (q.bank < |banks| ==> HoldsBack(c, i, p, q.bank, banks[q.bank]))
    requires q.kind != REFRESH && q.kind != DATA && p.rank == q.rank
    ensures RankApart(c, i, p, j, q)
  {
  }

  lemma {:induction false} HeldBackLater(c: Config, i: int, p: BusPacket, k: RankState, cmds: seq<(int, BusPacket)>, j: nat)
    requires c.Valid() && Takes(c, k, cmds) && j < |cmds| && p.rank == cmds[j].1.rank
    requires cmds[j].1.kind != REFRESH && cmds[j].1.kind != DATA
    requires cmds[j].1.bank < |k.banks| ==> HoldsBack(c, i, p, cmds[j].1.bank, k.banks[cmds[j].1.bank])
    requires forall n :: 0 <= n < j ==> !Restarts(cmds[n].1, cmds[j].1.bank)
    ensures RankApart(c, i, p, cmds[j].0, cmds[j].1)
    decreases |cmds|
  {
    hide HoldsBack, Accepts, Apply, RankApart, RankReceive;
    var q := cmds[j].1;
    ReceivedPacket(c, cmds[0].0, k, cmds[0].1);
    if j == 0 {
      HeldBackRefused(c, i, p, cmds[j].0, q, k.banks);
    } else {
      var next := RankReceive(c, cmds[0].0, k, cmds[0].1).value;
      if q.bank < |k.banks| {
        AppliedKeepsBack(c, i, p, cmds[0].0, cmds[0].1, q.bank, k.banks[q.bank]);
      }
      assert cmds[1..][j - 1] == cmds[j];
      forall n | 0 <= n < j - 1 ensures !Restarts(cmds[1..][n].1, q.bank) {
        assert cmds[1..][n] == cmds[n + 1];
      }
      HeldBackLater(c, i, p, next, cmds[1..], j - 1);
    }
  }

  // Whatever a rank takes, from whatever state: two of its packets keep the device's
  // distances, unless the later one's bank has been activated or the rank refreshed in
  // between. A packet that comes earlier is refused.
  lemma {:induction false} RankKeepsTheDevice(c: Config, k: RankState, cmds: seq<(int, BusPacket)>, i: nat, j: nat)
    requires c.Valid() && Takes(c, k, cmds) && i < j < |cmds| && cmds[i].1.rank == cmds[j].1.rank
    requires cmds[j].1.kind != REFRESH && cmds[j].1.kind != DATA
    requires forall n :: i < n < j ==> !Restarts(cmds[n].1, cmds[j].1.bank)
    ensures RankApart(c, cmds[i].0, cmds[i].1, cmds[j].0, cmds[j].1)
    decreases |cmds|
  {
    hide HoldsBack, Accepts, Apply, RankApart, Restarts, RankReceive;
    var (t, p) := cmds[0];
    ReceivedPacket(c, t, k, p);
    var next := RankReceive(c, t, k, p).value;
    assert cmds[1..][j - 1] == cmds[j];
    if i == 0 {
      var b := cmds[j].1.bank;
      if b < |k.banks| {
        AppliedHoldsBack(c, t, p, b, k.banks[b]);
      }
      forall n | 0 <= n < j - 1 ensures !Restarts(cmds[1..][n].1, b) {
        assert cmds[1..][n] == cmds[n + 1];
      }
      HeldBackLater(c, t, p, next, cmds[1..], j - 1);
    } else {
      assert cmds[1..][i - 1] == cmds[i];
      forall n | i - 1 < n < j - 1 ensures !Restarts(cmds[1..][n].1, cmds[j].1.bank) {
        assert cmds[1..][n] == cmds[n + 1];
      }
      RankKeepsTheDevice(c, next, cmds[1..], i - 1, j - 1);
    }
  }

  // The row that is open in a bank of the rank.
  function RankRow(k: Bank): Option<nat> {
    if k.state == RowActive then Some(k.openRow) else None
  }

  // The row that the first n packets leave open in a bank, read off the packets.
  function RowAfter(row: Option<nat>, cmds: seq<(int, BusPacket)>, n: nat, r: nat, b: nat): Option<nat>
    requires n <= |cmds|
    decreases n
  {
    if n == 0 then row else After(RowAfter(row, cmds, n - 1, r, b), Some(cmds[n - 1].1), r, b)
  }

  lemma {:induction false} RowAfterFirst(row: Option<nat>, cmds: seq<(int, BusPacket)>, n: nat, r: nat, b: nat)
    requires n < |cmds|
    ensures RowAfter(After(row, Some(cmds[0].1), r, b), cmds[1..], n, r, b) == RowAfter(row, cmds, n + 1, r, b)
    decreases n
  {
    hide After;
    if n > 0 {
      RowAfterFirst(row, cmds, n - 1, r, b);
      assert cmds[1..][n - 1] == cmds[n];
    }
  }

  lemma AppliedRow(c: Config, t: int, p: BusPacket, banks: seq<Bank>, b: nat)
    requires b < |banks| && Accepts(t, banks, p) && p.kind != DATA
    ensures RankRow(Apply(c, t, p, b, banks[b])) == After(RankRow(banks[b]), Some(p), p.rank, b)
  {
  }

  // A rank takes a column access only on the row that is open, an activate only on a
  // closed bank, a precharge only on an open one, a refresh only when all are closed.
  lemma {:induction false} RankFindsItsRow(c: Config, r: nat, k: RankState, cmds: seq<(int, BusPacket)>, j: nat, b: nat)
    requires Takes(c, k, cmds) && j < |cmds| && b < |k.banks|
    requires forall n :: 0 <= n < |cmds| ==> cmds[n].1.rank == r && cmds[n].1.kind != DATA
    ensures var q, row := cmds[j].1, RowAfter(RankRow(k.banks[b]), cmds, j, r, b);
      && (q.IsColumn() && q.bank == b ==> row == Some(q.row))
      && ((q.kind == ACTIVATE && q.bank == b) || q.kind == REFRESH ==> row == None)
      && (q.kind == PRECHARGE && q.bank == b ==> row != None)
    decreases |cmds|
  {
    hide Apply, After, RankReceive;
    ReceivedPacket(c, cmds[0].0, k, cmds[0].1);
    if j > 0 {
      AppliedRow(c, cmds[0].0, cmds[0].1, k.banks, b);
      RankFindsItsRow(c, r, RankReceive(c, cmds[0].0, k, cmds[0].1).value, cmds[1..], j - 1, b);
      RowAfterFirst(RankRow(k.banks[b]), cmds, j - 1, r, b);
      assert cmds[1..][j - 1] == cmds[j];
    }
  }
}
