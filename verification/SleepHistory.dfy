// Low-power mode and the delays before an activate or a refresh: how much of a delay is
// left when a rank sleeps and wakes in between.
module SleepHistory {
  import opened Wrappers
  import opened SystemConfiguration
  import opened BankState
  import opened Scheduler
  import opened QueueInvariant
  import opened SchedulerSafety
  import opened Channel
  import opened TimingSafety
  import opened ReadPipeline
  import opened WriteBus
  import opened Conservation
  import opened ChannelSafety
  import opened OneCycle
  import opened CommandHistory
  import opened RowFairness
  import opened RowUse
  import opened Runs
  import RoundRobin

  // ---- The delays ----

  // From an activate to the cycle in which the row may begin to close.
  function ToClose(c: Config): int {
    var used := ToColumn(c) + Least(c.ReadToPre(), c.WriteToPre());
    if c.policy == OpenPage then Max(c.tRAS, used) else used
  }

  // Cycles that pass at least from packet p until its bank is idle.
  function ToIdle(c: Config, p: BusPacket): int {
    match p.kind
    case ACTIVATE => ToClose(c) + c.tRP
    case PRECHARGE => c.tRP
    case REFRESH => c.tRFC
    case READ_P => c.ReadToPre() + c.tRP
    case WRITE_P => c.WriteToPre() + c.tRP
    case READ | WRITE | DATA => 0
  }

  // From the cycle in which a rank falls asleep to the first activate after it is woken.
  function Nap(c: Config): int {
    Max(1, c.tCKE) + Max(1, c.tXP)
  }

  // What is kept of the delay from packet p to an activate or refresh of bank (rank, bank).
  function Kept(c: Config, p: BusPacket, rank: nat, bank: nat): int {
    if c.useLowPower then Least(BeforeActivate(c, p, rank, bank), ToIdle(c, p) + Nap(c))
    else BeforeActivate(c, p, rank, bank)
  }

  function DelayAfter(c: Config, full: bool, p: BusPacket, rank: nat, bank: nat): int {
    if full then BeforeActivate(c, p, rank, bank) else Kept(c, p, rank, bank)
  }

  // Packet q at cycle j is far enough from packet p at cycle i, by the full delay or by
  // what is kept of it.
  ghost predicate KeepsAway(c: Config, full: bool, i: nat, p: BusPacket, j: nat, q: BusPacket) {
    && (q.kind == ACTIVATE ==> j - i >= DelayAfter(c, full, p, q.rank, q.bank))
    && (q.kind == REFRESH ==> forall b: nat :: b < c.NumBanks() ==> j - i >= DelayAfter(c, full, p, q.rank, b))
  }

  ghost predicate DelaysKept(c: Config, full: bool, issued: seq<Option<BusPacket>>) {
    forall i, j :: 0 <= i < j < |issued| && issued[i].Some? && issued[j].Some? ==>
      KeepsAway(c, full, i, issued[i].value, j, issued[j].value)
  }

  // ---- What the table still knows of packet p of cycle i ----

  // By cycle u all delays of p are over.
  ghost predicate Spent(c: Config, u: int, i: int, p: BusPacket) {
    forall b: nat :: b < c.NumBanks() ==> u >= i + Kept(c, p, p.rank, b)
  }

  // The bank of p, as it stands in cycle u, is not idle too early.
  predicate IdleInTime(c: Config, u: int, i: int, p: BusPacket, m: Bank) {
    match m.state
    case Idle => u >= i + ToIdle(c, p)
    case PowerDown => true
    case Precharging | Refreshing => u + m.countdown >= i + ToIdle(c, p)
    case RowActive =>
      if AutoPrecharging(m) then u + m.countdown + c.tRP >= i + ToIdle(c, p)
      else
        || u >= i + ToIdle(c, p)
        || (p.kind == ACTIVATE
            && (c.policy == OpenPage && m.lastCommand != ACTIVATE ==> m.nextPrecharge >= i + ToClose(c)))
  }

  // A bank that has been asleep since cycle w at the latest did not fall asleep too early.
  predicate AsleepInTime(c: Config, w: int, i: int, p: BusPacket, m: Bank) {
    m.state == PowerDown ==> w >= i + ToIdle(c, p) && m.nextPowerUp >= i + ToIdle(c, p) + c.tCKE
  }

  // From cycle n on a bank is not activated too early.
  predicate ActiveInTime(c: Config, n: int, i: int, p: BusPacket, b: nat, m: Bank) {
    n >= i + Kept(c, p, p.rank, b) || m.nextActivate >= i + Kept(c, p, p.rank, b)
  }

  // The row of p's rank: aged up to cycle u, powered up to cycle w, next used in cycle n.
  ghost predicate Rested(c: Config, u: int, w: int, n: int, i: int, p: BusPacket, row: seq<Bank>) {
    && (Spent(c, u, i, p)
        || (p.bank < |row| && IdleInTime(c, u, i, p, row[p.bank])
            && forall b :: 0 <= b < |row| ==> AsleepInTime(c, w, i, p, row[b])))
    && forall b :: 0 <= b < |row| ==> ActiveInTime(c, n, i, p, b, row[b])
  }

  // ---- One cycle ----

  lemma AgedInTime(c: Config, t: int, i: int, p: BusPacket, m: Bank)
    requires c.Valid() && Consistent(t, m) && IdleInTime(c, t - 1, i, p, m)
    ensures IdleInTime(c, t, i, p, Age(c, m))
  {
  }

  lemma AgedOthers(c: Config, t: int, w: int, n: int, i: int, p: BusPacket, b: nat, m: Bank)
    requires Consistent(t, m)
    ensures AsleepInTime(c, w, i, p, m) ==> AsleepInTime(c, w, i, p, Age(c, m))
    ensures ActiveInTime(c, n, i, p, b, m) ==> ActiveInTime(c, n, i, p, b, Age(c, m))
  {
  }

  lemma AgedRested(c: Config, t: int, i: int, p: BusPacket, row: seq<Bank>, aged: seq<Bank>)
    requires c.Valid() && Rested(c, t - 1, t - 1, t, i, p, row) && |aged| == |row|
    requires forall b :: 0 <= b < |row| ==> Consistent(t, row[b]) && aged[b] == Age(c, row[b])
    ensures Rested(c, t, t - 1, t, i, p, aged)
  {
    hide Age, Consistent, IdleInTime, AsleepInTime, ActiveInTime, Kept;
    forall b | 0 <= b < |row|
      ensures AsleepInTime(c, t - 1, i, p, row[b]) ==> AsleepInTime(c, t - 1, i, p, aged[b])
      ensures ActiveInTime(c, t, i, p, b, aged[b])
    {
      AgedOthers(c, t, t - 1, t, i, p, b, row[b]);
    }
    if !Spent(c, t - 1, i, p) {
      AgedInTime(c, t, i, p, row[p.bank]);
    }
  }

  // What else is known when q is issued to the rank of p.
  ghost predicate Follows(c: Config, t: nat, i: nat, p: BusPacket, q: BusPacket, row: seq<Bank>) {
    && i < t && q.rank == p.rank && p.bank < |row| == c.NumBanks()
    && MayIssue(t, row, q) && Awake(row) && PolicyCommand(c, q)
    && Remembers(c, t, i, p, p.rank, p.bank, row[p.bank])
    && (q.kind == PRECHARGE ==> c.policy == OpenPage && row[q.bank].lastCommand != ACTIVATE)
  }

  lemma IssuedInTime(c: Config, t: nat, i: nat, p: BusPacket, q: BusPacket, row: seq<Bank>)
    requires c.Valid() && Follows(c, t, i, p, q, row) && q.kind != REFRESH && IdleInTime(c, t, i, p, row[p.bank])
    ensures IdleInTime(c, t, i, p, Issue(c, t, q, p.rank, p.bank, row[p.bank]))
  {
    hide KeptBeforeActivate, BeforeActivate;
  }

  lemma IssuedOthers(c: Config, t: nat, i: nat, p: BusPacket, q: BusPacket, b: nat, row: seq<Bank>)
    requires b < |row| && MayIssue(t, row, q) && Awake(row) && q.rank == p.rank
    requires ActiveInTime(c, t, i, p, b, row[b])
    ensures ActiveInTime(c, t, i, p, b, Issue(c, t, q, p.rank, b, row[b]))
    ensures Issue(c, t, q, p.rank, b, row[b]).state != PowerDown
  {
  }

  // A refresh waits for every delay of the rank.
  lemma RefreshSpends(c: Config, t: nat, i: nat, p: BusPacket, q: BusPacket, row: seq<Bank>)
    requires q.kind == REFRESH && MayIssue(t, row, q) && |row| == c.NumBanks()
    requires forall b :: 0 <= b < |row| ==> ActiveInTime(c, t, i, p, b, row[b])
    ensures Spent(c, t, i, p)
  {
    forall b: nat | b < c.NumBanks() ensures t >= i + Kept(c, p, p.rank, b) {
      assert ActiveInTime(c, t, i, p, b, row[b]);
    }
  }

  lemma IssuedRested(c: Config, t: nat, i: nat, p: BusPacket, q: BusPacket, row: seq<Bank>, row': seq<Bank>)
    requires c.Valid() && Follows(c, t, i, p, q, row) && Rested(c, t, t - 1, t, i, p, row) && |row'| == |row|
    requires forall b :: 0 <= b < |row| ==> row'[b] == Issue(c, t, q, p.rank, b, row[b])
    ensures Rested(c, t, t - 1, t, i, p, row')
  {
    hide Issue, MayIssue, IdleInTime, ActiveInTime, Kept, ToIdle, Remembers, PolicyCommand, Awake;
    forall b | 0 <= b < |row|
      ensures ActiveInTime(c, t, i, p, b, row'[b]) && row'[b].state != PowerDown
    {
      IssuedOthers(c, t, i, p, q, b, row);
    }
    if q.kind == REFRESH {
      RefreshSpends(c, t, i, p, q, row);
    } else if !Spent(c, t, i, p) {
      IssuedInTime(c, t, i, p, q, row);
    }
  }

  // The issued packet itself.
  lemma NewRested(c: Config, t: nat, q: BusPacket, row: seq<Bank>, row': seq<Bank>)
    requires c.Valid() && |row| == |row'| == c.NumBanks() && q.bank < |row| && MayIssue(t, row, q) && Awake(row)
    requires PolicyCommand(c, q) && (q.kind == PRECHARGE ==> c.policy == OpenPage)
    requires forall b :: 0 <= b < |row| ==> row'[b] == Issue(c, t, q, q.rank, b, row[b])
    ensures Rested(c, t, t - 1, t, t, q, row')
  {
    forall b | 0 <= b < |row|
      ensures ActiveInTime(c, t, t, q, b, row'[b]) && row'[b].state != PowerDown
    {
      NewActive(c, t, q, b, row);
    }
    NewInTime(c, t, q, row);
    hide Issue, MayIssue, IdleInTime, ActiveInTime, Kept, ToIdle;
  }

  lemma NewActive(c: Config, t: nat, q: BusPacket, b: nat, row: seq<Bank>)
    requires b < |row| && MayIssue(t, row, q) && Awake(row)
    ensures ActiveInTime(c, t, t, q, b, Issue(c, t, q, q.rank, b, row[b]))
    ensures Issue(c, t, q, q.rank, b, row[b]).state != PowerDown
  {
  }

  lemma NewInTime(c: Config, t: nat, q: BusPacket, row: seq<Bank>)
    requires c.Valid() && q.bank < |row| && MayIssue(t, row, q)
    ensures IdleInTime(c, t, t, q, Issue(c, t, q, q.rank, q.bank, row[q.bank]))
  {
  }

  // A rank sleeps as a whole.
  ghost predicate Uniform(row: seq<Bank>) {
    forall a, b :: 0 <= a < |row| && 0 <= b < |row| && row[a].state == PowerDown ==> row[b].state == PowerDown
  }

  lemma PoweredRested(c: Config, t: nat, i: nat, p: BusPacket, row: seq<Bank>, row': seq<Bank>)
    requires c.Valid() && Rested(c, t, t - 1, t, i, p, row) && |row'| == |row| == c.NumBanks() && p.bank < |row|
    requires forall b :: 0 <= b < |row| ==> PoweredFrom(c, t, row[b], row'[b])
    requires Uniform(row) && Uniform(row')
    ensures Rested(c, t, t, t + 1, i, p, row')
  {
    hide Kept;
    if !Spent(c, t, i, p) {
      assert PoweredFrom(c, t, row[p.bank], row'[p.bank]);
      forall b | 0 <= b < |row| ensures AsleepInTime(c, t, i, p, row'[b]) {
        assert PoweredFrom(c, t, row[b], row'[b]) && AsleepInTime(c, t - 1, i, p, row[b]);
      }
    }
    forall b | 0 <= b < |row| ensures ActiveInTime(c, t + 1, i, p, b, row'[b]) {
      PoweredActive(c, t, i, p, b, row, row');
    }
  }

  lemma PoweredActive(c: Config, t: nat, i: nat, p: BusPacket, b: nat, row: seq<Bank>, row': seq<Bank>)
    requires c.Valid() && Rested(c, t, t - 1, t, i, p, row) && |row'| == |row| == c.NumBanks() && b < |row|
    requires PoweredFrom(c, t, row[b], row'[b])
    ensures ActiveInTime(c, t + 1, i, p, b, row'[b])
  {
    hide BeforeActivate, ToIdle;
    assert ActiveInTime(c, t, i, p, b, row[b]);
    if Spent(c, t, i, p) {
      assert t >= i + Kept(c, p, p.rank, b);
    } else {
      assert AsleepInTime(c, t - 1, i, p, row[b]);
    }
  }

  // ---- The whole table ----

  ghost predicate TableRests(c: Config, u: int, w: int, n: int, banks: BankTable, issued: seq<Option<BusPacket>>) {
    forall i :: 0 <= i < |issued| && issued[i].Some? ==>
      && issued[i].value.rank < |banks| && issued[i].value.bank < |banks[issued[i].value.rank]|
      && Rested(c, u, w, n, i, issued[i].value, banks[issued[i].value.rank])
  }

  lemma AgedTable(c: Config, s: ChannelState)
    requires c.Valid() && WellFormed(c, s) && Safe(c, s)
    requires TableRests(c, s.clock - 1, s.clock - 1, s.clock, s.mc.banks, s.mc.issued)
    ensures TableRests(c, s.clock, s.clock - 1, s.clock, AgeAll(c, s.mc.banks), s.mc.issued)
  {
    hide Consistent, Reads, Matched, QueuesOK, Tracking, Rested, Age, RankOK, PowerFlags, Spent, BanksOK, Static,
         ActiveInTime, Kept, BareReady, Shape;
    var aged := AgeAll(c, s.mc.banks);
    forall i | 0 <= i < |s.mc.issued| && s.mc.issued[i].Some?
      ensures Rested(c, s.clock, s.clock - 1, s.clock, i, s.mc.issued[i].value, aged[s.mc.issued[i].value.rank])
    {
      var r := s.mc.issued[i].value.rank;
      RowConsistent(c, s.clock, s.mc.banks, s.mc.queue, r);
      AgedRested(c, s.clock, i, s.mc.issued[i].value, s.mc.banks[r], aged[r]);
    }
  }

  // The scheduler only sends a command of its policy, and a precharge only where it may.
  ghost predicate Allowed(c: Config, t: nat, banks: BankTable, q: BusPacket) {
    && q.rank < |banks| && q.bank < |banks[q.rank]| && MayIssue(t, banks[q.rank], q) && Awake(banks[q.rank])
    && PolicyCommand(c, q)
    && (q.kind == PRECHARGE ==> c.policy == OpenPage && banks[q.rank][q.bank].lastCommand != ACTIVATE)
  }

  lemma IssuedTable(c: Config, t: nat, banks: BankTable, issued: seq<Option<BusPacket>>, q: BusPacket)
    requires c.Valid() && TableShape(c, banks) && |issued| == t && Allowed(c, t, banks, q)
    requires TableRests(c, t, t - 1, t, banks, issued) && TableRemembers(c, t, banks, issued)
    ensures TableRests(c, t, t - 1, t, IssueAll(c, t, q, banks), issued + [Some(q)])
  {
    hide Rested, MayIssue, Awake, PolicyCommand, Remembers, Issue;
    var more, banks' := issued + [Some(q)], IssueAll(c, t, q, banks);
    forall i | 0 <= i < |more| && more[i].Some?
      ensures more[i].value.rank < |banks'| && more[i].value.bank < |banks'[more[i].value.rank]|
      ensures Rested(c, t, t - 1, t, i, more[i].value, banks'[more[i].value.rank])
    {
      var p := more[i].value;
      if i == t {
        NewRested(c, t, q, banks[q.rank], banks'[q.rank]);
      } else {
        assert more[i] == issued[i];
        if p.rank == q.rank {
          assert Remembers(c, t, i, p, p.rank, p.bank, banks[p.rank][p.bank]);
          IssuedRested(c, t, i, p, q, banks[p.rank], banks'[p.rank]);
        } else {
          ElsewhereRested(c, t, i, p, q, banks[p.rank], banks'[p.rank]);
        }
      }
    }
  }

  // A command to another rank changes nothing about idleness.
  lemma ElsewhereRested(c: Config, t: nat, i: nat, p: BusPacket, q: BusPacket, row: seq<Bank>, row': seq<Bank>)
    requires q.rank != p.rank && Rested(c, t, t - 1, t, i, p, row) && |row'| == |row|
    requires forall b :: 0 <= b < |row| ==> row'[b] == Issue(c, t, q, p.rank, b, row[b])
    ensures Rested(c, t, t - 1, t, i, p, row')
  {
    hide Kept, ToIdle;
    forall b | 0 <= b < |row|
      ensures row'[b] == row[b].(nextRead := row'[b].nextRead, nextWrite := row'[b].nextWrite)
    {
    }
  }

  lemma QuietTable(c: Config, u: int, w: int, n: int, banks: BankTable, issued: seq<Option<BusPacket>>)
    requires TableRests(c, u, w, n, banks, issued)
    ensures TableRests(c, u, w, n, banks, issued + [None])
  {
    hide Rested;
  }

  ghost predicate AllUniform(banks: BankTable) {
    forall r :: 0 <= r < |banks| ==> Uniform(banks[r])
  }

  lemma PoweredAllRested(c: Config, t: nat, banks: BankTable, banks': BankTable, issued: seq<Option<BusPacket>>)
    requires c.Valid() && TableShape(c, banks) && |issued| == t + 1 && PoweredTable(c, t, banks, banks')
    requires AllUniform(banks) && AllUniform(banks') && TableRests(c, t, t - 1, t, banks, issued)
    ensures TableRests(c, t, t, t + 1, banks', issued)
  {
    hide Rested, Uniform, PoweredFrom;
    forall i | 0 <= i < |issued| && issued[i].Some?
      ensures Rested(c, t, t, t + 1, i, issued[i].value, banks'[issued[i].value.rank])
    {
      var r := issued[i].value.rank;
      PoweredRested(c, t, i, issued[i].value, banks[r], banks'[r]);
    }
  }

  lemma SleepsAsOne(c: Config, row: seq<Bank>, flag: bool, k: RankState)
    requires PowerFlag(row, flag, k)
    ensures Uniform(row)
  {
  }

  lemma FlagsAreUniform(c: Config, s: ChannelState)
    requires WellFormed(c, s) && PowerFlags(c, s)
    ensures AllUniform(s.mc.banks)
  {
    hide Uniform, PowerFlag;
    forall r | 0 <= r < |s.mc.banks| ensures Uniform(s.mc.banks[r]) {
      assert PowerFlag(s.mc.banks[r], s.mc.powerDown[r], s.ranks[r]);
      SleepsAsOne(c, s.mc.banks[r], s.mc.powerDown[r], s.ranks[r]);
    }
  }

  lemma IssueStaysUniform(c: Config, t: nat, banks: BankTable, q: BusPacket)
    requires AllUniform(banks) && q.rank < |banks| && MayIssue(t, banks[q.rank], q) && Awake(banks[q.rank])
    ensures AllUniform(IssueAll(c, t, q, banks))
  {
    hide Uniform;
    forall r | 0 <= r < |banks| ensures Uniform(IssueAll(c, t, q, banks)[r]) {
      IssuedUniform(c, t, q, r, banks[r], IssueAll(c, t, q, banks)[r]);
    }
  }

  lemma IssuedUniform(c: Config, t: nat, q: BusPacket, r: nat, row: seq<Bank>, row': seq<Bank>)
    requires Uniform(row) && |row'| == |row| && (q.rank == r ==> MayIssue(t, row, q) && Awake(row))
    requires forall b :: 0 <= b < |row| ==> row'[b] == Issue(c, t, q, r, b, row[b])
    ensures Uniform(row')
  {
    forall b | 0 <= b < |row| ensures row'[b].state == PowerDown <==> row[b].state == PowerDown {
    }
  }

  // ---- What is sent ----

  lemma NewKeepsAway(c: Config, t: nat, i: nat, p: BusPacket, q: BusPacket, row: seq<Bank>)
    requires i < t && |row| == c.NumBanks() && MayIssue(t, row, q)
    requires p.rank == q.rank ==> Rested(c, t, t - 1, t, i, p, row)
    ensures KeepsAway(c, false, i, p, t, q)
  {
    if p.rank == q.rank {
      if q.kind == ACTIVATE {
        assert ActiveInTime(c, t, i, p, q.bank, row[q.bank]);
      } else if q.kind == REFRESH {
        forall b: nat | b < c.NumBanks() ensures t - i >= Kept(c, p, q.rank, b) {
          assert ActiveInTime(c, t, i, p, b, row[b]);
        }
      }
    }
  }

  lemma GrownDelays(c: Config, t: nat, banks: BankTable, issued: seq<Option<BusPacket>>, x: Option<BusPacket>)
    requires c.Valid() && TableShape(c, banks) && |issued| == t && DelaysKept(c, false, issued)
    requires TableRests(c, t, t - 1, t, banks, issued)
    requires x.Some? ==> x.value.rank < |banks| && MayIssue(t, banks[x.value.rank], x.value)
    ensures DelaysKept(c, false, issued + [x])
  {
    hide KeepsAway, Rested, MayIssue;
    var more := issued + [x];
    forall i, j | 0 <= i < j < |more| && more[i].Some? && more[j].Some?
      ensures KeepsAway(c, false, i, more[i].value, j, more[j].value)
    {
      assert more[i] == issued[i];
      if j == t {
        NewKeepsAway(c, t, i, more[i].value, x.value, banks[x.value.rank]);
      } else {
        assert more[j] == issued[j];
      }
    }
  }

  lemma QueuedNoPrecharge(c: Config, t: int, banks: BankTable, q: QueueState, r: nat, i: nat)
    requires QueuesOK(c, t, banks, q) && r < c.NumRanks() && i < |q.queues[r]|
    ensures forall j :: 0 <= j < |q.queues[r][i]| ==> q.queues[r][i][j].kind != PRECHARGE
  {
    assert RankOK(c, t, r, banks[r], q.rowAccessCounters[r], q.queues[r]);
    assert Static(c, r, i, q.queues[r][i]);
    forall j | 0 <= j < |q.queues[r][i]| ensures q.queues[r][i][j].kind != PRECHARGE {
      assert Entry(c, r, i, q.queues[r][i][j]);
    }
  }

  lemma RefreshClosesNothing(c: Config, t: int, banks: BankTable, q: QueueState)
    requires QueuesOK(c, t + 1, banks, q) && c.policy == ClosePage
    ensures var p := RefreshWork(c, t, banks, q).1; p.Some? ==> p.value.kind != PRECHARGE
  {
    hide FirstTo, Static, BareReady, Paired, CountersOK, TableOf, Entry;
    if q.refreshWaiting {
      var r := q.refreshRank;
      var b := FirstBusy(t, banks[r]);
      if b < c.NumBanks() {
        QueuedNoPrecharge(c, t + 1, banks, q, r, Slot(c, b));
      }
    }
    hide RankOK, Put, Issuable;
  }

  lemma ScanClosesNothing(c: Config, t: int, banks: BankTable, q: QueueState)
    requires QueuesOK(c, t + 1, banks, q)
    ensures var p := ScanQueues(c, t, banks, q).1; p.Some? ==> p.value.kind != PRECHARGE
  {
    hide RankOK, TakeFrom, Eligible;
    var k := FirstReady(c, t, banks, q);
    if k < Lap(c) {
      var cur := AdvanceQueue(c, q.next, k);
      QueuedNoPrecharge(c, t + 1, banks, q, cur.rank, Slot(c, cur.bank));
    }
  }

  // Only open page ever precharges.
  lemma PrechargeIsOpenPage(c: Config, t: int, banks: BankTable, q: QueueState)
    requires QueuesOK(c, t + 1, banks, q) && c.policy == ClosePage
    ensures var p := PopSpec(c, t, banks, q).1; p.Some? ==> p.value.kind != PRECHARGE
  {
    hide QueuesOK, AgeWindow, RefreshWork, ScanQueues;
    var q0 := AgeWindows(q);
    AgedWindowsAreSafe(c, t + 1, banks, q);
    RefreshClosesNothing(c, t, banks, q0);
    ScanClosesNothing(c, t, banks, q0);
    if RefreshWork(c, t, banks, q0).1.None? {
      RoundRobin.QuietRefreshWork(c, t, banks, q0);
    }
  }

  // ---- Runs ----

  ghost predicate SleepsInTime(c: Config, s: ChannelState)
    requires WellFormed(c, s)
  {
    && UseHistory(c, s) && History(c, s.clock, s.mc.banks, s.mc.issued)
    && TableRests(c, s.clock - 1, s.clock - 1, s.clock, s.mc.banks, s.mc.issued)
    && DelaysKept(c, false, s.mc.issued)
  }

  // What is popped is allowed.
  lemma PopAllowed(c: Config, s: ChannelState)
    requires c.Valid() && WellFormed(c, s) && AtDataBus(c, s)
    requires var p := PopSpec(c, s.clock, s.mc.banks, s.mc.queue).1;
      p.Some? && p.value.kind == PRECHARGE ==> s.mc.banks[p.value.rank][p.value.bank].lastCommand != ACTIVATE
    ensures var p := PopSpec(c, s.clock, s.mc.banks, s.mc.queue).1;
      p.Some? ==> Allowed(c, s.clock, s.mc.banks, p.value)
  {
    hide PopSpec, MayIssue, QueuesOK, Reads, Matched, Tracking, PowerFlags, Awake, PolicyCommand;
    PopIsAllowed(c, s);
    if c.policy == ClosePage {
      PrechargeIsOpenPage(c, s.clock, s.mc.banks, s.mc.queue);
    }
  }

  lemma AtBusIsUniform(c: Config, s: ChannelState)
    requires WellFormed(c, s) && AtDataBus(c, s)
    ensures AllUniform(s.mc.banks)
  {
    hide QueuesOK, Reads, Matched, Tracking, PowerFlags;
    FlagsAreUniform(c, s);
  }

  lemma SafeIsUniform(c: Config, s: ChannelState)
    requires WellFormed(c, s) && Safe(c, s)
    ensures AllUniform(s.mc.banks)
  {
    hide QueuesOK, Reads, Matched, Tracking, PowerFlags;
    FlagsAreUniform(c, s);
  }

  lemma UpdateKeepsSleep(c: Config, s: ChannelState)
    requires c.Valid() && WellFormed(c, s) && Safe(c, s) && Update(c, s).Ok? && SleepsInTime(c, s)
    ensures SleepsInTime(c, Update(c, s).value)
  {
    hide Safe, Update, PopState, PopSpec, UseHistory, TableRemembers, LegalHistory, PoweredTable, Expanded,
         TableRests, DelaysKept, AllUniform, MayIssue, Awake, PolicyCommand, AgeAll, AtDataBus, TimingFree, Timing,
         TimingAged, QueuesOK, Tracking, RankOK, Reads, WriteSafe;
    UpdateKeepsUse(c, s);
    UpdateKeepsHistory(c, s);
    CycleShape(c, s);
    PopStateIs(c, s);
    UpdateIsSafe(c, s);
    var s1, s' := PopState(c, s).value, Update(c, s).value;
    AgedTable(c, s);
    AgedHistory(c, s.clock, s.mc.banks, s.mc.issued);
    AtBusIsUniform(c, s1);
    SafeIsUniform(c, s');
    PopAllowed(c, s1);
    var x := PopSpec(c, s1.clock, s1.mc.banks, s1.mc.queue).1;
    GrownDelays(c, s.clock, s1.mc.banks, s.mc.issued, x);
    if x.Some? {
      IssuedTable(c, s.clock, s1.mc.banks, s.mc.issued, x.value);
      IssueStaysUniform(c, s.clock, s1.mc.banks, x.value);
      PoweredAllRested(c, s.clock, IssueAll(c, s.clock, x.value, s1.mc.banks), s'.mc.banks, s'.mc.issued);
    } else {
      QuietTable(c, s.clock, s.clock - 1, s.clock, s1.mc.banks, s.mc.issued);
      PoweredAllRested(c, s.clock, s1.mc.banks, s'.mc.banks, s'.mc.issued);
    }
  }

  lemma InitialSleeps(c: Config)
    ensures SleepsInTime(c, Initial(c))
  {
    hide BareIn, Rested, InitialQueue, FarEnough, WellFormed, Remembers, KeepsAway, BareFor, Spent, DelayAfter;
  }

  lemma EveryRunSleeps(c: Config, requests: seq<seq<Transaction>>)
    requires c.Valid() && Run(c, Initial(c), requests).Ok?
    ensures SleepsInTime(c, Run(c, Initial(c), requests).value)
  {
    hide Safe, Run, Initial, Update, RowsAwaited, RowsUsed, TableRemembers, LegalHistory, TableRests, DelaysKept, WellFormed;
    InitialSleeps(c);
    var inv := (s: ChannelState) => WellFormed(c, s) && SleepsInTime(c, s);
    forall s, s' | Cycle(c, s, s') && inv(s) ensures inv(s') {
      UpdateKeepsSleep(c, s);
    }
    RunKeeps(c, inv, requests);
  }

  // In every run, low-power mode or not, every activate and refresh keeps what is kept of
  // the delays.
  lemma EveryRunKeepsDelays(c: Config, requests: seq<seq<Transaction>>)
    requires c.Valid()
    ensures Run(c, Initial(c), requests).Ok? ==> DelaysKept(c, false, Run(c, Initial(c), requests).value.mc.issued)
  {
    if Run(c, Initial(c), requests).Ok? {
      hide Run, Initial, UseHistory, History, TableRests, DelaysKept;
      EveryRunSleeps(c, requests);
    }
  }

  // ---- When nothing is lost ----

  // A nap is long enough for every delay that may be running when a rank falls asleep.
  predicate NapsAreLong(c: Config) {
    c.useLowPower ==>
      && c.tRC <= ToClose(c) + c.tRP + Nap(c)
      && (c.NumBanks() >= 2 ==> c.tRRD <= ToClose(c) + c.tRP + Nap(c))
      && (c.policy == ClosePage ==> c.ReadAutoPre() <= c.ReadToPre() + c.tRP + Nap(c))
  }

  lemma LongNapsKeep(c: Config, p: BusPacket, rank: nat, bank: nat)
    requires c.Valid() && NapsAreLong(c) && PolicyCommand(c, p) && p.bank < c.NumBanks() && bank < c.NumBanks()
    ensures Kept(c, p, rank, bank) == BeforeActivate(c, p, rank, bank)
  {
  }

  lemma LongNapsKeepAll(c: Config, banks: BankTable, t: nat, issued: seq<Option<BusPacket>>)
    requires c.Valid() && NapsAreLong(c) && TableShape(c, banks) && TableRests(c, t - 1, t - 1, t, banks, issued)
    requires DelaysKept(c, false, issued)
    requires forall i :: 0 <= i < |issued| && issued[i].Some? ==> PolicyCommand(c, issued[i].value)
    ensures DelaysKept(c, true, issued)
  {
    hide Kept, BeforeActivate, NapsAreLong, Rested, PolicyCommand;
    forall i, j | 0 <= i < j < |issued| && issued[i].Some? && issued[j].Some?
      ensures KeepsAway(c, true, i, issued[i].value, j, issued[j].value)
    {
      var p, q := issued[i].value, issued[j].value;
      assert KeepsAway(c, false, i, p, j, q);
      LongNapsKeep(c, p, q.rank, q.bank);
      if q.kind == REFRESH {
        forall b: nat | b < c.NumBanks() ensures j - i >= DelayAfter(c, true, p, q.rank, b) {
          LongNapsKeep(c, p, q.rank, b);
          assert j - i >= DelayAfter(c, false, p, q.rank, b);
        }
      }
    }
  }

  // With low-power mode off, or naps that are long enough, every run keeps the full delays.
  lemma EveryRunKeepsFullDelays(c: Config, requests: seq<seq<Transaction>>)
    requires c.Valid() && NapsAreLong(c)
    ensures Run(c, Initial(c), requests).Ok? ==> DelaysKept(c, true, Run(c, Initial(c), requests).value.mc.issued)
  {
    if Run(c, Initial(c), requests).Ok? {
      hide Run, Initial, UseHistory, TableRests, DelaysKept, NapsAreLong, LegalHistory, TableRemembers;
      EveryRunSleeps(c, requests);
      var s := Run(c, Initial(c), requests).value;
      LongNapsKeepAll(c, s.mc.banks, s.clock, s.mc.issued);
    }
  }
}
