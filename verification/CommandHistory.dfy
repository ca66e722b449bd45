// The commands of a whole run keep the device's minimum distances.
module CommandHistory {
  import opened Wrappers
  import opened SystemConfiguration
  import opened BankState
  import opened Scheduler
  import opened QueueInvariant
  import opened SchedulerSafety
  import opened Channel
  import opened TimingSafety
  import opened ReadPipeline
  import opened Conservation
  import opened ChannelSafety
  import opened OneCycle
  import opened Runs

  // ---- The rules: cycles that must pass after command p ----

  // ... before bank (rank, bank) may be activated or refreshed.
  function BeforeActivate(c: Config, p: BusPacket, rank: nat, bank: nat): int {
    if p.rank != rank then 0
    else
      match p.kind
      case ACTIVATE => if p.bank == bank then c.tRC else c.tRRD
      case PRECHARGE => if p.bank == bank then c.tRP else 0
      case REFRESH => c.tRFC
      case READ_P => if p.bank == bank then c.ReadAutoPre() else 0
      case WRITE_P => if p.bank == bank then c.WriteAutoPre() else 0
      case _ => 0
  }

  // ... before its row may be closed.
  function BeforePrecharge(c: Config, p: BusPacket, rank: nat, bank: nat): int {
    if p.rank != rank || p.bank != bank then 0
    else
      match p.kind
      case ACTIVATE => c.tRAS
      case READ => c.ReadToPre()
      case WRITE => c.WriteToPre()
      case _ => 0
  }

  // ... before it may be read.
  function BeforeRead(c: Config, p: BusPacket, rank: nat, bank: nat): int {
    if p.rank != rank then 0
    else
      match p.kind
      case ACTIVATE => if p.bank == bank then c.tRCD - c.AL else 0
      case READ => c.ColumnGap()
      case WRITE => c.WriteToReadBank()
      case READ_P => if p.bank == bank then c.ReadAutoPre() else c.BL / 2
      case WRITE_P => if p.bank == bank then c.WriteAutoPre() else c.BL / 2
      case _ => 0
  }

  // ... before it may be written.
  function BeforeWrite(c: Config, p: BusPacket, rank: nat, bank: nat): int {
    if p.rank != rank then 0
    else
      match p.kind
      case ACTIVATE => if p.bank == bank then c.tRCD - c.AL else 0
      case READ => c.ReadToWrite()
      case WRITE => c.ColumnGap()
      case READ_P => if p.bank == bank then c.ReadAutoPre() else c.BL / 2
      case WRITE_P => if p.bank == bank then c.WriteAutoPre() else c.BL / 2
      case _ => 0
  }

  // What of that delay is kept at least: waking a rank up replaces it by the wake-up delay,
  // and a rank sleeps at least tCKE.  SleepHistory has the exact bound.
  function KeptBeforeActivate(c: Config, p: BusPacket, rank: nat, bank: nat): int {
    if c.useLowPower then Least(BeforeActivate(c, p, rank, bank), c.tCKE + c.tXP)
    else BeforeActivate(c, p, rank, bank)
  }

  function Least(a: int, b: int): int {
    if a <= b then a else b
  }

  // Command q at cycle j is far enough from command p at cycle i.
  predicate FarEnough(c: Config, i: nat, p: BusPacket, j: nat, q: BusPacket) {
    match q.kind
    case ACTIVATE => j - i >= KeptBeforeActivate(c, p, q.rank, q.bank)
    case REFRESH => forall b :: 0 <= b < c.NumBanks() ==> j - i >= KeptBeforeActivate(c, p, q.rank, b)
    case PRECHARGE => j - i >= BeforePrecharge(c, p, q.rank, q.bank)
    case READ | READ_P => j - i >= BeforeRead(c, p, q.rank, q.bank)
    case WRITE | WRITE_P => j - i >= BeforeWrite(c, p, q.rank, q.bank)
    case DATA => true
  }

  ghost predicate LegalHistory(c: Config, issued: seq<Option<BusPacket>>) {
    forall i, j :: 0 <= i < j < |issued| && issued[i].Some? && issued[j].Some? ==>
      FarEnough(c, i, issued[i].value, j, issued[j].value)
  }

  // ---- What the table remembers of one past command ----

  // Bank entry m, at cycle t, still enforces what command p of cycle i demands.
  predicate Remembers(c: Config, t: int, i: int, p: BusPacket, rank: nat, bank: nat, m: Bank) {
    && (KeptBeforeActivate(c, p, rank, bank) <= 0 || m.nextActivate >= i + KeptBeforeActivate(c, p, rank, bank))
    && (m.state == PowerDown && p.rank == rank ==> m.nextPowerUp >= i + c.tCKE)
    && (BeforePrecharge(c, p, rank, bank) <= 0 || m.nextPrecharge >= i + BeforePrecharge(c, p, rank, bank))
    && (t >= i + BeforeRead(c, p, rank, bank) || m.nextRead >= i + BeforeRead(c, p, rank, bank))
    && (t >= i + BeforeWrite(c, p, rank, bank) || m.nextWrite >= i + BeforeWrite(c, p, rank, bank))
  }

  ghost predicate TableRemembers(c: Config, t: int, banks: BankTable, issued: seq<Option<BusPacket>>) {
    forall i, r, b ::
      0 <= i < |issued| && issued[i].Some? && 0 <= r < |banks| && 0 <= b < |banks[r]| ==>
        Remembers(c, t, i, issued[i].value, r, b, banks[r][b])
  }

  // Only the commands of the configured policy are ever issued.
  predicate PolicyCommand(c: Config, p: BusPacket) {
    p.IsColumn() ==> ColumnFor(c.policy, p.kind)
  }

  // A command that may issue respects every command the table remembers.
  lemma IssuedFarEnough(c: Config, t: nat, i: nat, p: BusPacket, q: BusPacket, row: seq<Bank>)
    requires i < t && |row| == c.NumBanks() && MayIssue(t, row, q)
    requires forall b :: 0 <= b < |row| ==> Remembers(c, t, i, p, q.rank, b, row[b])
    ensures FarEnough(c, i, p, t, q)
  {
    assert Remembers(c, t, i, p, q.rank, q.bank, row[q.bank]);
    if q.kind == REFRESH {
      forall b | 0 <= b < c.NumBanks() ensures t - i >= KeptBeforeActivate(c, p, q.rank, b) {
        assert Remembers(c, t, i, p, q.rank, b, row[b]);
      }
    }
  }

  // Issuing q forgets nothing of an earlier command p.
  lemma IssueRemembers(c: Config, t: nat, i: nat, p: BusPacket, q: BusPacket, r: nat, b: nat, row: seq<Bank>)
    requires c.Valid() && i < t && b < |row| && PolicyCommand(c, p) && PolicyCommand(c, q)
    requires q.rank == r ==> MayIssue(t, row, q)
    requires Remembers(c, t, i, p, r, b, row[b])
    ensures Remembers(c, t, i, p, r, b, Issue(c, t, q, r, b, row[b]))
  {
  }

  ghost predicate Awake(row: seq<Bank>) {
    forall b :: 0 <= b < |row| ==> row[b].state != PowerDown
  }

  // Issuing q is itself remembered by every bank.
  lemma IssueIsRemembered(c: Config, t: nat, q: BusPacket, r: nat, b: nat, row: seq<Bank>)
    requires c.Valid() && b < |row|
    requires q.rank == r ==> MayIssue(t, row, q) && Awake(row)
    ensures Remembers(c, t, t, q, r, b, Issue(c, t, q, r, b, row[b]))
  {
  }

  // ---- The history invariant ----

  ghost predicate History(c: Config, t: nat, banks: BankTable, issued: seq<Option<BusPacket>>) {
    && |issued| == t
    && (forall i :: 0 <= i < |issued| && issued[i].Some? ==> PolicyCommand(c, issued[i].value))
    && LegalHistory(c, issued)
    && TableRemembers(c, t, banks, issued)
  }

  lemma AgedHistory(c: Config, t: nat, banks: BankTable, issued: seq<Option<BusPacket>>)
    requires History(c, t, banks, issued)
    ensures History(c, t, AgeAll(c, banks), issued)
  {
    forall i, r, b | 0 <= i < |issued| && issued[i].Some? && 0 <= r < |banks| && 0 <= b < |banks[r]|
      ensures Remembers(c, t, i, issued[i].value, r, b, AgeAll(c, banks)[r][b])
    {
      assert Remembers(c, t, i, issued[i].value, r, b, banks[r][b]);
    }
  }

  lemma PoweredHistory(c: Config, t: nat, banks: BankTable, banks': BankTable, issued: seq<Option<BusPacket>>)
    requires TableRemembers(c, t, banks, issued) && PoweredTable(c, t, banks, banks') && |issued| == t + 1
    ensures TableRemembers(c, t + 1, banks', issued)
  {
    forall i, r, b | 0 <= i < |issued| && issued[i].Some? && 0 <= r < |banks'| && 0 <= b < |banks'[r]|
      ensures Remembers(c, t + 1, i, issued[i].value, r, b, banks'[r][b])
    {
      assert Remembers(c, t, i, issued[i].value, r, b, banks[r][b]);
      assert PoweredFrom(c, t, banks[r][b], banks'[r][b]);
    }
  }

  lemma IssuedHistory(c: Config, t: nat, banks: BankTable, issued: seq<Option<BusPacket>>, q: BusPacket)
    requires c.Valid() && TableShape(c, banks) && History(c, t, banks, issued)
    requires q.rank < |banks| && MayIssue(t, banks[q.rank], q) && Awake(banks[q.rank]) && PolicyCommand(c, q)
    ensures TableRemembers(c, t, IssueAll(c, t, q, banks), issued + [Some(q)])
    ensures LegalHistory(c, issued + [Some(q)])
  {
    hide Remembers, MayIssue, FarEnough, Awake, Issue, IssueWrite, IssueRead, KeptBeforeActivate, BeforeRead,
         BeforeWrite, BeforeActivate, BeforePrecharge;
    var more, banks' := issued + [Some(q)], IssueAll(c, t, q, banks);
    forall i, r, b | 0 <= i < |more| && more[i].Some? && 0 <= r < |banks'| && 0 <= b < |banks'[r]|
      ensures Remembers(c, t, i, more[i].value, r, b, banks'[r][b])
    {
      if i < t {
        assert more[i] == issued[i];
        IssueRemembers(c, t, i, issued[i].value, q, r, b, banks[r]);
      } else {
        IssueIsRemembered(c, t, q, r, b, banks[r]);
      }
    }
    forall i | 0 <= i < t && issued[i].Some? ensures FarEnough(c, i, issued[i].value, t, q) {
      IssuedFarEnough(c, t, i, issued[i].value, q, banks[q.rank]);
    }
  }

  lemma QuietHistory(c: Config, t: nat, banks: BankTable, issued: seq<Option<BusPacket>>)
    requires History(c, t, banks, issued)
    ensures TableRemembers(c, t, banks, issued + [None]) && LegalHistory(c, issued + [None])
  {
    var more := issued + [None];
    assert forall i :: 0 <= i < |more| && more[i].Some? ==> i < t && more[i] == issued[i];
  }

  lemma UpdateKeepsHistory(c: Config, s: ChannelState)
    requires c.Valid() && WellFormed(c, s) && Safe(c, s) && Update(c, s).Ok?
    requires History(c, s.clock, s.mc.banks, s.mc.issued)
    ensures var s' := Update(c, s).value; History(c, s'.clock, s'.mc.banks, s'.mc.issued)
  {
    hide Safe, Update, PopState, PopSpec, TableRemembers, LegalHistory, PoweredTable, MayIssue, Expanded, Timing,
         TimingAged, QueuesOK, Tracking, RankOK, Reads, IssueAll, PowerFlags, Issue;
    CycleShape(c, s);
    PopStateIs(c, s);
    var s1, s' := PopState(c, s).value, Update(c, s).value;
    AgedHistory(c, s.clock, s.mc.banks, s.mc.issued);
    PopIsAllowed(c, s1);
    var popped := PopSpec(c, s1.clock, s1.mc.banks, s1.mc.queue).1;
    if popped.Some? {
      IssuedHistory(c, s1.clock, s1.mc.banks, s1.mc.issued, popped.value);
      PoweredHistory(c, s1.clock, IssueAll(c, s1.clock, popped.value, s1.mc.banks), s'.mc.banks, s'.mc.issued);
    } else {
      QuietHistory(c, s1.clock, s1.mc.banks, s1.mc.issued);
      PoweredHistory(c, s1.clock, s1.mc.banks, s'.mc.banks, s'.mc.issued);
    }
  }

  lemma PopIsAllowed(c: Config, s: ChannelState)
    requires c.Valid() && WellFormed(c, s) && AtDataBus(c, s)
    ensures var (q, popped) := PopSpec(c, s.clock, s.mc.banks, s.mc.queue);
      popped.Some? ==>
        && popped.value.rank < c.NumRanks() && MayIssue(s.clock, s.mc.banks[popped.value.rank], popped.value)
        && Awake(s.mc.banks[popped.value.rank]) && PolicyCommand(c, popped.value)
  {
    hide PopSpec, MayIssue, QueuesOK, Reads, Matched, Tracking, PowerFlag;
    PopIsSafe(c, s.clock, s.mc.banks, s.mc.queue);
    var popped := PopSpec(c, s.clock, s.mc.banks, s.mc.queue).1;
    if popped.Some? {
      var r := popped.value.rank;
      IssuesAwake(s.clock, s.mc.banks[r], s.mc.powerDown[r], s.ranks[r], popped.value);
    }
  }

  // A rank sleeps as a whole, and nothing is issued to it.
  lemma IssuesAwake(t: nat, row: seq<Bank>, flag: bool, k: RankState, p: BusPacket)
    requires PowerFlag(row, flag, k) && MayIssue(t, row, p)
    ensures Awake(row)
  {
  }

  lemma InitialHistory(c: Config)
    ensures var s := Initial(c); History(c, s.clock, s.mc.banks, s.mc.issued)
  {
  }

  lemma HistoryIsLegal(c: Config, t: nat, banks: BankTable, issued: seq<Option<BusPacket>>)
    requires History(c, t, banks, issued)
    ensures LegalHistory(c, issued)
  {
  }

  // Every run issues a legal command history.
  lemma EveryRunIsLegal(c: Config, requests: seq<seq<Transaction>>)
    requires c.Valid()
    ensures Run(c, Initial(c), requests).Ok? ==>
      LegalHistory(c, Run(c, Initial(c), requests).value.mc.issued)
  {
    hide Safe, Run, Initial, Update, History, WellFormed;
    if Run(c, Initial(c), requests).Ok? {
      InitialHistory(c);
      var inv := (s: ChannelState) => History(c, s.clock, s.mc.banks, s.mc.issued);
      forall s, s' | Cycle(c, s, s') && inv(s) ensures inv(s') {
        UpdateKeepsHistory(c, s);
      }
      RunKeeps(c, inv, requests);
      var s := Run(c, Initial(c), requests).value;
      HistoryIsLegal(c, s.clock, s.mc.banks, s.mc.issued);
    }
  }
}
