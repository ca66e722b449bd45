// Which row of a bank is open, read off the commands alone: in every run commands find
// their bank as they need it.
module RowHistory {
  import opened Wrappers
  import opened SystemConfiguration
  import opened BankState
  import opened Scheduler
  import opened QueueInvariant
  import opened Channel
  import opened TimingSafety
  import opened ReadPipeline
  import opened Conservation
  import opened ChannelSafety
  import opened OneCycle
  import opened CommandHistory
  import opened Runs

  // The row that the commands so far have left open in bank (r, b).
  function OpenRow(issued: seq<Option<BusPacket>>, r: nat, b: nat): Option<nat>
    decreases |issued|
  {
    if issued == [] then None
    else After(OpenRow(issued[..|issued| - 1], r, b), issued[|issued| - 1], r, b)
  }

  function After(row: Option<nat>, x: Option<BusPacket>, r: nat, b: nat): Option<nat> {
    if x.None? || x.value.rank != r then row
    else
      match x.value.kind
      case ACTIVATE => if x.value.bank == b then Some(x.value.row) else row
      case PRECHARGE | READ_P | WRITE_P => if x.value.bank == b then None else row
      case REFRESH => None
      case READ | WRITE | DATA => row
  }

  // Packet p finds its bank as it needs it: closed to open a row, open on its own row to
  // read or write, open to close it; and all banks of the rank closed to refresh.
  ghost predicate Finds(c: Config, issued: seq<Option<BusPacket>>, p: BusPacket) {
    match p.kind
    case ACTIVATE => OpenRow(issued, p.rank, p.bank) == None
    case READ | READ_P | WRITE | WRITE_P => OpenRow(issued, p.rank, p.bank) == Some(p.row)
    case PRECHARGE => OpenRow(issued, p.rank, p.bank) != None
    case REFRESH => forall b :: 0 <= b < c.NumBanks() ==> OpenRow(issued, p.rank, b) == None
    case DATA => false
  }

  ghost predicate RowsLegal(c: Config, issued: seq<Option<BusPacket>>) {
    forall i :: 0 <= i < |issued| && issued[i].Some? ==> Finds(c, issued[..i], issued[i].value)
  }

  function RowOf(m: Bank): Option<nat> {
    if Open(m) then Some(m.openRow) else None
  }

  // The table agrees with the commands.
  ghost predicate Agrees(banks: BankTable, issued: seq<Option<BusPacket>>) {
    forall r, b :: 0 <= r < |banks| && 0 <= b < |banks[r]| ==> RowOf(banks[r][b]) == OpenRow(issued, r, b)
  }

  lemma IssuedFinds(c: Config, t: int, banks: BankTable, issued: seq<Option<BusPacket>>, p: BusPacket)
    requires Agrees(banks, issued) && p.rank < |banks| && |banks[p.rank]| == c.NumBanks()
    requires MayIssue(t, banks[p.rank], p)
    ensures Finds(c, issued, p)
  {
    hide OpenRow;
    assert RowOf(banks[p.rank][p.bank]) == OpenRow(issued, p.rank, p.bank);
    if p.kind == REFRESH {
      forall b | 0 <= b < c.NumBanks() ensures OpenRow(issued, p.rank, b) == None {
        assert RowOf(banks[p.rank][b]) == OpenRow(issued, p.rank, b);
      }
    }
  }

  lemma AgedRow(c: Config, t: int, m: Bank)
    requires Consistent(t, m)
    ensures RowOf(Age(c, m)) == RowOf(m)
  {
  }

  lemma IssuedRow(c: Config, t: int, p: BusPacket, r: nat, b: nat, m: Bank)
    requires p.rank == r && p.bank == b && p.kind != REFRESH && p.kind != ACTIVATE && p.kind != PRECHARGE ==> Open(m)
    requires p.rank == r && p.bank == b && p.kind == ACTIVATE ==> !Open(m) && m.state == Idle
    ensures RowOf(Issue(c, t, p, r, b, m)) == After(RowOf(m), Some(p), r, b)
  {
  }

  lemma PoweredRow(c: Config, t: int, m: Bank, m': Bank)
    requires PoweredFrom(c, t, m, m')
    ensures RowOf(m') == RowOf(m)
  {
  }

  lemma AgedRows(c: Config, s: ChannelState)
    requires WellFormed(c, s) && Safe(c, s) && Agrees(s.mc.banks, s.mc.issued)
    ensures Agrees(AgeAll(c, s.mc.banks), s.mc.issued)
  {
    hide Consistent, OpenRow, Reads, Matched, QueuesOK, Tracking, RowOf, RankOK, PowerFlags, BanksOK, Static,
         BareReady, Shape, InFlight, AgeAll, Paired;
    forall r, b | 0 <= r < |s.mc.banks| && 0 <= b < |s.mc.banks[r]|
      ensures RowOf(AgeAll(c, s.mc.banks)[r][b]) == OpenRow(s.mc.issued, r, b)
    {
      RowConsistent(c, s.clock, s.mc.banks, s.mc.queue, r);
      AgedRow(c, s.clock, s.mc.banks[r][b]);
    }
  }

  lemma IssuedRows(c: Config, t: int, banks: BankTable, issued: seq<Option<BusPacket>>, p: BusPacket)
    requires TableShape(c, banks) && Agrees(banks, issued) && RowsLegal(c, issued)
    requires p.rank < |banks| && MayIssue(t, banks[p.rank], p)
    ensures Agrees(IssueAll(c, t, p, banks), issued + [Some(p)]) && RowsLegal(c, issued + [Some(p)])
  {
    var more := issued + [Some(p)];
    assert more[..|issued|] == issued;
    IssuedFinds(c, t, banks, issued, p);
    GrownLegal(c, issued, Some(p));
    forall r, b | 0 <= r < |banks| && 0 <= b < |banks[r]|
      ensures RowOf(IssueAll(c, t, p, banks)[r][b]) == OpenRow(more, r, b)
    {
      assert RowOf(banks[r][b]) == OpenRow(issued, r, b);
      hide RowOf, After;
      IssuedRow(c, t, p, r, b, banks[r][b]);
    }
  }

  lemma GrownLegal(c: Config, issued: seq<Option<BusPacket>>, x: Option<BusPacket>)
    requires RowsLegal(c, issued) && (x.Some? ==> Finds(c, issued, x.value))
    ensures RowsLegal(c, issued + [x])
  {
    hide Finds;
    var more := issued + [x];
    forall i | 0 <= i < |more| && more[i].Some? ensures Finds(c, more[..i], more[i].value) {
      assert more[..i] == issued[..i];
      if i == |issued| {
        assert issued[..i] == issued;
      }
    }
  }

  lemma QuietRows(c: Config, banks: BankTable, issued: seq<Option<BusPacket>>)
    requires Agrees(banks, issued) && RowsLegal(c, issued)
    ensures Agrees(banks, issued + [None]) && RowsLegal(c, issued + [None])
  {
    assert (issued + [None])[..|issued|] == issued;
    GrownLegal(c, issued, None);
    hide RowsLegal, RowOf;
  }

  lemma PoweredRows(c: Config, t: int, banks: BankTable, banks': BankTable, issued: seq<Option<BusPacket>>)
    requires Agrees(banks, issued) && PoweredTable(c, t, banks, banks')
    ensures Agrees(banks', issued)
  {
    hide OpenRow, RowOf, PoweredFrom;
    forall r, b | 0 <= r < |banks'| && 0 <= b < |banks'[r]| ensures RowOf(banks'[r][b]) == OpenRow(issued, r, b) {
      PoweredRow(c, t, banks[r][b], banks'[r][b]);
    }
  }

  lemma UpdateKeepsRows(c: Config, s: ChannelState)
    requires c.Valid() && WellFormed(c, s) && Safe(c, s) && Update(c, s).Ok?
    requires Agrees(s.mc.banks, s.mc.issued) && RowsLegal(c, s.mc.issued)
    ensures var m' := Update(c, s).value.mc; Agrees(m'.banks, m'.issued) && RowsLegal(c, m'.issued)
  {
    hide Safe, Update, PopState, PopSpec, Agrees, RowsLegal, PoweredTable, MayIssue, Expanded, AtDataBus, TimingFree,
         Timing, TimingAged, QueuesOK, Tracking, RankOK, Reads, IssueAll;
    CycleShape(c, s);
    PopStateIs(c, s);
    AgedRows(c, s);
    var s1, s' := PopState(c, s).value, Update(c, s).value;
    PopIsAllowed(c, s1);
    var popped := PopSpec(c, s1.clock, s1.mc.banks, s1.mc.queue).1;
    if popped.Some? {
      IssuedRows(c, s1.clock, s1.mc.banks, s1.mc.issued, popped.value);
      PoweredRows(c, s1.clock, IssueAll(c, s1.clock, popped.value, s1.mc.banks), s'.mc.banks, s'.mc.issued);
    } else {
      QuietRows(c, s1.mc.banks, s1.mc.issued);
      PoweredRows(c, s1.clock, s1.mc.banks, s'.mc.banks, s'.mc.issued);
    }
  }

  lemma InitialRows(c: Config)
    ensures var m := Initial(c).mc; Agrees(m.banks, m.issued) && RowsLegal(c, m.issued)
  {
  }

  // In every run, low-power mode or not: a bank is closed when it is activated, open on
  // the packet's own row when it is read or written, open when it is precharged, and all
  // banks of a rank are closed when it is refreshed.
  lemma EveryCommandFindsItsRow(c: Config, requests: seq<seq<Transaction>>)
    requires c.Valid()
    ensures Run(c, Initial(c), requests).Ok? ==>
      RowsLegal(c, Run(c, Initial(c), requests).value.mc.issued)
  {
    hide Safe, Run, Initial, Update, Agrees, RowsLegal, WellFormed;
    if Run(c, Initial(c), requests).Ok? {
      InitialRows(c);
      var inv := (s: ChannelState) => Agrees(s.mc.banks, s.mc.issued) && RowsLegal(c, s.mc.issued);
      forall s, s' | Cycle(c, s, s') && inv(s) ensures inv(s') {
        UpdateKeepsRows(c, s);
      }
      RunKeeps(c, inv, requests);
    }
  }
}
