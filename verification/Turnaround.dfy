// Columns of different banks: a column keeps its distance from every earlier column of
// another bank that its own bank remembers, whatever rows have closed or opened since.
module Turnaround {
  import opened Wrappers
  import opened SystemConfiguration
  import opened BankState
  import opened Scheduler
  import opened QueueInvariant
  import opened Channel
  import opened ChannelSafety
  import opened OneCycle
  import opened CommandHistory
  import opened RowHistory
  import opened Runs

  // Cycles from column p to a read, or to a write, of another open bank of rank r.
  function ToRead(c: Config, p: BusPacket, r: nat): int {
    if p.rank == r then (if p.IsRead() then c.ColumnGap() else c.WriteToReadBank())
    else if p.IsRead() then c.BL / 2 + c.tRTRS else c.WriteToReadRank()
  }

  function ToWrite(c: Config, p: BusPacket, r: nat): int {
    if p.IsRead() then c.ReadToWrite()
    else if p.rank == r then c.ColumnGap() else c.BL / 2 + c.tRTRS
  }

  predicate SameBank(p: BusPacket, r: nat, b: nat) {
    p.rank == r && p.bank == b
  }

  predicate ClosesBank(x: Option<BusPacket>, r: nat, b: nat) {
    x.Some? && (x.value.kind == READ_P || x.value.kind == WRITE_P) && SameBank(x.value, r, b)
  }

  // A bank remembers the column of cycle i if it was sent to its own rank, or to another
  // one while the bank was open; until a column with auto-precharge overwrites its entry.
  ghost predicate Remembered(issued: seq<Option<BusPacket>>, i: nat, r: nat, b: nat)
    requires i < |issued| && issued[i].Some?
  {
    && (issued[i].value.rank == r || OpenRow(issued[..i], r, b) != None)
    && forall k :: i < k < |issued| ==> !ClosesBank(issued[k], r, b)
  }

  ghost predicate TurnsAround(c: Config, issued: seq<Option<BusPacket>>) {
    forall i, j :: 0 <= i < j < |issued| && issued[i].Some? && issued[j].Some? ==>
      var p, q := issued[i].value, issued[j].value;
      p.IsColumn() && q.IsColumn() && !SameBank(p, q.rank, q.bank) && Remembered(issued[..j], i, q.rank, q.bank) ==>
        j - i >= if q.IsRead() then ToRead(c, p, q.rank) else ToWrite(c, p, q.rank)
  }

  ghost predicate Recalls(c: Config, banks: BankTable, issued: seq<Option<BusPacket>>) {
    forall i, r, b :: 0 <= i < |issued| && issued[i].Some? && issued[i].value.IsColumn()
                      && 0 <= r < |banks| && 0 <= b < |banks[r]| && !SameBank(issued[i].value, r, b) ==>
      RecallsAt(c, i, issued[i].value, r, banks[r][b], Remembered(issued, i, r, b))
  }

  predicate RecallsAt(c: Config, i: int, p: BusPacket, r: nat, m: Bank, remembered: bool) {
    remembered ==> m.nextRead >= i + ToRead(c, p, r) && m.nextWrite >= i + ToWrite(c, p, r)
  }

  // What is remembered was remembered before the last packet.
  lemma RememberedBefore(issued: seq<Option<BusPacket>>, x: Option<BusPacket>, i: nat, r: nat, b: nat)
    requires i < |issued| && issued[i].Some? && Remembered(issued + [x], i, r, b)
    ensures Remembered(issued, i, r, b) && !ClosesBank(x, r, b)
  {
    hide OpenRow, ClosesBank;
    var more := issued + [x];
    assert more[..i] == issued[..i] && more[|issued|] == x;
    forall k | i < k < |issued| ensures !ClosesBank(issued[k], r, b) {
      assert more[k] == issued[k];
    }
  }

  lemma IssuedRecalls(c: Config, t: int, i: int, p: BusPacket, q: BusPacket, r: nat, b: nat, m: Bank)
    requires !ClosesBank(Some(q), r, b) && RecallsAt(c, i, p, r, m, true)
    ensures RecallsAt(c, i, p, r, Issue(c, t, q, r, b, m), true)
  {
  }

  lemma NewRecalls(c: Config, t: int, q: BusPacket, r: nat, b: nat, m: Bank)
    requires q.IsColumn() && !SameBank(q, r, b) && (q.rank == r || Open(m))
    ensures RecallsAt(c, t, q, r, Issue(c, t, q, r, b, m), true)
  {
  }

  // Same times for the next columns.
  predicate SameColumns(m: Bank, m': Bank) {
    m'.nextRead == m.nextRead && m'.nextWrite == m.nextWrite
  }

  lemma SameColumnsRecall(c: Config, i: int, p: BusPacket, r: nat, m: Bank, m': Bank, remembered: bool)
    requires SameColumns(m, m') && RecallsAt(c, i, p, r, m, remembered)
    ensures RecallsAt(c, i, p, r, m', remembered)
  {
  }

  // One more cycle: `banks` as they were when x was sent, `banks'` at its end.
  lemma GrownRecalls(c: Config, t: nat, banks: BankTable, banks': BankTable, issued: seq<Option<BusPacket>>, x: Option<BusPacket>)
    requires |issued| == t && Recalls(c, banks, issued) && Agrees(banks, issued)
    requires |banks'| == |banks| && forall r :: 0 <= r < |banks| ==> |banks'[r]| == |banks[r]|
    requires forall r, b :: 0 <= r < |banks| && 0 <= b < |banks[r]| ==>
      SameColumns(if x.Some? then Issue(c, t, x.value, r, b, banks[r][b]) else banks[r][b], banks'[r][b])
    ensures Recalls(c, banks', issued + [x])
  {
    hide OpenRow, Remembered, Issue, RecallsAt, SameColumns, ClosesBank;
    var more := issued + [x];
    forall i, r, b | 0 <= i < |more| && more[i].Some? && more[i].value.IsColumn()
                     && 0 <= r < |banks'| && 0 <= b < |banks'[r]| && !SameBank(more[i].value, r, b)
      ensures RecallsAt(c, i, more[i].value, r, banks'[r][b], Remembered(more, i, r, b))
    {
      if Remembered(more, i, r, b) {
        var m := if x.Some? then Issue(c, t, x.value, r, b, banks[r][b]) else banks[r][b];
        assert RecallsAt(c, i, more[i].value, r, m, true) by {
          if i == t {
            JustRemembered(issued, x, r, b, banks[r][b]);
            NewRecalls(c, t, x.value, r, b, banks[r][b]);
          } else {
            RememberedBefore(issued, x, i, r, b);
            assert RecallsAt(c, i, issued[i].value, r, banks[r][b], Remembered(issued, i, r, b));
            if x.Some? {
              IssuedRecalls(c, t, i, issued[i].value, x.value, r, b, banks[r][b]);
            }
          }
        }
        SameColumnsRecall(c, i, more[i].value, r, m, banks'[r][b], true);
      } else {
        NotRemembered(c, i, more[i].value, r, banks'[r][b]);
      }
    }
  }

  // The column of this cycle is remembered by open banks and by its own rank.
  lemma JustRemembered(issued: seq<Option<BusPacket>>, x: Option<BusPacket>, r: nat, b: nat, m: Bank)
    requires x.Some? && Remembered(issued + [x], |issued|, r, b) && RowOf(m) == OpenRow(issued, r, b)
    ensures x.value.rank == r || Open(m)
  {
    hide OpenRow;
    assert (issued + [x])[..|issued|] == issued;
  }

  lemma NotRemembered(c: Config, i: int, p: BusPacket, r: nat, m: Bank)
    ensures RecallsAt(c, i, p, r, m, false)
  {
  }

  lemma ColumnWaits(c: Config, t: int, i: int, p: BusPacket, q: BusPacket, row: seq<Bank>)
    requires q.IsColumn() && MayIssue(t, row, q) && RecallsAt(c, i, p, q.rank, row[q.bank], true)
    ensures t - i >= if q.IsRead() then ToRead(c, p, q.rank) else ToWrite(c, p, q.rank)
  {
  }

  lemma GrownTurns(c: Config, t: nat, banks: BankTable, issued: seq<Option<BusPacket>>, x: Option<BusPacket>)
    requires |issued| == t && Recalls(c, banks, issued) && TurnsAround(c, issued)
    requires x.Some? ==> x.value.rank < |banks| && MayIssue(t, banks[x.value.rank], x.value)
    ensures TurnsAround(c, issued + [x])
  {
    hide Remembered, RecallsAt, ToRead, ToWrite, MayIssue;
    var more := issued + [x];
    forall i, j | 0 <= i < j < |more| && more[i].Some? && more[j].Some?
      ensures var p, q := more[i].value, more[j].value;
        p.IsColumn() && q.IsColumn() && !SameBank(p, q.rank, q.bank) && Remembered(more[..j], i, q.rank, q.bank) ==>
          j - i >= if q.IsRead() then ToRead(c, p, q.rank) else ToWrite(c, p, q.rank)
    {
      var p, q := more[i].value, more[j].value;
      assert more[..j] == issued[..j] && more[i] == issued[i];
      if j < t {
        assert more[j] == issued[j];
      } else if p.IsColumn() && q.IsColumn() && !SameBank(p, q.rank, q.bank) && Remembered(more[..j], i, q.rank, q.bank) {
        assert issued[..t] == issued;
        InRow(t, banks[q.rank], q);
        assert RecallsAt(c, i, p, q.rank, banks[q.rank][q.bank], Remembered(issued, i, q.rank, q.bank));
        ColumnWaits(c, t, i, p, q, banks[q.rank]);
      }
    }
  }

  lemma InRow(t: int, row: seq<Bank>, q: BusPacket)
    requires MayIssue(t, row, q)
    ensures q.bank < |row|
  {
  }

  // Aging leaves the times for the next columns alone, and so does the power phase.
  lemma AgedRecalls(c: Config, banks: BankTable, issued: seq<Option<BusPacket>>)
    requires Recalls(c, banks, issued)
    ensures Recalls(c, AgeAll(c, banks), issued)
  {
    hide Remembered, RecallsAt;
    var aged := AgeAll(c, banks);
    forall i, r, b | 0 <= i < |issued| && issued[i].Some? && issued[i].value.IsColumn()
                     && 0 <= r < |aged| && 0 <= b < |aged[r]| && !SameBank(issued[i].value, r, b)
      ensures RecallsAt(c, i, issued[i].value, r, aged[r][b], Remembered(issued, i, r, b))
    {
      assert RecallsAt(c, i, issued[i].value, r, banks[r][b], Remembered(issued, i, r, b));
      SameColumnsRecall(c, i, issued[i].value, r, banks[r][b], aged[r][b], Remembered(issued, i, r, b));
    }
  }

  lemma PowerLeavesColumns(c: Config, t: int, banks: BankTable, banks': BankTable)
    requires PoweredTable(c, t, banks, banks')
    ensures forall r, b :: 0 <= r < |banks| && 0 <= b < |banks[r]| ==> SameColumns(banks[r][b], banks'[r][b])
  {
    forall r, b | 0 <= r < |banks| && 0 <= b < |banks[r]| ensures SameColumns(banks[r][b], banks'[r][b]) {
      assert PoweredFrom(c, t, banks[r][b], banks'[r][b]);
    }
  }

  ghost predicate TurnHistory(c: Config, s: ChannelState) {
    && |s.mc.issued| == s.clock && Agrees(s.mc.banks, s.mc.issued) && RowsLegal(c, s.mc.issued)
    && Recalls(c, s.mc.banks, s.mc.issued) && TurnsAround(c, s.mc.issued)
  }

  lemma UpdateKeepsTurns(c: Config, s: ChannelState)
    requires c.Valid() && WellFormed(c, s) && Safe(c, s) && Update(c, s).Ok? && TurnHistory(c, s)
    ensures TurnHistory(c, Update(c, s).value)
  {
    hide Safe, Update, PopState, PopSpec, Agrees, RowsLegal, Recalls, TurnsAround, PoweredTable, MayIssue, Expanded,
         Issue, Open, Awake, PolicyCommand, AtDataBus, QueuesOK, RankOK, IssueAll, Target, BanksOK, Static, QueueAt,
         CommandFor;
    UpdateKeepsRows(c, s);
    CycleShape(c, s);
    PopStateIs(c, s);
    AgedRecalls(c, s.mc.banks, s.mc.issued);
    AgedRows(c, s);
    var s1, s' := PopState(c, s).value, Update(c, s).value;
    PopIsAllowed(c, s1);
    var x := PopSpec(c, s1.clock, s1.mc.banks, s1.mc.queue).1;
    GrownTurns(c, s.clock, s1.mc.banks, s.mc.issued, x);
    PowerLeavesColumns(c, s.clock, if x.Some? then IssueAll(c, s.clock, x.value, s1.mc.banks) else s1.mc.banks, s'.mc.banks);
    GrownRecalls(c, s.clock, s1.mc.banks, s'.mc.banks, s.mc.issued, x);
  }

  lemma InitialTurns(c: Config)
    ensures TurnHistory(c, Initial(c))
  {
  }

  // In every run a column keeps the full turnaround from every earlier column of another
  // bank that its own bank remembers.
  lemma EveryRunTurnsAround(c: Config, requests: seq<seq<Transaction>>)
    requires c.Valid()
    ensures Run(c, Initial(c), requests).Ok? ==> TurnsAround(c, Run(c, Initial(c), requests).value.mc.issued)
  {
    hide Safe, Run, Initial, Update, Agrees, RowsLegal, Recalls, TurnsAround, WellFormed;
    if Run(c, Initial(c), requests).Ok? {
      InitialTurns(c);
      var inv := (s: ChannelState) => TurnHistory(c, s);
      forall s, s' | Cycle(c, s, s') && inv(s) ensures inv(s') {
        UpdateKeepsTurns(c, s);
      }
      RunKeeps(c, inv, requests);
    }
  }
}
