// No row is opened in vain: a bank is only precharged after a column access to the row
// that its last activate opened.
module RowUse {
  import opened Wrappers
  import opened SystemConfiguration
  import opened AddressMapping
  import opened BankState
  import opened Scheduler
  import opened QueueInvariant
  import opened Channel
  import opened TimingSafety
  import opened ReadPipeline
  import opened Conservation
  import opened ChannelSafety
  import opened OneCycle
  import opened CommandHistory
  import opened RowFairness
  import opened Runs

  // An open row has been used since its activate, or its column access still waits.
  ghost predicate Awaited(m: Bank, bare: bool, columns: nat) {
    Open(m) ==> if m.lastCommand == ACTIVATE then bare else columns >= 1
  }

  ghost predicate RowsAwaited(c: Config, banks: BankTable, q: QueueState, issued: seq<Option<BusPacket>>)
    requires TableShape(c, banks) && Shape(c, q)
  {
    forall r, b :: 0 <= r < c.NumRanks() && 0 <= b < c.NumBanks() ==>
      Awaited(banks[r][b], BareFor(c, q, r, b), ColumnsSince(issued, r, b))
  }

  ghost predicate RowsUsed(issued: seq<Option<BusPacket>>) {
    forall j :: 0 <= j < |issued| && issued[j].Some? && issued[j].value.kind == PRECHARGE ==>
      ColumnsSince(issued[..j], issued[j].value.rank, issued[j].value.bank) >= 1
  }

  lemma AwaitedAfterPop(c: Config, t: int, p: BusPacket, r: nat, b: nat, row: seq<Bank>, counter: nat, counter': nat,
                        bare: bool, bare': bool, columns: nat, columns': nat)
    requires b < |row| && (p.rank == r ==> MayIssue(t, row, p)) && PolicyCommand(c, p)
    requires Awaited(row[b], bare, columns) && PopAt(p, r, b, counter, counter', bare, bare')
    requires columns' == if !Hits(Some(p), r, b) then columns
                         else if p.kind == ACTIVATE then 0
                         else if p.IsColumn() then columns + 1 else columns
    ensures Awaited(Issue(c, t, p, r, b, row[b]), bare', columns')
    ensures p.kind == PRECHARGE && p.rank == r && p.bank == b ==> columns >= 1 && row[b].lastCommand != ACTIVATE
  {
  }

  lemma PopKeepsAwaited(c: Config, t: int, banks: BankTable, q: QueueState, issued: seq<Option<BusPacket>>)
    requires c.Valid() && QueuesOK(c, t + 1, banks, q) && RowsAwaited(c, banks, q, issued)
    requires var p := PopSpec(c, t, banks, q).1;
      p.Some? ==> p.value.rank < c.NumRanks() && MayIssue(t, banks[p.value.rank], p.value) && PolicyCommand(c, p.value)
    ensures var (q', p) := PopSpec(c, t, banks, q);
      && RowsAwaited(c, if p.Some? then IssueAll(c, t, p.value, banks) else banks, q', issued + [p])
      && (p.Some? && p.value.kind == PRECHARGE ==>
            && ColumnsSince(issued, p.value.rank, p.value.bank) >= 1
            && banks[p.value.rank][p.value.bank].lastCommand != ACTIVATE)
  {
    hide PopSpec, Awaited, PopAt, BareIn, MayIssue, RankOK, ColumnsSince, Issue;
    PopIsFair(c, t, banks, q);
    var (q', p) := PopSpec(c, t, banks, q);
    var banks' := if p.Some? then IssueAll(c, t, p.value, banks) else banks;
    forall r, b | 0 <= r < c.NumRanks() && 0 <= b < c.NumBanks()
      ensures Awaited(banks'[r][b], BareFor(c, q', r, b), ColumnsSince(issued + [p], r, b))
      ensures p.Some? && p.value.kind == PRECHARGE && p.value.rank == r && p.value.bank == b ==>
        ColumnsSince(issued, r, b) >= 1 && banks[r][b].lastCommand != ACTIVATE
    {
      assert Awaited(banks[r][b], BareFor(c, q, r, b), ColumnsSince(issued, r, b));
      ColumnsAppend(issued, p, r, b);
      if p.Some? {
        AwaitedAfterPop(c, t, p.value, r, b, banks[r], q.rowAccessCounters[r][b], q'.rowAccessCounters[r][b],
                        BareFor(c, q, r, b), BareFor(c, q', r, b),
                        ColumnsSince(issued, r, b), ColumnsSince(issued + [p], r, b));
      }
    }
  }

  // Aging and power changes leave open rows alone, and new transactions only queue up
  // behind what waits.
  lemma SameAwaited(c: Config, banks: BankTable, q: QueueState, banks': BankTable, q': QueueState,
                    issued: seq<Option<BusPacket>>)
    requires TableShape(c, banks) && Shape(c, q) && TableShape(c, banks') && Shape(c, q')
    requires RowsAwaited(c, banks, q, issued)
    requires forall r, b :: 0 <= r < c.NumRanks() && 0 <= b < c.NumBanks() ==>
      && (Open(banks'[r][b]) ==> banks'[r][b] == banks[r][b])
      && (BareFor(c, q, r, b) ==> BareFor(c, q', r, b))
    ensures RowsAwaited(c, banks', q', issued)
  {
    hide BareIn, ColumnsSince;
    forall r, b | 0 <= r < c.NumRanks() && 0 <= b < c.NumBanks()
      ensures Awaited(banks'[r][b], BareFor(c, q', r, b), ColumnsSince(issued, r, b))
    {
      assert Awaited(banks[r][b], BareFor(c, q, r, b), ColumnsSince(issued, r, b));
    }
  }

  lemma AgedOpen(c: Config, t: int, m: Bank)
    requires Consistent(t, m)
    ensures Open(Age(c, m)) ==> Age(c, m) == m
  {
  }

  lemma AgedAwaited(c: Config, s: ChannelState, q: QueueState)
    requires WellFormed(c, s) && Safe(c, s) && Shape(c, q) && q.queues == s.mc.queue.queues
    requires RowsAwaited(c, s.mc.banks, s.mc.queue, s.mc.issued)
    ensures RowsAwaited(c, AgeAll(c, s.mc.banks), q, s.mc.issued)
  {
    hide Consistent, Reads, Matched, QueuesOK, Tracking, Open, RowsAwaited, BareIn, RankOK, PowerFlags, BanksOK,
         Static, BareReady, InFlight, AgeAll, Paired, CountersOK;
    forall r, b | 0 <= r < c.NumRanks() && 0 <= b < c.NumBanks()
      ensures Open(AgeAll(c, s.mc.banks)[r][b]) ==> AgeAll(c, s.mc.banks)[r][b] == s.mc.banks[r][b]
    {
      RowConsistent(c, s.clock, s.mc.banks, s.mc.queue, r);
      AgedOpen(c, s.clock, s.mc.banks[r][b]);
    }
    SameAwaited(c, s.mc.banks, s.mc.queue, AgeAll(c, s.mc.banks), q, s.mc.issued);
  }

  lemma AppendedBares(c: Config, q: QueueState, tr: Transaction, q': QueueState, r: nat, b: nat)
    requires Shape(c, q) && Shape(c, q') && Expanded(c, q, tr, q') && r < c.NumRanks() && b < c.NumBanks()
    ensures BareFor(c, q, r, b) ==> BareFor(c, q', r, b)
  {
    hide Decode;
    var queue, queue' := QueueAt(c, q, Cursor(r, b)), QueueAt(c, q', Cursor(r, b));
    forall i | 0 <= i < |queue| && Bare(queue, i) ensures Bare(queue', i) && queue'[i] == queue[i] {
      assert i > 0 ==> queue'[i - 1] == queue[i - 1];
    }
  }

  lemma EndAwaited(c: Config, t: int, banks: BankTable, q: QueueState, banks': BankTable, q': QueueState,
                   issued: seq<Option<BusPacket>>)
    requires TableShape(c, banks) && Shape(c, q) && TableShape(c, banks') && Shape(c, q')
    requires RowsAwaited(c, banks, q, issued) && PoweredTable(c, t, banks, banks')
    requires q'.queues == q.queues || exists tr: Transaction :: Expanded(c, q, tr, q')
    ensures RowsAwaited(c, banks', q', issued)
  {
    hide RowsAwaited, BareIn, Expanded;
    forall r, b | 0 <= r < c.NumRanks() && 0 <= b < c.NumBanks()
      ensures Open(banks'[r][b]) ==> banks'[r][b] == banks[r][b]
      ensures BareFor(c, q, r, b) ==> BareFor(c, q', r, b)
    {
      assert PoweredFrom(c, t, banks[r][b], banks'[r][b]);
      if q'.queues != q.queues {
        var tr :| Expanded(c, q, tr, q');
        AppendedBares(c, q, tr, q', r, b);
      }
    }
    SameAwaited(c, banks, q, banks', q', issued);
  }

  lemma GrownUsed(issued: seq<Option<BusPacket>>, x: Option<BusPacket>)
    requires RowsUsed(issued)
    requires x.Some? && x.value.kind == PRECHARGE ==> ColumnsSince(issued, x.value.rank, x.value.bank) >= 1
    ensures RowsUsed(issued + [x])
  {
    hide ColumnsSince;
    var more := issued + [x];
    forall j | 0 <= j < |more| && more[j].Some? && more[j].value.kind == PRECHARGE
      ensures ColumnsSince(more[..j], more[j].value.rank, more[j].value.bank) >= 1
    {
      assert more[..j] == issued[..j];
      if j == |issued| {
        assert issued[..j] == issued;
      }
    }
  }

  ghost predicate UseHistory(c: Config, s: ChannelState)
    requires WellFormed(c, s)
  {
    RowsAwaited(c, s.mc.banks, s.mc.queue, s.mc.issued) && RowsUsed(s.mc.issued)
  }

  // Besides, a precharge never goes to a row that was not used.
  lemma UpdateKeepsUse(c: Config, s: ChannelState)
    requires c.Valid() && WellFormed(c, s) && Safe(c, s) && Update(c, s).Ok? && UseHistory(c, s)
    ensures UseHistory(c, Update(c, s).value)
    ensures PopState(c, s).Ok?
    ensures var m := PopState(c, s).value.mc;
      var p := PopSpec(c, s.clock, m.banks, m.queue).1;
      p.Some? && p.value.kind == PRECHARGE ==> m.banks[p.value.rank][p.value.bank].lastCommand != ACTIVATE
  {
    hide Safe, Update, PopState, PopSpec, RowsAwaited, RowsUsed, BareFor, RankOK, Reads, Tracking, MayIssue,
         PoweredTable, AgeAll, PolicyCommand, Timing, QueuesOK, Expanded, IssueAll, PowerFlags, Issue, Target,
         BanksOK, Static;
    CycleShape(c, s);
    PopStateIs(c, s);
    var s1, s' := PopState(c, s).value, Update(c, s).value;
    AgedAwaited(c, s, s1.mc.queue);
    PopIsAllowed(c, s1);
    PopKeepsAwaited(c, s1.clock, s1.mc.banks, s1.mc.queue, s1.mc.issued);
    var (q, p) := PopSpec(c, s1.clock, s1.mc.banks, s1.mc.queue);
    var banks := if p.Some? then IssueAll(c, s1.clock, p.value, s1.mc.banks) else s1.mc.banks;
    EndAwaited(c, s.clock, banks, q, s'.mc.banks, s'.mc.queue, s'.mc.issued);
    GrownUsed(s.mc.issued, p);
  }

  lemma InitialUse(c: Config)
    ensures UseHistory(c, Initial(c))
  {
    hide BareIn;
  }

  // In every run a bank is precharged only after a column access since its last activate.
  lemma EveryRowIsUsed(c: Config, requests: seq<seq<Transaction>>)
    requires c.Valid()
    ensures Run(c, Initial(c), requests).Ok? ==> RowsUsed(Run(c, Initial(c), requests).value.mc.issued)
  {
    hide Safe, Run, Initial, Update, RowsAwaited, RowsUsed, WellFormed, PopSpec, Timing, PopState, QueuesOK, Tracking,
         RankOK, Reads, PowerFlags, BanksOK;
    if Run(c, Initial(c), requests).Ok? {
      InitialUse(c);
      var inv := (s: ChannelState) => WellFormed(c, s) && UseHistory(c, s);
      forall s, s' | Cycle(c, s, s') && inv(s) ensures inv(s') {
        UpdateKeepsUse(c, s);
      }
      RunKeeps(c, inv, requests);
    }
  }
}
