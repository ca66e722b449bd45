// Every packet the scheduler pops is allowed by the controller's table, and the
// queue invariant survives the pop.
module SchedulerSafety {
  import opened SystemConfiguration
  import opened BankState
  import opened Scheduler
  import opened QueueInvariant
  import opened Sequences

  // A pop took packet p from q, leaving q'.
  ghost predicate SafePop(c: Config, t: int, banks: BankTable, q': QueueState, p: BusPacket) {
    && p.rank < |banks| && p.bank < c.NumBanks()
    && MayIssue(t, banks[p.rank], p)
    && (p.IsColumn() ==> ColumnFor(c.policy, p.kind))
    && QueuesOK(c, t + 1, IssueAll(c, t, p, banks), q')
  }

  lemma Assemble(c: Config, t: int, banks: BankTable, q: QueueState, q': QueueState, p: BusPacket)
    requires c.Valid() && QueuesOK(c, t + 1, banks, q) && Shape(c, q') && p.rank < c.NumRanks()
    requires forall r :: 0 <= r < c.NumRanks() && r != p.rank ==>
               q'.queues[r] == q.queues[r] && q'.rowAccessCounters[r] == q.rowAccessCounters[r]
    requires RankOK(c, t + 1, p.rank, IssueAll(c, t, p, banks)[p.rank],
                    q'.rowAccessCounters[p.rank], q'.queues[p.rank])
    ensures QueuesOK(c, t + 1, IssueAll(c, t, p, banks), q')
  {
    var banks' := IssueAll(c, t, p, banks);
    forall r | 0 <= r < c.NumRanks() && r != p.rank
      ensures RankOK(c, t + 1, r, banks'[r], q'.rowAccessCounters[r], q'.queues[r])
    {
      OtherRankKept(c, t, r, p, banks[r], banks'[r], q.rowAccessCounters[r], q.queues[r]);
    }
  }

  lemma RefreshWorkIsSafe(c: Config, t: int, banks: BankTable, q: QueueState)
    requires c.Valid() && QueuesOK(c, t + 1, banks, q)
    ensures var (q', p) := RefreshWork(c, t, banks, q);
      if p.Some? then SafePop(c, t, banks, q', p.value) else q' == q
  {
    var (q', p) := RefreshWork(c, t, banks, q);
    if p.Some? {
      var r := q.refreshRank;
      var row, counters, slots := banks[r], q.rowAccessCounters[r], q.queues[r];
      var row' := IssueAll(c, t, p.value, banks)[r];
      assert RankOK(c, t + 1, r, row, counters, slots);
      var b := FirstBusy(t, row);
      if b < c.NumBanks() {
        var s := Slot(c, b);
        var j := FirstTo(slots[s], b, row[b].openRow);
        FirstMatchIsBare(c, r, s, row, counters, slots[s], b, row[b].openRow);
        if j < |slots[s]| && slots[s][j].kind != ACTIVATE {
          assert Entry(c, r, s, slots[s][j]);
          TookBare(c, t, r, row, row', counters, slots, s, j);
        } else {
          ClosedRow(c, t, r, row, row', counters, slots, p.value);
        }
      } else {
        Refreshed(c, t, r, row, row', counters, slots, p.value);
      }
      Assemble(c, t, banks, q, q', p.value);
    }
  }

  lemma PickedActivateIsSafe(c: Config, t: int, banks: BankTable, q: QueueState, r: nat, s: nat, i: nat)
    requires c.Valid() && QueuesOK(c, t + 1, banks, q) && r < c.NumRanks() && s < |q.queues[r]|
    requires i == FirstEligible(c, t, banks, q, q.queues[r][s]) && i < |q.queues[r][s]|
    requires q.queues[r][s][i].kind == ACTIVATE
    ensures q.queues[r][s][i].rank == r && MayIssue(t, banks[r], q.queues[r][s][i])
    ensures i > 0 ==> q.queues[r][s][i - 1].kind != ACTIVATE
    ensures RankOK(c, t + 1, r, IssueAll(c, t, q.queues[r][s][i], banks)[r], q.rowAccessCounters[r],
                   q.queues[r][s := Drop(q.queues[r][s], i)])
  {
    var row, counters, slots := banks[r], q.rowAccessCounters[r], q.queues[r];
    assert RankOK(c, t + 1, r, row, counters, slots);
    assert Static(c, r, s, slots[s]) && BareReady(row, counters, slots[s]);
    assert Entry(c, r, s, slots[s][i]);
    PickedActivateIsFirst(c, t, banks, q, r, s, i);
    assert i > 0 && slots[s][i - 1].kind == ACTIVATE ==> PairOf(slots[s][i - 1], slots[s][i]);
    assert Consistent(t + 1, row[slots[s][i].bank]);
    TookActivate(c, t, r, row, IssueAll(c, t, slots[s][i], banks)[r], counters, slots, s, i);
  }

  lemma PickedColumnIsSafe(c: Config, t: int, banks: BankTable, q: QueueState, r: nat, s: nat, i: nat)
    requires c.Valid() && QueuesOK(c, t + 1, banks, q) && r < c.NumRanks() && s < |q.queues[r]|
    requires i < |q.queues[r][s]| && Eligible(c, t, banks, q, q.queues[r][s], i)
    requires q.queues[r][s][i].kind != ACTIVATE
    ensures var queue, p := q.queues[r][s], q.queues[r][s][i];
      && p.rank == r && p.bank < c.NumBanks() && MayIssue(t, banks[r], p)
      && ColumnFor(c.policy, p.kind)
      && var row' := IssueAll(c, t, p, banks)[r];
         var counters := q.rowAccessCounters[r];
         if c.policy == OpenPage && i > 0 && queue[i - 1].kind == ACTIVATE then
           RankOK(c, t + 1, r, row', counters[p.bank := counters[p.bank] + 1],
                  q.queues[r][s := queue[..i - 1] + queue[i + 1..]])
         else
           RankOK(c, t + 1, r, row', counters, q.queues[r][s := Drop(queue, i)])
  {
    var row, counters, slots := banks[r], q.rowAccessCounters[r], q.queues[r];
    var p := slots[s][i];
    assert RankOK(c, t + 1, r, row, counters, slots);
    assert Static(c, r, s, slots[s]) && BareReady(row, counters, slots[s]);
    assert Entry(c, r, s, p);
    PickedColumn(c, t, banks, q, r, s, i);
    assert Bare(slots[s], i) ==> Held(row[p.bank], counters[p.bank], p.row);
    var row' := IssueAll(c, t, p, banks)[r];
    if Bare(slots[s], i) {
      TookBare(c, t, r, row, row', counters, slots, s, i);
    } else {
      TookPair(c, t, r, row, row', counters, slots, s, i);
    }
  }

  lemma TakeFromIsSafe(c: Config, t: int, banks: BankTable, q: QueueState, cur: Cursor, i: nat)
    requires c.Valid() && QueuesOK(c, t + 1, banks, q) && InGrid(c, cur)
    requires i == FirstEligible(c, t, banks, q, QueueAt(c, q, cur)) && i < |QueueAt(c, q, cur)|
    ensures SafePop(c, t, banks, TakeFrom(c, q, cur, i), QueueAt(c, q, cur)[i])
  {
    hide RankOK, Eligible, MayIssue;
    var r, s := cur.rank, Slot(c, cur.bank);
    if q.queues[r][s][i].kind == ACTIVATE {
      PickedActivateIsSafe(c, t, banks, q, r, s, i);
    } else {
      PickedColumnIsSafe(c, t, banks, q, r, s, i);
    }
    Assemble(c, t, banks, q, TakeFrom(c, q, cur, i), QueueAt(c, q, cur)[i]);
  }

  lemma ScanQueuesIsSafe(c: Config, t: int, banks: BankTable, q: QueueState)
    requires c.Valid() && QueuesOK(c, t + 1, banks, q)
    ensures var (q', p) := ScanQueues(c, t, banks, q);
      if p.Some? then SafePop(c, t, banks, q', p.value) else q' == q
  {
    hide TakeFrom, SafePop, Eligible;
    var k := FirstReady(c, t, banks, q);
    if k < Lap(c) {
      var cur := AdvanceQueue(c, q.next, k);
      TakeFromIsSafe(c, t, banks, q, cur, FirstEligible(c, t, banks, q, QueueAt(c, q, cur)));
    }
  }

  lemma ScanBanksIsSafe(c: Config, t: int, banks: BankTable, q: QueueState)
    requires c.Valid() && QueuesOK(c, t + 1, banks, q) && c.policy == OpenPage
    ensures var (q', p) := ScanBanks(c, t, banks, q);
      if p.Some? then SafePop(c, t, banks, q', p.value) else q' == q
  {
    hide FirstClosable, RowIssued, Static, IssueWrite, IssueRead, AdvanceBank, Paired, CountersOK, Entry;
    var (q', p) := ScanBanks(c, t, banks, q);
    if p.Some? {
      var cur := AdvanceBank(c, q.nextPRE, FirstClosable(c, t, banks, q));
      var r, s := cur.rank, Slot(c, cur.bank);
      var row, counters, slots := banks[r], q.rowAccessCounters[r], q.queues[r];
      assert RankOK(c, t + 1, r, row, counters, slots);
      assert Static(c, r, s, slots[s]) && BareReady(row, counters, slots[s]);
      forall j | 0 <= j < |slots[s]| && Bare(slots[s], j)
        ensures slots[s][j].bank != cur.bank
      {
        assert Held(row[slots[s][j].bank], counters[slots[s][j].bank], slots[s][j].row);
        assert !Wanted(slots[s], cur.bank, row[cur.bank].openRow) || counters[cur.bank] > 0;
      }
      ClosedRow(c, t, r, row, IssueAll(c, t, p.value, banks)[r], counters, slots, p.value);
      Assemble(c, t, banks, q, q', p.value);
    }
  }

  // The windows and the scheduling position do not matter to the invariant.
  lemma SameQueues(c: Config, t: int, banks: BankTable, q: QueueState, q': QueueState)
    requires QueuesOK(c, t, banks, q) && Shape(c, q')
    requires q'.queues == q.queues && q'.rowAccessCounters == q.rowAccessCounters
    ensures QueuesOK(c, t, banks, q')
  {
  }

  lemma ChooseIsSafe(c: Config, t: int, banks: BankTable, q: QueueState)
    requires c.Valid() && QueuesOK(c, t + 1, banks, q)
    ensures var (q', p) := Choose(c, t, banks, q);
      if p.Some? then SafePop(c, t, banks, q', p.value) else q' == q
  {
    hide SafePop, ScanQueues, QueuesOK, ScanBanks, RankOK, IssueAll, Issue, Issuable, FirstTo;
    RefreshWorkIsSafe(c, t, banks, q);
    ScanQueuesIsSafe(c, t, banks, q);
    if c.policy == OpenPage {
      ScanBanksIsSafe(c, t, banks, q);
    }
  }

  lemma FinishIsSafe(c: Config, t: int, banks: BankTable, q: QueueState, p: BusPacket)
    requires Shape(c, q) && TableShape(c, banks) && SafePop(c, t, banks, q, p)
    ensures SafePop(c, t, banks, Finish(c, q, p), p)
  {
    SameQueues(c, t + 1, IssueAll(c, t, p, banks), q, Finish(c, q, p));
  }

  lemma AgedWindowsAreSafe(c: Config, t: int, banks: BankTable, q: QueueState)
    requires QueuesOK(c, t, banks, q)
    ensures QueuesOK(c, t, banks, AgeWindows(q))
  {
    SameQueues(c, t, banks, q, AgeWindows(q));
  }

  // The main step: whatever pop returns may be issued, and the invariant is kept.
  lemma PopIsSafe(c: Config, t: int, banks: BankTable, q: QueueState)
    requires c.Valid() && QueuesOK(c, t + 1, banks, q)
    ensures var (q', p) := PopSpec(c, t, banks, q);
      if p.Some? then SafePop(c, t, banks, q', p.value) else QueuesOK(c, t + 1, banks, q')
  {
    hide Scheduler.RefreshWork, Scheduler.ScanQueues, Scheduler.ScanBanks, Choose, SafePop, QueuesOK, RankOK,
         IssueAll, Issue, Finish, BanksOK, Static;
    AgedWindowsAreSafe(c, t + 1, banks, q);
    ChooseIsSafe(c, t, banks, AgeWindows(q));
    var (q1, p) := Choose(c, t, banks, AgeWindows(q));
    if p.Some? {
      FinishIsSafe(c, t, banks, q1, p.value);
    }
  }
}
