// Between an activate and the next precharge of a bank at most
// TOTAL_ROW_ACCESSES + 1 column accesses are issued.
module RowFairness {
  import opened Wrappers
  import opened SystemConfiguration
  import opened AddressMapping
  import opened BankState
  import opened Scheduler
  import opened QueueInvariant
  import opened SchedulerSafety
  import opened Channel
  import opened TimingSafety
  import opened ReadPipeline
  import opened ChannelSafety
  import opened OneCycle
  import opened Sequences
  import opened Runs

  predicate Hits(x: Option<BusPacket>, r: nat, b: nat) {
    x.Some? && x.value.rank == r && x.value.bank == b
  }

  // Column accesses to a bank since its last activate.
  function ColumnsSince(issued: seq<Option<BusPacket>>, r: nat, b: nat): nat {
    if issued == [] then 0
    else
      var x, before := issued[|issued| - 1], ColumnsSince(issued[..|issued| - 1], r, b);
      if !Hits(x, r, b) then before
      else if x.value.kind == ACTIVATE then 0
      else if x.value.IsColumn() then before + 1
      else before
  }

  ghost predicate Bounded(c: Config, issued: seq<Option<BusPacket>>) {
    forall i, r, b :: 0 <= i <= |issued| && 0 <= r < c.NumRanks() && 0 <= b < c.NumBanks() ==>
      ColumnsSince(issued[..i], r, b) <= c.totalRowAccesses + 1
  }

  // A column access waits for the row that was opened for it.
  ghost predicate BareIn(queue: seq<BusPacket>, bank: nat) {
    exists i :: 0 <= i < |queue| && Bare(queue, i) && queue[i].bank == bank
  }

  ghost predicate BareFor(c: Config, q: QueueState, r: nat, b: nat)
    requires Shape(c, q) && r < c.NumRanks() && b < c.NumBanks()
  {
    BareIn(q.queues[r][Slot(c, b)], b)
  }

  // The counter of an open row counts its column accesses, all or but for the first.
  ghost predicate Covered(c: Config, m: Bank, counter: nat, bare: bool, columns: nat) {
    && (bare ==> columns == 0)
    && (m.state == RowActive ==> counter <= columns <= counter + 1)
    && columns <= c.totalRowAccesses + 1
  }

  ghost predicate Fair(c: Config, banks: BankTable, q: QueueState, issued: seq<Option<BusPacket>>)
    requires TableShape(c, banks) && Shape(c, q)
  {
    forall r, b :: 0 <= r < c.NumRanks() && 0 <= b < c.NumBanks() ==>
      Covered(c, banks[r][b], q.rowAccessCounters[r][b], BareFor(c, q, r, b), ColumnsSince(issued, r, b))
  }

  // ---- What a pop does to one bank's counter and bare column access ----

  ghost predicate PopAt(p: BusPacket, r: nat, b: nat, counter: nat, counter': nat, bare: bool, bare': bool) {
    if p.kind == REFRESH || p.rank != r || p.bank != b then
      counter' == counter && bare' == bare
    else if p.kind == ACTIVATE then
      counter' == counter && bare'
    else if p.IsColumn() then
      !bare' && counter' == if bare then counter else counter + 1
    else
      !bare && !bare' && counter' == 0
  }

  ghost predicate PopFair(c: Config, q: QueueState, q': QueueState, p: BusPacket)
    requires Shape(c, q) && Shape(c, q')
  {
    forall r, b :: 0 <= r < c.NumRanks() && 0 <= b < c.NumBanks() ==>
      PopAt(p, r, b, q.rowAccessCounters[r][b], q'.rowAccessCounters[r][b], BareFor(c, q, r, b), BareFor(c, q', r, b))
  }

  lemma RemoveBareLeaves(c: Config, r: nat, s: nat, row: seq<Bank>, counters: seq<nat>, queue: seq<BusPacket>, i: nat, b: nat)
    requires Static(c, r, s, queue) && BareReady(row, counters, queue) && Bare(queue, i)
    ensures !BareIn(Drop(queue, i), queue[i].bank) && BareIn(queue, queue[i].bank)
    ensures b != queue[i].bank ==> BareIn(Drop(queue, i), b) == BareIn(queue, b)
  {
    RemoveBare(c, r, s, queue, i);
    var rest := Drop(queue, i);
    forall j | 0 <= j < |rest| && Bare(rest, j)
      ensures rest[j].bank != queue[i].bank && BareIn(queue, rest[j].bank)
    {
      var j0 := if j < i then j else j + 1;
      assert Bare(queue, j0) && rest[j] == queue[j0];
      assert FirstOfBank(queue, j0) && FirstOfBank(queue, i);
    }
    forall j | 0 <= j < |queue| && j != i && Bare(queue, j) ensures BareIn(rest, queue[j].bank) {
      var j1 := if j < i then j else j - 1;
      assert j1 > 0 && j1 != i ==> rest[j1 - 1] == queue[j - 1];
      assert Bare(rest, j1) && rest[j1] == queue[j];
    }
  }

  lemma RemoveActivateLeaves(c: Config, r: nat, s: nat, queue: seq<BusPacket>, i: nat, b: nat)
    requires Static(c, r, s, queue) && i < |queue| && queue[i].kind == ACTIVATE
    ensures b != queue[i].bank ==> BareIn(Drop(queue, i), b) == BareIn(queue, b)
    ensures BareIn(Drop(queue, i), queue[i].bank)
  {
    RemoveActivate(c, r, s, queue, i);
    var rest := Drop(queue, i);
    forall j | 0 <= j < |rest| && Bare(rest, j) && rest[j].bank == b && b != queue[i].bank
      ensures BareIn(queue, b)
    {
      var j0 := if j < i then j else j + 1;
      assert Bare(queue, j0) && rest[j] == queue[j0];
    }
    assert PairOf(queue[i], queue[i + 1]);
    forall j | 0 <= j < |queue| && Bare(queue, j) ensures BareIn(rest, queue[j].bank) {
      assert j != i && j != i + 1;
      var j1 := if j < i then j else j - 1;
      assert j1 > 0 ==> rest[j1 - 1] == queue[j - 1];
      assert Bare(rest, j1) && rest[j1] == queue[j];
    }
    assert i > 0 ==> queue[i - 1].kind != ACTIVATE;
    assert Bare(rest, i);
  }

  lemma RemovePairLeaves(c: Config, r: nat, s: nat, queue: seq<BusPacket>, i: nat, b: nat)
    requires Static(c, r, s, queue) && 0 < i < |queue| && queue[i - 1].kind == ACTIVATE
    ensures BareIn(queue[..i - 1] + queue[i + 1..], b) == BareIn(queue, b)
  {
    RemovePair(c, r, s, queue, i);
    var rest := queue[..i - 1] + queue[i + 1..];
    forall j | 0 <= j < |rest| && Bare(rest, j) && rest[j].bank == b
      ensures BareIn(queue, b)
    {
      var j0 := if j < i - 1 then j else j + 2;
      assert Bare(queue, j0) && rest[j] == queue[j0];
    }
    forall j | 0 <= j < |queue| && Bare(queue, j) && queue[j].bank == b ensures BareIn(rest, b) {
      assert j != i && j != i - 1;
      var j1 := if j < i - 1 then j else j - 2;
      assert i > 1 ==> queue[i - 2].kind != ACTIVATE;
      assert j1 > 0 ==> rest[j1 - 1] == queue[if j == i + 1 then i - 2 else j - 1];
      assert Bare(rest, j1) && rest[j1] == queue[j];
    }
  }

  // Removing one queue's packet leaves every other bank's queue alone or only shrinks it.
  lemma TakeFromIsFair(c: Config, t: int, banks: BankTable, q: QueueState, cur: Cursor, i: nat)
    requires c.Valid() && QueuesOK(c, t + 1, banks, q) && InGrid(c, cur)
    requires i == FirstEligible(c, t, banks, q, QueueAt(c, q, cur)) && i < |QueueAt(c, q, cur)|
    ensures PopFair(c, q, TakeFrom(c, q, cur, i), QueueAt(c, q, cur)[i])
  {
    var rk, s := cur.rank, Slot(c, cur.bank);
    var queue, p := q.queues[rk][s], q.queues[rk][s][i];
    var q' := TakeFrom(c, q, cur, i);
    assert RankOK(c, t + 1, rk, banks[rk], q.rowAccessCounters[rk], q.queues[rk]);
    assert Static(c, rk, s, queue) && BareReady(banks[rk], q.rowAccessCounters[rk], queue);
    assert Entry(c, rk, s, p);
    TakenIsFair(c, t, banks, q, cur, i);
  }

  lemma TakenIsFair(c: Config, t: int, banks: BankTable, q: QueueState, cur: Cursor, i: nat)
    requires TableShape(c, banks) && Shape(c, q) && InGrid(c, cur) && i < |QueueAt(c, q, cur)|
    requires Eligible(c, t, banks, q, QueueAt(c, q, cur), i)
    requires Static(c, cur.rank, Slot(c, cur.bank), QueueAt(c, q, cur))
    requires BareReady(banks[cur.rank], q.rowAccessCounters[cur.rank], QueueAt(c, q, cur))
    requires Entry(c, cur.rank, Slot(c, cur.bank), QueueAt(c, q, cur)[i])
    ensures PopFair(c, q, TakeFrom(c, q, cur, i), QueueAt(c, q, cur)[i])
  {
    var rk, s := cur.rank, Slot(c, cur.bank);
    var queue, p := QueueAt(c, q, cur), QueueAt(c, q, cur)[i];
    var q' := TakeFrom(c, q, cur, i);
    if p.kind != ACTIVATE {
      PickedColumn(c, t, banks, q, rk, s, i);
    }
    hide Eligible, Static, BareReady, TakeFrom, Bare;
    TakeFromParts(c, q, cur, i);
    forall r, b | 0 <= r < c.NumRanks() && 0 <= b < c.NumBanks()
      ensures PopAt(p, r, b, q.rowAccessCounters[r][b], q'.rowAccessCounters[r][b], BareFor(c, q, r, b), BareFor(c, q', r, b))
    {
      if r == rk && Slot(c, b) == s {
        if p.kind == ACTIVATE {
          RemoveActivateLeaves(c, rk, s, queue, i, b);
        } else if Bare(queue, i) {
          RemoveBareLeaves(c, rk, s, banks[rk], q.rowAccessCounters[rk], queue, i, b);
        } else {
          RemovePairLeaves(c, rk, s, queue, i, b);
        }
      }
    }
  }

  lemma TakeFromParts(c: Config, q: QueueState, cur: Cursor, i: nat)
    requires Shape(c, q) && InGrid(c, cur) && i < |QueueAt(c, q, cur)|
    requires QueueAt(c, q, cur)[i].bank < c.NumBanks()
    requires Static(c, cur.rank, Slot(c, cur.bank), QueueAt(c, q, cur))
    ensures var queue, p, q' := QueueAt(c, q, cur), QueueAt(c, q, cur)[i], TakeFrom(c, q, cur, i);
      var pair := c.policy == OpenPage && i > 0 && queue[i - 1].kind == ACTIVATE;
      && (forall r, s :: 0 <= r < c.NumRanks() && 0 <= s < |q.queues[r]| && !(r == cur.rank && s == Slot(c, cur.bank)) ==>
            s < |q'.queues[r]| && q'.queues[r][s] == q.queues[r][s])
      && QueueAt(c, q', cur) == (if pair then queue[..i - 1] + queue[i + 1..] else Drop(queue, i))
      && (forall r, b :: 0 <= r < c.NumRanks() && 0 <= b < c.NumBanks() ==>
            q'.rowAccessCounters[r][b] == q.rowAccessCounters[r][b] + if pair && r == p.rank && b == p.bank then 1 else 0)
      && (Bare(queue, i) ==> !pair) && (p.kind == ACTIVATE ==> !pair)
  {
    var queue := QueueAt(c, q, cur);
    assert i > 0 && queue[i - 1].kind == ACTIVATE ==> PairOf(queue[i - 1], queue[i]);
  }

  lemma RefreshWorkIsFair(c: Config, t: int, banks: BankTable, q: QueueState)
    requires QueuesOK(c, t + 1, banks, q)
    ensures var (q', p) := RefreshWork(c, t, banks, q);
      p.Some? ==> PopFair(c, q, q', p.value)
  {
    hide Issuable, PopFair, FirstTo, BanksOK, Static, BareReady, Put, Paired, CountersOK, Entry;
    var (q', p) := RefreshWork(c, t, banks, q);
    if p.Some? {
      var r := q.refreshRank;
      var row, counters, slots := banks[r], q.rowAccessCounters[r], q.queues[r];
      assert RankOK(c, t + 1, r, row, counters, slots);
      hide RankOK, PopAt;
      var b := FirstBusy(t, row);
      if b < c.NumBanks() {
        var s := Slot(c, b);
        SlotFacts(c, t, banks, q, r, s);
        var j := FirstTo(slots[s], b, row[b].openRow);
        FirstMatchIsBare(c, r, s, row, counters, slots[s], b, row[b].openRow);
        if j < |slots[s]| && slots[s][j].kind != ACTIVATE {
          TookBareFair(c, q, q', r, s, row, counters, j);
        } else {
          assert !BareIn(slots[s], b);
          ClosedFair(c, q, q', p.value);
        }
      } else {
        assert q'.queues == q.queues && q'.rowAccessCounters == q.rowAccessCounters;
        SameFair(c, q, q', p.value);
      }
    }
  }

  lemma SlotFacts(c: Config, t: int, banks: BankTable, q: QueueState, r: nat, s: nat)
    requires QueuesOK(c, t + 1, banks, q) && r < c.NumRanks() && s < |q.queues[r]|
    ensures Static(c, r, s, q.queues[r][s]) && BareReady(banks[r], q.rowAccessCounters[r], q.queues[r][s])
    ensures forall i :: 0 <= i < |q.queues[r][s]| ==> Entry(c, r, s, q.queues[r][s][i])
  {
    assert RankOK(c, t + 1, r, banks[r], q.rowAccessCounters[r], q.queues[r]);
  }

  lemma TookBareFair(c: Config, q: QueueState, q': QueueState, r: nat, s: nat, row: seq<Bank>, counters: seq<nat>, j: nat)
    requires Shape(c, q) && Shape(c, q') && r < c.NumRanks() && s < |q.queues[r]| && Bare(q.queues[r][s], j)
    requires Static(c, r, s, q.queues[r][s]) && BareReady(row, counters, q.queues[r][s])
    requires q'.queues == Put(q.queues, r, s, Drop(q.queues[r][s], j)) && q'.rowAccessCounters == q.rowAccessCounters
    ensures PopFair(c, q, q', q.queues[r][s][j])
  {
    hide Paired, BareIn;
    var queue := q.queues[r][s];
    assert Entry(c, r, s, queue[j]);
    hide Static, BareReady, Bare;
    forall r1, b1 | 0 <= r1 < c.NumRanks() && 0 <= b1 < c.NumBanks()
      ensures PopAt(queue[j], r1, b1, q.rowAccessCounters[r1][b1], q'.rowAccessCounters[r1][b1],
                    BareFor(c, q, r1, b1), BareFor(c, q', r1, b1))
    {
      RemoveBareLeaves(c, r, s, row, counters, queue, j, b1);
    }
  }

  lemma ClosedFair(c: Config, q: QueueState, q': QueueState, p: BusPacket)
    requires Shape(c, q) && Shape(c, q') && p.kind == PRECHARGE && p.rank < c.NumRanks() && p.bank < c.NumBanks()
    requires !BareFor(c, q, p.rank, p.bank)
    requires q'.queues == q.queues && q'.rowAccessCounters == Put(q.rowAccessCounters, p.rank, p.bank, 0)
    ensures PopFair(c, q, q', p)
  {
    hide BareIn;
  }

  lemma SameFair(c: Config, q: QueueState, q': QueueState, p: BusPacket)
    requires Shape(c, q) && Shape(c, q') && p.kind == REFRESH
    requires q'.queues == q.queues && q'.rowAccessCounters == q.rowAccessCounters
    ensures PopFair(c, q, q', p)
  {
    hide BareIn;
  }

  lemma ScanBanksIsFair(c: Config, t: int, banks: BankTable, q: QueueState)
    requires c.Valid() && QueuesOK(c, t + 1, banks, q)
    ensures var (q', p) := ScanBanks(c, t, banks, q);
      p.Some? ==> PopFair(c, q, q', p.value)
  {
    var (q', p) := ScanBanks(c, t, banks, q);
    if p.Some? {
      var cur := AdvanceBank(c, q.nextPRE, FirstClosable(c, t, banks, q));
      var s := Slot(c, cur.bank);
      SlotFacts(c, t, banks, q, cur.rank, s);
      var queue, m := q.queues[cur.rank][s], banks[cur.rank][cur.bank];
      var counter := q.rowAccessCounters[cur.rank][cur.bank];
      assert Closable(c, t, banks, q, cur);
      forall j | 0 <= j < |queue| && Bare(queue, j)
        ensures queue[j].bank != cur.bank
      {
        assert Held(banks[cur.rank][queue[j].bank], q.rowAccessCounters[cur.rank][queue[j].bank], queue[j].row);
        assert !Wanted(queue, cur.bank, m.openRow) || counter > 0;
      }
      ClosedFair(c, q, q', p.value);
    }
  }

  lemma ScanQueuesIsFair(c: Config, t: int, banks: BankTable, q: QueueState)
    requires c.Valid() && QueuesOK(c, t + 1, banks, q)
    ensures var (q', p) := ScanQueues(c, t, banks, q);
      p.Some? ==> PopFair(c, q, q', p.value)
  {
    hide TakeFrom, PopFair, Eligible;
    var k := FirstReady(c, t, banks, q);
    if k < Lap(c) {
      var cur := AdvanceQueue(c, q.next, k);
      TakeFromIsFair(c, t, banks, q, cur, FirstEligible(c, t, banks, q, QueueAt(c, q, cur)));
    }
  }

  lemma ChooseIsFair(c: Config, t: int, banks: BankTable, q: QueueState)
    requires c.Valid() && QueuesOK(c, t + 1, banks, q)
    ensures var (q', p) := Choose(c, t, banks, q);
      if p.Some? then PopFair(c, q, q', p.value)
      else q'.queues == q.queues && q'.rowAccessCounters == q.rowAccessCounters
  {
    hide SafePop, RankOK, FirstClosable, IssueAll, Issue, Closable, Issuable, FirstTo, FirstBusy;
    RefreshWorkIsFair(c, t, banks, q);
    RefreshWorkIsSafe(c, t, banks, q);
    ScanQueuesIsFair(c, t, banks, q);
    ScanQueuesIsSafe(c, t, banks, q);
    ScanBanksIsFair(c, t, banks, q);
    if c.policy == OpenPage {
      ScanBanksIsSafe(c, t, banks, q);
    }
    hide RefreshWork, ScanQueues, ScanBanks, QueuesOK, PopFair;
  }

  lemma PopIsFair(c: Config, t: int, banks: BankTable, q: QueueState)
    requires c.Valid() && QueuesOK(c, t + 1, banks, q)
    ensures var (q', p) := PopSpec(c, t, banks, q);
      if p.Some? then PopFair(c, q, q', p.value)
      else q'.queues == q.queues && q'.rowAccessCounters == q.rowAccessCounters
  {
    hide Choose, QueuesOK, PopFair, AgeWindow, RankOK, BanksOK, Static, BareReady, NextRankAndBank, Paired,
         CountersOK, TableShape, Entry;
    var q0 := AgeWindows(q);
    AgedWindowsAreSafe(c, t + 1, banks, q);
    ChooseIsFair(c, t, banks, q0);
    var (q1, p) := Choose(c, t, banks, q0);
    FairThrough(c, q, q0, q1, PopSpec(c, t, banks, q).0, p);
  }

  // Windows and scheduling positions do not matter.
  lemma FairThrough(c: Config, q: QueueState, q0: QueueState, q1: QueueState, q2: QueueState, p: Option<BusPacket>)
    requires Shape(c, q) && Shape(c, q0) && Shape(c, q1) && Shape(c, q2)
    requires q0.queues == q.queues && q0.rowAccessCounters == q.rowAccessCounters
    requires p.Some? ==> q2.queues == q1.queues && q2.rowAccessCounters == q1.rowAccessCounters
    ensures p.Some? && PopFair(c, q0, q1, p.value) ==> PopFair(c, q, q2, p.value)
  {
    hide PopAt, BareIn;
  }

  // ---- Whole cycles ----

  lemma ColumnsAppend(issued: seq<Option<BusPacket>>, x: Option<BusPacket>, r: nat, b: nat)
    ensures ColumnsSince(issued + [x], r, b) ==
      if !Hits(x, r, b) then ColumnsSince(issued, r, b)
      else if x.value.kind == ACTIVATE then 0
      else if x.value.IsColumn() then ColumnsSince(issued, r, b) + 1
      else ColumnsSince(issued, r, b)
  {
    assert (issued + [x])[..|issued|] == issued;
  }

  // One bank across a pop.
  lemma CoveredAfterPop(c: Config, t: int, p: BusPacket, r: nat, b: nat, row: seq<Bank>, counter: nat, counter': nat,
                        bare: bool, bare': bool, columns: nat, columns': nat)
    requires c.Valid() && b < |row| && (p.rank == r ==> MayIssue(t, row, p))
    requires Covered(c, row[b], counter, bare, columns) && PopAt(p, r, b, counter, counter', bare, bare')
    requires counter' <= c.totalRowAccesses && (row[b].state != RowActive ==> counter == 0)
    requires p.kind == REFRESH ==> !p.IsColumn()
    requires columns' == if !Hits(Some(p), r, b) then columns
                         else if p.kind == ACTIVATE then 0
                         else if p.IsColumn() then columns + 1 else columns
    ensures Covered(c, Issue(c, t, p, r, b, row[b]), counter', bare', columns')
  {
  }

  lemma PopKeepsFair(c: Config, t: int, banks: BankTable, q: QueueState, issued: seq<Option<BusPacket>>)
    requires c.Valid() && QueuesOK(c, t + 1, banks, q) && Fair(c, banks, q, issued)
    ensures var (q', p) := PopSpec(c, t, banks, q);
      Fair(c, if p.Some? then IssueAll(c, t, p.value, banks) else banks, q', issued + [p])
  {
    hide PopSpec, Covered, PopAt, BareIn, MayIssue, RankOK, ColumnsSince, Issue;
    PopIsFair(c, t, banks, q);
    PopIsSafe(c, t, banks, q);
    var (q', p) := PopSpec(c, t, banks, q);
    var banks' := if p.Some? then IssueAll(c, t, p.value, banks) else banks;
    forall r, b | 0 <= r < c.NumRanks() && 0 <= b < c.NumBanks()
      ensures Covered(c, banks'[r][b], q'.rowAccessCounters[r][b], BareFor(c, q', r, b), ColumnsSince(issued + [p], r, b))
    {
      assert Covered(c, banks[r][b], q.rowAccessCounters[r][b], BareFor(c, q, r, b), ColumnsSince(issued, r, b));
      ColumnsAppend(issued, p, r, b);
      if p.Some? {
        CounterBounded(c, t + 1, banks', q', r, b);
        CounterBounded(c, t + 1, banks, q, r, b);
        CoveredAfterPop(c, t, p.value, r, b, banks[r], q.rowAccessCounters[r][b], q'.rowAccessCounters[r][b],
                        BareFor(c, q, r, b), BareFor(c, q', r, b),
                        ColumnsSince(issued, r, b), ColumnsSince(issued + [p], r, b));
      }
    }
  }

  lemma CounterBounded(c: Config, t: int, banks: BankTable, q: QueueState, r: nat, b: nat)
    requires QueuesOK(c, t, banks, q) && r < c.NumRanks() && b < c.NumBanks()
    ensures q.rowAccessCounters[r][b] <= c.totalRowAccesses
    ensures banks[r][b].state != RowActive ==> q.rowAccessCounters[r][b] == 0
  {
    assert RankOK(c, t, r, banks[r], q.rowAccessCounters[r], q.queues[r]);
  }

  // Aging, power changes and new transactions only relax what must be covered.
  lemma RelaxedFair(c: Config, banks: BankTable, q: QueueState, banks': BankTable, q': QueueState,
                    issued: seq<Option<BusPacket>>)
    requires TableShape(c, banks) && Shape(c, q) && TableShape(c, banks') && Shape(c, q')
    requires Fair(c, banks, q, issued) && q'.rowAccessCounters == q.rowAccessCounters
    requires forall r, b :: 0 <= r < c.NumRanks() && 0 <= b < c.NumBanks() ==>
      && (banks'[r][b].state == RowActive ==> banks[r][b].state == RowActive)
      && (BareFor(c, q', r, b) ==> BareFor(c, q, r, b))
    ensures Fair(c, banks', q', issued)
  {
    hide BareIn;
    forall r, b | 0 <= r < c.NumRanks() && 0 <= b < c.NumBanks()
      ensures Covered(c, banks'[r][b], q'.rowAccessCounters[r][b], BareFor(c, q', r, b), ColumnsSince(issued, r, b))
    {
      assert Covered(c, banks[r][b], q.rowAccessCounters[r][b], BareFor(c, q, r, b), ColumnsSince(issued, r, b));
    }
  }

  lemma ExpandedBares(c: Config, q: QueueState, tr: Transaction, q': QueueState, r: nat, b: nat)
    requires Shape(c, q) && Shape(c, q') && Expanded(c, q, tr, q') && r < c.NumRanks() && b < c.NumBanks()
    ensures BareFor(c, q', r, b) ==> BareFor(c, q, r, b)
  {
    hide Decode;
    var cur := Target(c, tr);
    var queue, queue' := QueueAt(c, q, Cursor(r, b)), QueueAt(c, q', Cursor(r, b));
    if r == cur.rank && Slot(c, b) == Slot(c, cur.bank) {
      assert queue' == queue + [CommandFor(c, ACTIVATE, tr), CommandFor(c, CommandKind(c, tr), tr)];
      forall i | 0 <= i < |queue'| && Bare(queue', i)
        ensures Bare(queue, i) && queue[i] == queue'[i]
      {
        assert queue'[|queue|].kind == ACTIVATE;
        assert i > 0 && i < |queue| ==> queue[i - 1] == queue'[i - 1];
      }
    }
  }

  ghost predicate FairHistory(c: Config, s: ChannelState)
    requires WellFormed(c, s)
  {
    Fair(c, s.mc.banks, s.mc.queue, s.mc.issued) && Bounded(c, s.mc.issued)
  }

  lemma GrownBound(c: Config, issued: seq<Option<BusPacket>>, x: Option<BusPacket>)
    requires Bounded(c, issued)
    requires forall r, b :: 0 <= r < c.NumRanks() && 0 <= b < c.NumBanks() ==>
      ColumnsSince(issued + [x], r, b) <= c.totalRowAccesses + 1
    ensures Bounded(c, issued + [x])
  {
    var more := issued + [x];
    forall i, r, b | 0 <= i <= |more| && 0 <= r < c.NumRanks() && 0 <= b < c.NumBanks()
      ensures ColumnsSince(more[..i], r, b) <= c.totalRowAccesses + 1
    {
      if i <= |issued| {
        assert more[..i] == issued[..i];
      } else {
        assert more[..i] == more;
      }
    }
  }

  lemma UpdateKeepsFair(c: Config, s: ChannelState)
    requires c.Valid() && WellFormed(c, s) && Safe(c, s) && Update(c, s).Ok? && FairHistory(c, s)
    ensures FairHistory(c, Update(c, s).value)
  {
    hide Safe, Update, PopState, PopSpec, Fair, Bounded, BareFor, RankOK, Reads, Tracking, Timing, QueuesOK, Expanded,
         IssueAll, PowerFlags, Issue, Target, BanksOK, Static;
    CycleShape(c, s);
    PopStateIs(c, s);
    var s1, s' := PopState(c, s).value, Update(c, s).value;
    RelaxedFair(c, s.mc.banks, s.mc.queue, s1.mc.banks, s1.mc.queue, s.mc.issued) by {
      AgedRows(c, s.mc.banks);
      SameBares(c, s.mc.queue, s1.mc.queue);
    }
    PopKeepsFair(c, s1.clock, s1.mc.banks, s1.mc.queue, s1.mc.issued);
    var (q, p) := PopSpec(c, s1.clock, s1.mc.banks, s1.mc.queue);
    var banks := if p.Some? then IssueAll(c, s1.clock, p.value, s1.mc.banks) else s1.mc.banks;
    CycleEndFair(c, s.clock, banks, q, s'.mc.banks, s'.mc.queue, s'.mc.issued);
    FairIsBounded(c, s'.mc.banks, s'.mc.queue, s'.mc.issued);
    GrownBound(c, s.mc.issued, p);
  }

  lemma AgedRows(c: Config, banks: BankTable)
    ensures forall r, b :: 0 <= r < |banks| && 0 <= b < |banks[r]| ==>
      (AgeAll(c, banks)[r][b].state == RowActive ==> banks[r][b].state == RowActive)
  {
  }

  lemma SameBares(c: Config, q: QueueState, q': QueueState)
    requires Shape(c, q) && Shape(c, q') && q'.queues == q.queues
    ensures forall r, b :: 0 <= r < c.NumRanks() && 0 <= b < c.NumBanks() ==>
      (BareFor(c, q', r, b) ==> BareFor(c, q, r, b))
  {
    hide BareIn;
  }

  lemma CycleEndFair(c: Config, t: int, banks: BankTable, q: QueueState, banks': BankTable, q': QueueState,
                     issued: seq<Option<BusPacket>>)
    requires TableShape(c, banks) && Shape(c, q) && TableShape(c, banks') && Shape(c, q')
    requires Fair(c, banks, q, issued) && q'.rowAccessCounters == q.rowAccessCounters
    requires PoweredTable(c, t, banks, banks')
    requires q'.queues == q.queues || exists tr: Transaction :: Expanded(c, q, tr, q')
    ensures Fair(c, banks', q', issued)
  {
    hide Fair, BareIn, Expanded;
    forall r, b | 0 <= r < c.NumRanks() && 0 <= b < c.NumBanks()
      ensures banks'[r][b].state == RowActive ==> banks[r][b].state == RowActive
      ensures BareFor(c, q', r, b) ==> BareFor(c, q, r, b)
    {
      assert PoweredFrom(c, t, banks[r][b], banks'[r][b]);
      if q'.queues != q.queues {
        var tr :| Expanded(c, q, tr, q');
        ExpandedBares(c, q, tr, q', r, b);
      }
    }
    RelaxedFair(c, banks, q, banks', q', issued);
  }

  lemma FairIsBounded(c: Config, banks: BankTable, q: QueueState, issued: seq<Option<BusPacket>>)
    requires TableShape(c, banks) && Shape(c, q) && Fair(c, banks, q, issued)
    ensures forall r, b :: 0 <= r < c.NumRanks() && 0 <= b < c.NumBanks() ==>
      ColumnsSince(issued, r, b) <= c.totalRowAccesses + 1
  {
    hide BareFor;
    forall r, b | 0 <= r < c.NumRanks() && 0 <= b < c.NumBanks()
      ensures ColumnsSince(issued, r, b) <= c.totalRowAccesses + 1
    {
      assert Covered(c, banks[r][b], q.rowAccessCounters[r][b], BareFor(c, q, r, b), ColumnsSince(issued, r, b));
    }
  }

  lemma InitialFair(c: Config)
    ensures FairHistory(c, Initial(c))
  {
    var s := Initial(c);
    forall r, b | 0 <= r < c.NumRanks() && 0 <= b < c.NumBanks()
      ensures Covered(c, s.mc.banks[r][b], s.mc.queue.rowAccessCounters[r][b], BareFor(c, s.mc.queue, r, b),
                      ColumnsSince([], r, b))
    {
      assert s.mc.queue.queues[r][Slot(c, b)] == [];
    }
  }

  lemma CountersCount(c: Config, s: ChannelState)
    requires WellFormed(c, s) && FairHistory(c, s)
    ensures CountersExact(c, s)
  {
    hide BareFor, Bounded, ColumnsSince;
    forall r, b | 0 <= r < c.NumRanks() && 0 <= b < c.NumBanks() && s.mc.banks[r][b].state == RowActive
      ensures s.mc.queue.rowAccessCounters[r][b] <= ColumnsSince(s.mc.issued, r, b) <= s.mc.queue.rowAccessCounters[r][b] + 1
    {
      assert Covered(c, s.mc.banks[r][b], s.mc.queue.rowAccessCounters[r][b], BareFor(c, s.mc.queue, r, b),
                     ColumnsSince(s.mc.issued, r, b));
    }
  }

  // The access counter of an open row is the number of its column accesses, or one less.
  ghost predicate CountersExact(c: Config, s: ChannelState)
    requires WellFormed(c, s)
  {
    forall r, b :: 0 <= r < c.NumRanks() && 0 <= b < c.NumBanks() && s.mc.banks[r][b].state == RowActive ==>
      s.mc.queue.rowAccessCounters[r][b] <= ColumnsSince(s.mc.issued, r, b) <= s.mc.queue.rowAccessCounters[r][b] + 1
  }

  // The fairness bound, at every point of every run, by counters that do count.
  lemma EveryRunIsFair(c: Config, requests: seq<seq<Transaction>>)
    requires c.Valid()
    ensures Run(c, Initial(c), requests).Ok? ==>
      var s := Run(c, Initial(c), requests).value;
      Bounded(c, s.mc.issued) && CountersExact(c, s)
  {
    hide Safe, Run, Initial, Update, Fair, Bounded, WellFormed, CountersExact;
    if Run(c, Initial(c), requests).Ok? {
      InitialFair(c);
      var inv := (s: ChannelState) => WellFormed(c, s) && FairHistory(c, s);
      forall s, s' | Cycle(c, s, s') && inv(s) ensures inv(s') {
        UpdateKeepsFair(c, s);
      }
      RunKeeps(c, inv, requests);
      CountersCount(c, Run(c, Initial(c), requests).value);
    }
  }
}
