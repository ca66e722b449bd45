// What the scheduler does for a rank whose refresh has been asked for: exactly when it
// sends the refresh, and which command it sends while a bank still keeps the refresh back.
module RefreshPop {
  import opened Wrappers
  import opened SystemConfiguration
  import opened BankState
  import opened Scheduler
  import opened QueueInvariant
  import opened SchedulerSafety
  import opened Sequences

  // The bank would let a refresh of its rank go in cycle t.
  predicate Quiet(t: int, m: Bank) {
    m.state != RowActive && m.nextActivate <= t
  }

  // A refresh has been asked for, and no bank of the rank keeps it back.
  predicate RefreshIsDue(c: Config, t: int, banks: BankTable, q: QueueState)
    requires TableShape(c, banks) && Shape(c, q)
  {
    && q.refreshWaiting
    && (forall b :: 0 <= b < c.NumBanks() ==> Quiet(t, banks[q.refreshRank][b]))
    && banks[q.refreshRank][0].state != PowerDown
  }

  lemma ScanQueuesSendsNoRefresh(c: Config, t: int, banks: BankTable, q: QueueState)
    requires TableShape(c, banks) && Shape(c, q)
    ensures var (q', p) := ScanQueues(c, t, banks, q);
      && q'.refreshWaiting == q.refreshWaiting && q'.refreshRank == q.refreshRank
      && (p.Some? ==> p.value.kind != REFRESH) && (p.None? ==> q' == q)
  {
  }

  lemma ScanBanksSendsNoRefresh(c: Config, t: int, banks: BankTable, q: QueueState)
    requires TableShape(c, banks) && Shape(c, q)
    ensures var (q', p) := ScanBanks(c, t, banks, q);
      && q'.refreshWaiting == q.refreshWaiting && q'.refreshRank == q.refreshRank
      && (p.Some? ==> p.value.kind == PRECHARGE) && (p.None? ==> q' == q)
  {
  }

  lemma RefreshWorkSendsRefresh(c: Config, t: int, banks: BankTable, q: QueueState)
    requires TableShape(c, banks) && Shape(c, q)
    ensures var (q', p) := RefreshWork(c, t, banks, q);
      && (p.Some? && p.value.kind == REFRESH <==> RefreshIsDue(c, t, banks, q))
      && (if RefreshIsDue(c, t, banks, q) then
            && p == Some(BusPacket(REFRESH, 0, 0, 0, q.refreshRank, 0))
            && q' == q.(refreshRank := NO_RANK, refreshWaiting := false)
          else q'.refreshWaiting == q.refreshWaiting && q'.refreshRank == q.refreshRank)
      && (p.None? ==> q' == q)
  {
    if q.refreshWaiting {
      var row := banks[q.refreshRank];
      assert FirstBusy(t, row) == |row| <==> forall b :: 0 <= b < |row| ==> Quiet(t, row[b]);
    }
  }

  lemma ChooseSendsRefresh(c: Config, t: int, banks: BankTable, q: QueueState)
    requires TableShape(c, banks) && Shape(c, q)
    ensures var (q', p) := Choose(c, t, banks, q);
      && (p.Some? && p.value.kind == REFRESH <==> RefreshIsDue(c, t, banks, q))
      && (if RefreshIsDue(c, t, banks, q) then
            && p == Some(BusPacket(REFRESH, 0, 0, 0, q.refreshRank, 0))
            && q' == q.(refreshRank := NO_RANK, refreshWaiting := false)
          else q'.refreshWaiting == q.refreshWaiting && q'.refreshRank == q.refreshRank)
  {
    hide RefreshWork, ScanQueues, ScanBanks, RefreshIsDue;
    RefreshWorkSendsRefresh(c, t, banks, q);
    ScanQueuesSendsNoRefresh(c, t, banks, q);
    ScanBanksSendsNoRefresh(c, t, banks, q);
  }

  // A refresh is sent exactly when one has been asked for and no bank of its rank is open,
  // too recently closed or asleep; then the request is settled, and otherwise it stays.
  lemma RefreshIsSentExactlyWhen(c: Config, t: int, banks: BankTable, q: QueueState)
    requires TableShape(c, banks) && Shape(c, q)
    ensures var (q', p) := PopSpec(c, t, banks, q);
      && (p.Some? && p.value.kind == REFRESH <==> RefreshIsDue(c, t, banks, q))
      && (if RefreshIsDue(c, t, banks, q) then
            && p == Some(BusPacket(REFRESH, 0, 0, 0, q.refreshRank, 0))
            && !q'.refreshWaiting && q'.queues == q.queues && q'.rowAccessCounters == q.rowAccessCounters
          else q'.refreshWaiting == q.refreshWaiting && q'.refreshRank == q.refreshRank)
  {
    hide Choose, RefreshIsDue, AgeWindow, NextRankAndBank;
    SameDue(c, t, banks, q, AgeWindows(q));
    ChooseSendsRefresh(c, t, banks, AgeWindows(q));
  }

  lemma SameDue(c: Config, t: int, banks: BankTable, q: QueueState, q': QueueState)
    requires TableShape(c, banks) && Shape(c, q) && Shape(c, q')
    requires q'.refreshWaiting == q.refreshWaiting && q'.refreshRank == q.refreshRank
    ensures RefreshIsDue(c, t, banks, q') == RefreshIsDue(c, t, banks, q)
  {
  }

  // ---- While a bank keeps the refresh back ----

  // Bank b is the first that keeps the refresh of rank r back.
  predicate KeepsBack(c: Config, t: int, banks: BankTable, r: nat, b: nat)
    requires TableShape(c, banks) && r < c.NumRanks() && b < c.NumBanks()
  {
    !Quiet(t, banks[r][b]) && forall i :: 0 <= i < b ==> Quiet(t, banks[r][i])
  }

  // Packet j is the first in the queue to the row that is open in bank b.
  predicate FirstToOpenRow(queue: seq<BusPacket>, j: nat, b: nat, m: Bank)
    requires j < |queue|
  {
    && queue[j].bank == b && queue[j].row == m.openRow
    && forall i :: 0 <= i < j ==> !(queue[i].bank == b && queue[i].row == m.openRow)
  }

  // The column access may be sent to its open row.
  predicate ColumnDue(c: Config, t: int, m: Bank, counter: nat, p: BusPacket) {
    && (p.IsRead() ==> t >= m.nextRead) && (p.IsWrite() ==> t >= m.nextWrite)
    && counter < c.totalRowAccesses
  }

  // A column access to the row that keeps the refresh back leaves as soon as it may.
  predicate ColumnLeaves(c: Config, t: int, banks: BankTable, q: QueueState, q': QueueState, p: Option<BusPacket>,
                         r: nat, b: nat, j: nat)
    requires TableShape(c, banks) && Shape(c, q) && r < c.NumRanks() && b < c.NumBanks()
    requires j < |q.queues[r][Slot(c, b)]|
  {
    var queue := q.queues[r][Slot(c, b)];
    ColumnDue(c, t, banks[r][b], q.rowAccessCounters[r][b], queue[j]) ==>
      && p == Some(queue[j]) && q'.rowAccessCounters == q.rowAccessCounters
      && q'.queues == Put(q.queues, r, Slot(c, b), Drop(queue, j))
  }

  // In open page, a row that no column access waits for is closed as soon as it may.
  predicate RowCloses(c: Config, t: int, banks: BankTable, q: QueueState, q': QueueState, p: Option<BusPacket>, r: nat, b: nat)
    requires TableShape(c, banks) && Shape(c, q) && r < c.NumRanks() && b < c.NumBanks()
  {
    c.policy == OpenPage && t >= banks[r][b].nextPrecharge ==>
      && p == Some(BusPacket(PRECHARGE, 0, 0, 0, r, b)) && q'.queues == q.queues
      && q'.rowAccessCounters == Put(q.rowAccessCounters, r, b, 0)
  }

  // The command is no more than the waiting rank needs: it goes to another rank, or it
  // uses the open row that keeps the refresh back, or it closes a row.
  predicate Spared(c: Config, t: int, banks: BankTable, q: QueueState, p: BusPacket, r: nat)
    requires TableShape(c, banks) && Shape(c, q) && r < c.NumRanks()
  {
    p.rank == r ==>
      || p.kind == REFRESH
      || (c.policy == OpenPage && p.kind == PRECHARGE)
      || (p.IsColumn() && p.bank < c.NumBanks() && KeepsBack(c, t, banks, r, p.bank)
          && exists j :: 0 <= j < |q.queues[r][Slot(c, p.bank)]| && Bare(q.queues[r][Slot(c, p.bank)], j)
                         && q.queues[r][Slot(c, p.bank)][j] == p)
  }

  lemma ScanQueuesSpares(c: Config, t: int, banks: BankTable, q: QueueState)
    requires QueuesOK(c, t + 1, banks, q) && q.refreshWaiting
    ensures var p := ScanQueues(c, t, banks, q).1; p.Some? ==> p.value.rank != q.refreshRank
  {
    var k := FirstReady(c, t, banks, q);
    if k < Lap(c) {
      var cur := AdvanceQueue(c, q.next, k);
      EntryAt(c, t, banks, q, cur, FirstEligible(c, t, banks, q, QueueAt(c, q, cur)));
    }
  }

  lemma EntryAt(c: Config, t: int, banks: BankTable, q: QueueState, cur: Cursor, i: nat)
    requires QueuesOK(c, t + 1, banks, q) && InGrid(c, cur) && i < |QueueAt(c, q, cur)|
    ensures QueueAt(c, q, cur)[i].rank == cur.rank
  {
    assert RankOK(c, t + 1, cur.rank, banks[cur.rank], q.rowAccessCounters[cur.rank], q.queues[cur.rank]);
    assert Entry(c, cur.rank, Slot(c, cur.bank), QueueAt(c, q, cur)[i]);
  }

  lemma RefreshWorkSpares(c: Config, t: int, banks: BankTable, q: QueueState)
    requires QueuesOK(c, t + 1, banks, q) && q.refreshWaiting
    ensures var p := RefreshWork(c, t, banks, q).1; p.Some? ==> Spared(c, t, banks, q, p.value, q.refreshRank)
  {
    var r := q.refreshRank;
    var row, slots := banks[r], q.queues[r];
    var b := FirstBusy(t, row);
    assert RankOK(c, t + 1, r, row, q.rowAccessCounters[r], slots);
    if b < c.NumBanks() && row[b].state == RowActive {
      var queue := slots[Slot(c, b)];
      assert Static(c, r, Slot(c, b), queue);
      FirstMatchIsBare(c, r, Slot(c, b), row, q.rowAccessCounters[r], queue, b, row[b].openRow);
      var j := FirstTo(queue, b, row[b].openRow);
      if j < |queue| && queue[j].kind != ACTIVATE {
        assert Entry(c, r, Slot(c, b), queue[j]);
        assert KeepsBack(c, t, banks, r, b);
      }
    }
  }

  // No command goes to a rank that waits for its refresh, other than the refresh itself
  // and what it still needs before.
  lemma WaitingRankIsSpared(c: Config, t: int, banks: BankTable, q: QueueState)
    requires c.Valid() && QueuesOK(c, t + 1, banks, q) && q.refreshWaiting
    ensures var p := PopSpec(c, t, banks, q).1; p.Some? ==> Spared(c, t, banks, q, p.value, q.refreshRank)
  {
    hide RefreshWork, ScanQueues, ScanBanks, QueuesOK, AgeWindow, NextRankAndBank, Finish, Bare, KeepsBack;
    var q0 := AgeWindows(q);
    AgedWindowsAreSafe(c, t + 1, banks, q);
    RefreshWorkSpares(c, t, banks, q0);
    RefreshWorkSendsRefresh(c, t, banks, q0);
    ScanQueuesSpares(c, t, banks, q0);
    ScanQueuesSendsNoRefresh(c, t, banks, q0);
    ScanBanksSendsNoRefresh(c, t, banks, q0);
  }

  lemma OpenBankGoesOn(c: Config, t: int, banks: BankTable, q: QueueState, b: nat)
    requires QueuesOK(c, t + 1, banks, q) && q.refreshWaiting && b < c.NumBanks()
    requires KeepsBack(c, t, banks, q.refreshRank, b) && banks[q.refreshRank][b].state == RowActive
    ensures var (q', p) := RefreshWork(c, t, banks, q);
      var r, queue := q.refreshRank, q.queues[q.refreshRank][Slot(c, b)];
      && (forall j :: 0 <= j < |queue| && FirstToOpenRow(queue, j, b, banks[r][b]) ==>
            if queue[j].kind != ACTIVATE then ColumnLeaves(c, t, banks, q, q', p, r, b, j)
            else RowCloses(c, t, banks, q, q', p, r, b))
      && ((forall j :: 0 <= j < |queue| ==> !(queue[j].bank == b && queue[j].row == banks[r][b].openRow)) ==>
            RowCloses(c, t, banks, q, q', p, r, b))
  {
    var r := q.refreshRank;
    var row := banks[r];
    assert RankOK(c, t + 1, r, row, q.rowAccessCounters[r], q.queues[r]);
    var queue := q.queues[r][Slot(c, b)];
    assert Static(c, r, Slot(c, b), queue);
    assert FirstBusy(t, row) == b;
    var k := FirstTo(queue, b, row[b].openRow);
    forall j | 0 <= j < |queue| && FirstToOpenRow(queue, j, b, row[b]) ensures j == k {
      assert GoesTo(queue[j], b, row[b].openRow);
    }
    if k < |queue| {
      assert Entry(c, r, Slot(c, b), queue[k]);
    }
  }

  // The first bank that keeps a refresh back has an open row: the first packet to that row
  // decides. A column access leaves as soon as the bank allows it; if there is none, or
  // an activate comes first, the row is closed as soon as the bank allows it (in open page;
  // with auto-precharge it closes by itself).
  lemma OpenBankIsServed(c: Config, t: int, banks: BankTable, q: QueueState, b: nat)
    requires c.Valid() && QueuesOK(c, t + 1, banks, q) && q.refreshWaiting && b < c.NumBanks()
    requires KeepsBack(c, t, banks, q.refreshRank, b) && banks[q.refreshRank][b].state == RowActive
    ensures var (q', p) := PopSpec(c, t, banks, q);
      var r, queue := q.refreshRank, q.queues[q.refreshRank][Slot(c, b)];
      && (forall j :: 0 <= j < |queue| && FirstToOpenRow(queue, j, b, banks[r][b]) ==>
            if queue[j].kind != ACTIVATE then ColumnLeaves(c, t, banks, q, q', p, r, b, j)
            else RowCloses(c, t, banks, q, q', p, r, b))
      && ((forall j :: 0 <= j < |queue| ==> !(queue[j].bank == b && queue[j].row == banks[r][b].openRow)) ==>
            RowCloses(c, t, banks, q, q', p, r, b))
  {
    hide RefreshWork, QueuesOK, ScanQueues, ScanBanks, AgeWindow, NextRankAndBank, FirstToOpenRow, ColumnDue, KeepsBack, Put;
    AgedWindowsAreSafe(c, t + 1, banks, q);
    OpenBankGoesOn(c, t, banks, AgeWindows(q), b);
  }
}
