// Both round-robin orders visit every queue once per lap, so the scheduler never
// leaves a command behind that it could have sent.
module RoundRobin {
  import opened Wrappers
  import opened Bits
  import opened SystemConfiguration
  import opened BankState
  import opened Scheduler
  import opened QueueInvariant
  import opened RefreshPop
  import opened SchedulerSafety

  // Position of a cursor in the configured order.
  function Code(c: Config, cur: Cursor): nat {
    match c.scheduling
    case RankThenBankRoundRobin => cur.bank * c.NumRanks() + cur.rank
    case BankThenRankRoundRobin => cur.rank * c.NumBanks() + cur.bank
  }

  function Wrap(x: nat, n: nat): nat {
    if x >= n then x - n else x
  }

  lemma CodeInRange(c: Config, cur: Cursor)
    requires InGrid(c, cur)
    ensures Code(c, cur) < Grid(c)
  {
    match c.scheduling
    case RankThenBankRoundRobin => DigitBound(cur.rank, c.NumRanks(), cur.bank, c.NumBanks());
    case BankThenRankRoundRobin => DigitBound(cur.bank, c.NumBanks(), cur.rank, c.NumRanks());
  }

  lemma CodeInjective(c: Config, x: Cursor, y: Cursor)
    requires InGrid(c, x) && InGrid(c, y) && Code(c, x) == Code(c, y)
    ensures x == y
  {
    match c.scheduling
    case RankThenBankRoundRobin =>
      DivUnique(Code(c, x), c.NumRanks(), x.bank, x.rank);
      DivUnique(Code(c, y), c.NumRanks(), y.bank, y.rank);
    case BankThenRankRoundRobin =>
      DivUnique(Code(c, x), c.NumBanks(), x.rank, x.bank);
      DivUnique(Code(c, y), c.NumBanks(), y.rank, y.bank);
  }

  lemma CodeOfNext(c: Config, cur: Cursor)
    requires InGrid(c, cur)
    ensures Code(c, NextRankAndBank(c, cur)) == Wrap(Code(c, cur) + 1, Grid(c))
  {
    var next := NextRankAndBank(c, cur);
    CodeInRange(c, cur);
    CodeInRange(c, next);
    match c.scheduling
    case RankThenBankRoundRobin => CarryStep(cur.rank, c.NumRanks(), cur.bank, c.NumBanks());
    case BankThenRankRoundRobin => CarryStep(cur.bank, c.NumBanks(), cur.rank, c.NumRanks());
  }

  // Counting up a two-digit number with digit bases p and q.
  lemma CarryStep(d: nat, p: nat, y: nat, q: nat)
    requires d < p && y < q
    ensures d + 1 == p ==> (y + 1) * p == y * p + d + 1
    ensures d + 1 == p && y + 1 == q ==> y * p + d + 1 == p * q
    ensures 0 * p == 0
  {
    assert (y + 1) * p == y * p + p;
    assert y + 1 == q ==> (y + 1) * p == p * q;
  }

  lemma {:induction false} CodeAfter(c: Config, cur: Cursor, k: nat)
    requires InGrid(c, cur) && k <= Grid(c)
    ensures Code(c, AdvanceBank(c, cur, k)) == Wrap(Code(c, cur) + k, Grid(c))
  {
    CodeInRange(c, cur);
    if k > 0 {
      CodeAfter(c, cur, k - 1);
      CodeInRange(c, AdvanceBank(c, cur, k - 1));
      CodeOfNext(c, AdvanceBank(c, cur, k - 1));
    }
  }

  // A lap over the banks returns to its start, and not before.
  lemma BankLap(c: Config, cur: Cursor, k: nat)
    requires InGrid(c, cur) && 0 < k <= Grid(c)
    ensures AdvanceBank(c, cur, k) == cur <==> k == Grid(c)
  {
    CodeInRange(c, cur);
    CodeAfter(c, cur, k);
    if k == Grid(c) {
      CodeInjective(c, AdvanceBank(c, cur, k), cur);
    }
  }

  // A lap over the banks visits every one of them.
  lemma BankVisited(c: Config, cur: Cursor, target: Cursor) returns (k: nat)
    requires InGrid(c, cur) && InGrid(c, target)
    ensures k < Grid(c) && AdvanceBank(c, cur, k) == target
  {
    var x, y, n := Code(c, cur), Code(c, target), Grid(c);
    CodeInRange(c, cur);
    CodeInRange(c, target);
    k := if y >= x then y - x else n - x + y;
    CodeAfter(c, cur, k);
    CodeInjective(c, AdvanceBank(c, cur, k), target);
  }

  // Whose turn it is. Rank then bank: every step goes to the next rank, and the bank moves
  // on by one when the ranks start over; bank then rank: the other way round.
  lemma {:induction false} TurnAfterSteps(c: Config, cur: Cursor, k: nat)
    requires InGrid(c, cur) && k <= if c.scheduling == RankThenBankRoundRobin then c.NumRanks() else c.NumBanks()
    ensures AdvanceBank(c, cur, k) ==
      match c.scheduling
      case RankThenBankRoundRobin =>
        Cursor(Wrap(cur.rank + k, c.NumRanks()),
               if cur.rank + k < c.NumRanks() then cur.bank else Wrap(cur.bank + 1, c.NumBanks()))
      case BankThenRankRoundRobin =>
        Cursor(if cur.bank + k < c.NumBanks() then cur.rank else Wrap(cur.rank + 1, c.NumRanks()),
               Wrap(cur.bank + k, c.NumBanks()))
  {
    if k > 0 {
      TurnAfterSteps(c, cur, k - 1);
    }
  }

  lemma {:induction false} RankAfterSteps(c: Config, cur: Cursor, k: nat)
    requires c.queuing == PerRank && InGrid(c, cur) && k <= c.NumRanks()
    ensures AdvanceQueue(c, cur, k) == Cursor(Wrap(cur.rank + k, c.NumRanks()), cur.bank)
  {
    if k > 0 {
      RankAfterSteps(c, cur, k - 1);
      var r := Wrap(cur.rank + (k - 1), c.NumRanks());
      assert (r + 1) % c.NumRanks() == Wrap(r + 1, c.NumRanks()) by {
        if r + 1 == c.NumRanks() {
          DivUnique(r + 1, c.NumRanks(), 1, 0);
        } else {
          DivUnique(r + 1, c.NumRanks(), 0, r + 1);
        }
      }
    }
  }

  lemma {:induction false} PerBankSteps(c: Config, cur: Cursor, k: nat)
    requires c.queuing == PerRankPerBank && InGrid(c, cur)
    ensures AdvanceQueue(c, cur, k) == AdvanceBank(c, cur, k)
  {
    if k > 0 {
      PerBankSteps(c, cur, k - 1);
    }
  }

  // A lap over the queues returns to its start, and not before.
  lemma QueueLap(c: Config, cur: Cursor, k: nat)
    requires InGrid(c, cur) && 0 < k <= Lap(c)
    ensures AdvanceQueue(c, cur, k) == cur <==> k == Lap(c)
  {
    if c.queuing == PerRank {
      RankAfterSteps(c, cur, k);
    } else {
      PerBankSteps(c, cur, k);
      BankLap(c, cur, k);
    }
  }

  // A lap over the queues visits every queue.
  lemma QueueVisited(c: Config, cur: Cursor, target: Cursor) returns (k: nat)
    requires InGrid(c, cur) && InGrid(c, target)
    ensures k < Lap(c)
    ensures var at := AdvanceQueue(c, cur, k); at.rank == target.rank && Slot(c, at.bank) == Slot(c, target.bank)
  {
    if c.queuing == PerRank {
      k := if target.rank >= cur.rank then target.rank - cur.rank else c.NumRanks() - cur.rank + target.rank;
      RankAfterSteps(c, cur, k);
    } else {
      k := BankVisited(c, cur, target);
      PerBankSteps(c, cur, k);
    }
  }

  // ---- Work conservation ----

  // When the scan of the queues finds nothing, no queue of a rank that is not held
  // back for a refresh has an eligible packet anywhere.
  lemma NothingReady(c: Config, t: int, banks: BankTable, q: QueueState, cur: Cursor, i: nat)
    requires TableShape(c, banks) && Shape(c, q) && InGrid(c, cur)
    requires ScanQueues(c, t, banks, q).1.None?
    requires !(cur.rank == q.refreshRank && q.refreshWaiting)
    ensures !Eligible(c, t, banks, q, QueueAt(c, q, cur), i)
  {
    hide TakeFrom, Eligible;
    var k := QueueVisited(c, q.next, cur);
    var at := AdvanceQueue(c, q.next, k);
    assert FirstReady(c, t, banks, q) == Lap(c);
    assert !Ready(c, t, banks, q, at) && QueueAt(c, q, at) == QueueAt(c, q, cur);
    if i >= |QueueAt(c, q, cur)| {
      BeyondQueue(c, t, banks, q, QueueAt(c, q, cur), i);
    }
  }

  lemma BeyondQueue(c: Config, t: int, banks: BankTable, q: QueueState, queue: seq<BusPacket>, i: nat)
    requires TableShape(c, banks) && Shape(c, q) && i >= |queue|
    ensures !Eligible(c, t, banks, q, queue, i)
  {
  }

  // The bank of the packet would let it go in cycle t.
  predicate BankAllows(c: Config, t: int, banks: BankTable, q: QueueState, p: BusPacket)
    requires TableShape(c, banks) && Shape(c, q)
  {
    && p.rank < c.NumRanks() && p.bank < c.NumBanks()
    && var m := banks[p.rank][p.bank];
       if p.kind == ACTIVATE then
         (m.state == Idle || m.state == Refreshing) && m.nextActivate <= t && |q.tFAWCountdown[p.rank]| < 4
       else
         && p.IsColumn() && m.state == RowActive && m.openRow == p.row
         && q.rowAccessCounters[p.rank][p.bank] < c.totalRowAccesses
         && (if p.IsRead() then m.nextRead else m.nextWrite) <= t
  }

  // Packet i has to let packets before it go first: in close page its own activate, or
  // whatever is before it in a queue of its bank alone; in open page a column access to
  // its row.
  predicate GivesWay(c: Config, queue: seq<BusPacket>, i: nat)
    requires i < |queue|
  {
    if c.policy == OpenPage then
      exists j :: 0 <= j < i && queue[j].kind != ACTIVATE && queue[j].bank == queue[i].bank && queue[j].row == queue[i].row
    else if c.queuing == PerRankPerBank then i > 0
    else i > 0 && queue[i - 1].kind == ACTIVATE && queue[i - 1].address == queue[i].address
  }

  predicate CouldGo(c: Config, t: int, banks: BankTable, q: QueueState, queue: seq<BusPacket>, i: nat)
    requires TableShape(c, banks) && Shape(c, q)
  {
    i < |queue| && BankAllows(c, t, banks, q, queue[i]) && !GivesWay(c, queue, i)
  }

  // The open row of a bank could be closed: nobody in its queue wants it, or it has had
  // its share of accesses.
  predicate CouldClose(c: Config, t: int, banks: BankTable, q: QueueState, cur: Cursor)
    requires TableShape(c, banks) && Shape(c, q) && InGrid(c, cur)
  {
    var m, queue := banks[cur.rank][cur.bank], QueueAt(c, q, cur);
    && m.state == RowActive && m.nextPrecharge <= t
    && ((forall i :: 0 <= i < |queue| ==> !(queue[i].bank == cur.bank && queue[i].row == m.openRow))
        || q.rowAccessCounters[cur.rank][cur.bank] == c.totalRowAccesses)
  }

  lemma EligibleCouldGo(c: Config, t: int, banks: BankTable, q: QueueState, queue: seq<BusPacket>, i: nat)
    requires TableShape(c, banks) && Shape(c, q)
    ensures CouldGo(c, t, banks, q, queue, i) ==> Eligible(c, t, banks, q, queue, i)
    ensures Eligible(c, t, banks, q, queue, i) && queue[i].kind != PRECHARGE ==> CouldGo(c, t, banks, q, queue, i)
  {
  }

  lemma ClosableCouldClose(c: Config, t: int, banks: BankTable, q: QueueState, cur: Cursor)
    requires TableShape(c, banks) && Shape(c, q) && InGrid(c, cur)
    ensures CouldClose(c, t, banks, q, cur) == Closable(c, t, banks, q, cur)
  {
  }

  // Pop returns nothing only if nothing could be sent: no refresh is due, no packet of a
  // queue that is not held back for a refresh could go and, in open page, no row could be
  // closed.
  lemma PopIsWorkConserving(c: Config, t: int, banks: BankTable, q: QueueState, cur: Cursor, i: nat)
    requires TableShape(c, banks) && Shape(c, q) && InGrid(c, cur)
    requires PopSpec(c, t, banks, q).1.None?
    ensures var q0 := AgeWindows(q);
      && !RefreshIsDue(c, t, banks, q)
      && (!(cur.rank == q.refreshRank && q.refreshWaiting) ==> !CouldGo(c, t, banks, q0, QueueAt(c, q0, cur), i))
      && (c.policy == OpenPage ==> !CouldClose(c, t, banks, q0, cur))
  {
    hide ScanQueues, Eligible, Closable, CouldGo, CouldClose, RefreshIsDue;
    var q0 := AgeWindows(q);
    RefreshIsSentExactlyWhen(c, t, banks, q);
    QuietRefreshWork(c, t, banks, q0);
    hide RefreshWork;
    EligibleCouldGo(c, t, banks, q0, QueueAt(c, q0, cur), i);
    ClosableCouldClose(c, t, banks, q0, cur);
    if !(cur.rank == q.refreshRank && q.refreshWaiting) {
      NothingReady(c, t, banks, q0, cur, i);
    }
    if c.policy == OpenPage {
      var k := BankVisited(c, q.nextPRE, cur);
      QuietScan(c, t, banks, q0);
      assert ScanBanks(c, t, banks, q0).1.None?;
      assert FirstClosable(c, t, banks, q0) == Grid(c);
    }
  }

  lemma RefreshWorkStays(c: Config, t: int, banks: BankTable, q: QueueState)
    requires QueuesOK(c, t + 1, banks, q)
    ensures var p := RefreshWork(c, t, banks, q).1; p.Some? ==> q.refreshWaiting && p.value.rank == q.refreshRank
  {
    if q.refreshWaiting {
      var r := q.refreshRank;
      var b := FirstBusy(t, banks[r]);
      if b < c.NumBanks() {
        var queue := q.queues[r][Slot(c, b)];
        var j := FirstTo(queue, b, banks[r][b].openRow);
        assert RankOK(c, t + 1, r, banks[r], q.rowAccessCounters[r], q.queues[r]);
        assert Static(c, r, Slot(c, b), queue);
        assert j < |queue| ==> Entry(c, r, Slot(c, b), queue[j]);
      }
    }
  }

  // None of the first k queues in turn could send anything, but for those held back for a
  // refresh.
  ghost predicate NoneBefore(c: Config, t: int, banks: BankTable, q: QueueState, k: nat)
    requires TableShape(c, banks) && Shape(c, q)
  {
    forall l, j: nat :: 0 <= l < k ==>
      var cur := AdvanceQueue(c, q.next, l);
      !(cur.rank == q.refreshRank && q.refreshWaiting) ==> !CouldGo(c, t, banks, q, QueueAt(c, q, cur), j)
  }

  lemma ScanIsInTurn(c: Config, t: int, banks: BankTable, q: QueueState) returns (k: nat, i: nat)
    requires QueuesOK(c, t + 1, banks, q) && ScanQueues(c, t, banks, q).1.Some?
    ensures k < Lap(c)
    ensures var queue := QueueAt(c, q, AdvanceQueue(c, q.next, k));
      && CouldGo(c, t, banks, q, queue, i) && ScanQueues(c, t, banks, q).1 == Some(queue[i])
      && forall j :: 0 <= j < i ==> !CouldGo(c, t, banks, q, queue, j)
    ensures NoneBefore(c, t, banks, q, k)
    ensures ScanQueues(c, t, banks, q).0.next == AdvanceQueue(c, q.next, k) && ScanQueues(c, t, banks, q).0.sendAct == q.sendAct
  {
    k := FirstReady(c, t, banks, q);
    var cur := AdvanceQueue(c, q.next, k);
    var queue := QueueAt(c, q, cur);
    i := FirstEligible(c, t, banks, q, queue);
    QueuedKind(c, t, banks, q, cur, i);
    hide Eligible, CouldGo, QueuesOK, AdvanceQueue, Put;
    EligibleCouldGo(c, t, banks, q, queue, i);
    forall j | 0 <= j < i ensures !CouldGo(c, t, banks, q, queue, j) {
      EligibleCouldGo(c, t, banks, q, queue, j);
    }
    forall l, j: nat | 0 <= l < k
      ensures var at := AdvanceQueue(c, q.next, l);
        !(at.rank == q.refreshRank && q.refreshWaiting) ==> !CouldGo(c, t, banks, q, QueueAt(c, q, at), j)
    {
      var at := AdvanceQueue(c, q.next, l);
      assert !Ready(c, t, banks, q, at);
      EligibleCouldGo(c, t, banks, q, QueueAt(c, q, at), j);
      if j >= |QueueAt(c, q, at)| {
        BeyondQueue(c, t, banks, q, QueueAt(c, q, at), j);
      }
    }
  }

  lemma QueuedKind(c: Config, t: int, banks: BankTable, q: QueueState, cur: Cursor, i: nat)
    requires QueuesOK(c, t + 1, banks, q) && InGrid(c, cur) && i < |QueueAt(c, q, cur)|
    ensures QueueAt(c, q, cur)[i].kind != PRECHARGE
  {
    assert RankOK(c, t + 1, cur.rank, banks[cur.rank], q.rowAccessCounters[cur.rank], q.queues[cur.rank]);
    assert Entry(c, cur.rank, Slot(c, cur.bank), QueueAt(c, q, cur)[i]);
  }

  // A command from the queues to a rank that waits for no refresh comes from the first queue
  // in turn that could send anything, and is the first in it that could go. Then it is the
  // next queue's turn; with posted column accesses, after every other command.
  lemma FirstInTurnGoes(c: Config, t: int, banks: BankTable, q: QueueState) returns (k: nat, i: nat)
    requires c.Valid() && QueuesOK(c, t + 1, banks, q)
    requires var p := PopSpec(c, t, banks, q).1;
      p.Some? && (p.value.kind == ACTIVATE || p.value.IsColumn()) && !(q.refreshWaiting && p.value.rank == q.refreshRank)
    ensures k < Lap(c)
    ensures var q0, queue := AgeWindows(q), QueueAt(c, AgeWindows(q), AdvanceQueue(c, q.next, k));
      && CouldGo(c, t, banks, q0, queue, i) && PopSpec(c, t, banks, q).1 == Some(queue[i])
      && forall j :: 0 <= j < i ==> !CouldGo(c, t, banks, q0, queue, j)
    ensures NoneBefore(c, t, banks, AgeWindows(q), k)
    ensures var q', cur, posted := PopSpec(c, t, banks, q).0, AdvanceQueue(c, q.next, k), c.AL > 0 && q.sendAct;
      q'.next == (if posted then cur else NextRankAndBank(c, cur)) && q'.sendAct == !posted
  {
    hide RefreshWork, ScanQueues, ScanBanks, QueuesOK, AgeWindow, NextRankAndBank, CouldGo, NoneBefore, AdvanceQueue;
    var q0 := AgeWindows(q);
    AgedWindowsAreSafe(c, t + 1, banks, q);
    RefreshWorkStays(c, t, banks, q0);
    RefreshWorkSendsRefresh(c, t, banks, q0);
    ScanBanksSendsNoRefresh(c, t, banks, ScanQueues(c, t, banks, q0).0);
    k, i := ScanIsInTurn(c, t, banks, q0);
  }

  lemma QuietRefreshWork(c: Config, t: int, banks: BankTable, q: QueueState)
    requires TableShape(c, banks) && Shape(c, q) && RefreshWork(c, t, banks, q).1.None?
    ensures RefreshWork(c, t, banks, q).0 == q
  {
    hide Issuable;
  }

  lemma QuietScan(c: Config, t: int, banks: BankTable, q: QueueState)
    requires TableShape(c, banks) && Shape(c, q) && ScanQueues(c, t, banks, q).1.None?
    ensures ScanQueues(c, t, banks, q).0 == q
  {
    hide TakeFrom;
  }

  // In per-bank closed-page queues nothing is lost by looking at the front only: when
  // the front cannot go, neither can any activate nor any bare column access behind it.
  lemma FrontIsEnough(c: Config, t: int, banks: BankTable, q: QueueState, r: nat, s: nat, i: nat)
    requires c.queuing == PerRankPerBank && c.policy == ClosePage
    requires QueuesOK(c, t + 1, banks, q) && r < c.NumRanks() && s < |q.queues[r]| && i < |q.queues[r][s]|
    requires !Issuable(c, t, banks, q, q.queues[r][s][0])
    requires q.queues[r][s][i].kind == ACTIVATE || Bare(q.queues[r][s], i)
    ensures !Issuable(c, t, banks, q, q.queues[r][s][i])
  {
    var queue := q.queues[r][s];
    assert RankOK(c, t + 1, r, banks[r], q.rowAccessCounters[r], q.queues[r]);
    assert Static(c, r, s, queue) && BareReady(banks[r], q.rowAccessCounters[r], queue);
    assert Entry(c, r, s, queue[0]) && Entry(c, r, s, queue[i]);
    if queue[i].kind != ACTIVATE {
      assert FirstOfBank(queue, i);
    } else if queue[0].kind != ACTIVATE {
      assert Bare(queue, 0);
      assert Held(banks[r][s], q.rowAccessCounters[r][s], queue[0].row);
    }
  }
}
