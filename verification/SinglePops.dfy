// What the scheduler sends while no refresh waits and at most one queue has something to
// send.
module SinglePops {
  import opened Wrappers
  import opened SystemConfiguration
  import opened BankState
  import opened Scheduler
  import opened RoundRobin
  import opened Sequences

  predicate SameQueue(c: Config, a: Cursor, b: Cursor) {
    a.rank == b.rank && Slot(c, a.bank) == Slot(c, b.bank)
  }

  // Nothing in the queue at cur may leave it.
  ghost predicate Blocked(c: Config, t: int, banks: BankTable, q: QueueState, cur: Cursor)
    requires TableShape(c, banks) && Shape(c, q) && InGrid(c, cur)
  {
    forall i: nat :: !Eligible(c, t, banks, q, QueueAt(c, q, cur), i)
  }

  ghost predicate OthersBlocked(c: Config, t: int, banks: BankTable, q: QueueState, cur: Cursor)
    requires TableShape(c, banks) && Shape(c, q)
  {
    forall other :: InGrid(c, other) && !SameQueue(c, other, cur) ==> Blocked(c, t, banks, q, other)
  }

  ghost predicate AllBlocked(c: Config, t: int, banks: BankTable, q: QueueState)
    requires TableShape(c, banks) && Shape(c, q)
  {
    forall cur :: InGrid(c, cur) ==> Blocked(c, t, banks, q, cur)
  }

  lemma FrontIsFirst(c: Config, t: int, banks: BankTable, q: QueueState, queue: seq<BusPacket>)
    requires TableShape(c, banks) && Shape(c, q) && |queue| > 0 && Issuable(c, t, banks, q, queue[0])
    ensures Eligible(c, t, banks, q, queue, 0) && FirstEligible(c, t, banks, q, queue) == 0
  {
    hide Issuable;
    assert Eligible(c, t, banks, q, queue, 0);
  }

  // The scan takes the front of the one queue that is not blocked.
  lemma ScanTakesFront(c: Config, t: int, banks: BankTable, q: QueueState, cur: Cursor)
    requires TableShape(c, banks) && Shape(c, q) && InGrid(c, cur) && !q.refreshWaiting
    requires |QueueAt(c, q, cur)| > 0 && Issuable(c, t, banks, q, QueueAt(c, q, cur)[0])
    requires OthersBlocked(c, t, banks, q, cur)
    ensures var queue := QueueAt(c, q, cur);
      var (q', p) := ScanQueues(c, t, banks, q);
      && p == Some(queue[0])
      && q' == q.(next := q'.next, queues := Put(q.queues, cur.rank, Slot(c, cur.bank), queue[1..]))
  {
    var queue := QueueAt(c, q, cur);
    FrontIsFirst(c, t, banks, q, queue);
    hide Eligible, Issuable, FirstReady, FirstEligible, AdvanceQueue, Put;
    if ScanQueues(c, t, banks, q).1.None? {
      NothingReady(c, t, banks, q, cur, 0);
    }
    var k := FirstReady(c, t, banks, q);
    var at := AdvanceQueue(c, q.next, k);
    assert Ready(c, t, banks, q, at);
    var blocked := Blocked(c, t, banks, q, at);
    assert SameQueue(c, at, cur);
    assert QueueAt(c, q, at) == queue;
    assert Drop(queue, 0) == queue[1..];
  }

  lemma SendsFront(c: Config, t: int, banks: BankTable, q: QueueState, cur: Cursor)
    requires TableShape(c, banks) && Shape(c, q) && InGrid(c, cur) && !q.refreshWaiting
    requires |QueueAt(c, q, cur)| > 0 && Issuable(c, t, banks, AgeWindows(q), QueueAt(c, q, cur)[0])
    requires OthersBlocked(c, t, banks, AgeWindows(q), cur)
    ensures var queue, q0 := QueueAt(c, q, cur), AgeWindows(q);
      var (q', p) := PopSpec(c, t, banks, q);
      && p == Some(queue[0])
      && q'.queues == Put(q.queues, cur.rank, Slot(c, cur.bank), queue[1..])
      && q'.rowAccessCounters == q.rowAccessCounters && !q'.refreshWaiting
      && q'.tFAWCountdown == if queue[0].kind != ACTIVATE then q0.tFAWCountdown
           else q0.tFAWCountdown[queue[0].rank := q0.tFAWCountdown[queue[0].rank] + [c.tFAW]]
  {
    var q0 := AgeWindows(q);
    hide Eligible, Issuable, ScanQueues, ScanBanks, Put, NextRankAndBank, AgeWindow;
    ScanTakesFront(c, t, banks, q0, cur);
    assert Choose(c, t, banks, q0) == ScanQueues(c, t, banks, q0);
  }

  lemma NoneReady(c: Config, t: int, banks: BankTable, q: QueueState)
    requires TableShape(c, banks) && Shape(c, q) && AllBlocked(c, t, banks, q)
    ensures FirstReady(c, t, banks, q) == Lap(c)
  {
    hide Eligible, Issuable;
    var at := AdvanceQueue(c, q.next, FirstReady(c, t, banks, q));
    var blocked := Blocked(c, t, banks, q, at);
  }

  // With every queue blocked, only a row that nobody wants may be closed.
  lemma SendsNoQueued(c: Config, t: int, banks: BankTable, q: QueueState)
    requires TableShape(c, banks) && Shape(c, q) && !q.refreshWaiting && AllBlocked(c, t, banks, AgeWindows(q))
    ensures var q0 := AgeWindows(q);
      var (q', p) := PopSpec(c, t, banks, q);
      && q'.queues == q.queues && q'.tFAWCountdown == q0.tFAWCountdown && !q'.refreshWaiting
      && if p.None? then
           && q'.rowAccessCounters == q.rowAccessCounters
           && (c.policy == OpenPage ==> forall cur :: InGrid(c, cur) ==> !Closable(c, t, banks, q0, cur))
         else
           && c.policy == OpenPage && p.value == BusPacket(PRECHARGE, 0, 0, 0, p.value.rank, p.value.bank)
           && InGrid(c, Cursor(p.value.rank, p.value.bank))
           && Closable(c, t, banks, q0, Cursor(p.value.rank, p.value.bank))
           && q'.rowAccessCounters == Put(q.rowAccessCounters, p.value.rank, p.value.bank, 0)
  {
    var q0 := AgeWindows(q);
    hide Eligible, Issuable, Put, NextRankAndBank, AgeWindow, Closable, FirstClosable, FirstReady, AdvanceBank, FirstEligible,
         AdvanceQueue;
    NoneReady(c, t, banks, q0);
    assert ScanQueues(c, t, banks, q0) == (q0, None);
    var n := FirstClosable(c, t, banks, q0);
    if c.policy == OpenPage && n == Grid(c) {
      forall cur | InGrid(c, cur) ensures !Closable(c, t, banks, q0, cur) {
        var i := BankVisited(c, q0.nextPRE, cur);
      }
    }
  }
}
