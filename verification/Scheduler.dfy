// The command queues of one channel and the scheduler that picks, once per cycle,
// the next command for the command bus.
module Scheduler {
  import opened Wrappers
  import opened SystemConfiguration
  import opened BankState
  import opened Search
  import opened Sequences

  type BankTable = seq<seq<Bank>>

  // A scheduling position.
  datatype Cursor = Cursor(rank: nat, bank: nat)

  datatype QueueState = QueueState(
    queues: seq<seq<seq<BusPacket>>>,
    next: Cursor,
    nextPRE: Cursor,
    refreshRank: nat,
    refreshWaiting: bool,
    tFAWCountdown: seq<seq<nat>>,
    rowAccessCounters: seq<seq<nat>>,
    sendAct: bool)

  predicate TableShape(c: Config, banks: BankTable) {
    && |banks| == c.NumRanks()
    && forall r :: 0 <= r < |banks| ==> |banks[r]| == c.NumBanks()
  }

  predicate InGrid(c: Config, cur: Cursor) {
    cur.rank < c.NumRanks() && cur.bank < c.NumBanks()
  }

  // Queues a rank needs: one, or one per bank.
  function NumSlots(c: Config): nat {
    if c.queuing == PerRank then 1 else c.NumBanks()
  }

  function Slot(c: Config, bank: nat): nat {
    if c.queuing == PerRank then 0 else bank
  }

  predicate Shape(c: Config, q: QueueState) {
    && |q.queues| == c.NumRanks()
    && (forall r :: 0 <= r < |q.queues| ==> |q.queues[r]| >= NumSlots(c))
    && InGrid(c, q.next) && InGrid(c, q.nextPRE)
    && (q.refreshWaiting ==> q.refreshRank < c.NumRanks())
    && |q.tFAWCountdown| == c.NumRanks()
    && TableOf(c, q.rowAccessCounters)
  }

  predicate TableOf(c: Config, counters: seq<seq<nat>>) {
    && |counters| == c.NumRanks()
    && forall r :: 0 <= r < |counters| ==> |counters[r]| == c.NumBanks()
  }

  function QueueAt(c: Config, q: QueueState, cur: Cursor): seq<BusPacket>
    requires Shape(c, q) && InGrid(c, cur)
  {
    q.queues[cur.rank][Slot(c, cur.bank)]
  }

  // ---- Issue rules ----

  predicate Issuable(c: Config, t: int, banks: BankTable, q: QueueState, p: BusPacket)
    requires TableShape(c, banks) && Shape(c, q)
  {
    p.rank < c.NumRanks() && p.bank < c.NumBanks() &&
    var m := banks[p.rank][p.bank];
    match p.kind
    case ACTIVATE =>
      (m.state == Idle || m.state == Refreshing) && t >= m.nextActivate && |q.tFAWCountdown[p.rank]| < 4
    case WRITE | WRITE_P =>
      m.state == RowActive && t >= m.nextWrite && p.row == m.openRow
      && q.rowAccessCounters[p.rank][p.bank] < c.totalRowAccesses
    case READ | READ_P =>
      m.state == RowActive && t >= m.nextRead && p.row == m.openRow
      && q.rowAccessCounters[p.rank][p.bank] < c.totalRowAccesses
    case PRECHARGE => m.state == RowActive && t >= m.nextPrecharge
    case REFRESH => false
    case DATA => false
  }

  // Packet i may leave its queue in a normal scan.
  predicate Eligible(c: Config, t: int, banks: BankTable, q: QueueState, queue: seq<BusPacket>, i: nat)
    requires TableShape(c, banks) && Shape(c, q)
  {
    && i < |queue|
    && Issuable(c, t, banks, q, queue[i])
    && match (c.policy, c.queuing)
       case (ClosePage, PerRank) =>
         !(i > 0 && queue[i - 1].kind == ACTIVATE && queue[i - 1].address == queue[i].address)
       case (ClosePage, PerRankPerBank) => i == 0
       case (OpenPage, _) => !EarlierColumn(queue, i)
  }

  // A column access before packet i goes to the same row of the same bank.
  predicate EarlierColumn(queue: seq<BusPacket>, i: nat)
    requires i < |queue|
  {
    exists j :: 0 <= j < i && queue[j].kind != ACTIVATE && queue[j].bank == queue[i].bank
                && queue[j].row == queue[i].row
  }

  function FirstEligible(c: Config, t: int, banks: BankTable, q: QueueState, queue: seq<BusPacket>): (k: nat)
    requires TableShape(c, banks) && Shape(c, q)
    ensures k <= |queue| && (k < |queue| ==> Eligible(c, t, banks, q, queue, k))
    ensures forall i :: 0 <= i < k ==> !Eligible(c, t, banks, q, queue, i)
  {
    var hit := (i: nat) => TableShape(c, banks) && Shape(c, q) && Eligible(c, t, banks, q, queue, i);
    var k := First(hit, 0, |queue|);
    assert forall i :: 0 <= i < k ==> !Eligible(c, t, banks, q, queue, i) by {
      forall i | 0 <= i < k ensures !Eligible(c, t, banks, q, queue, i) { assert !hit(i); }
    }
    k
  }

  // Some packet of the queue at cur may leave it now.
  predicate Ready(c: Config, t: int, banks: BankTable, q: QueueState, cur: Cursor)
    requires TableShape(c, banks) && Shape(c, q) && InGrid(c, cur)
  {
    && !(cur.rank == q.refreshRank && q.refreshWaiting)
    && FirstEligible(c, t, banks, q, QueueAt(c, q, cur)) < |QueueAt(c, q, cur)|
  }

  // The open row of the bank at cur may be closed now.
  predicate Closable(c: Config, t: int, banks: BankTable, q: QueueState, cur: Cursor)
    requires TableShape(c, banks) && Shape(c, q) && InGrid(c, cur)
  {
    var m := banks[cur.rank][cur.bank];
    && m.state == RowActive
    && (!Wanted(QueueAt(c, q, cur), cur.bank, m.openRow)
        || q.rowAccessCounters[cur.rank][cur.bank] == c.totalRowAccesses)
    && t >= m.nextPrecharge
  }

  predicate Wanted(queue: seq<BusPacket>, bank: nat, row: nat) {
    exists i :: 0 <= i < |queue| && queue[i].bank == bank && queue[i].row == row
  }

  // ---- Round robin ----

  function NextRankAndBank(c: Config, cur: Cursor): (n: Cursor)
    requires InGrid(c, cur)
    ensures InGrid(c, n)
  {
    match c.scheduling
    case RankThenBankRoundRobin =>
      if cur.rank + 1 < c.NumRanks() then Cursor(cur.rank + 1, cur.bank)
      else Cursor(0, if cur.bank + 1 == c.NumBanks() then 0 else cur.bank + 1)
    case BankThenRankRoundRobin =>
      if cur.bank + 1 < c.NumBanks() then Cursor(cur.rank, cur.bank + 1)
      else Cursor(if cur.rank + 1 == c.NumRanks() then 0 else cur.rank + 1, 0)
  }

  // The next queue to scan: the next rank, or the next bank's queue.
  function NextQueue(c: Config, cur: Cursor): (n: Cursor)
    requires InGrid(c, cur)
    ensures InGrid(c, n)
  {
    if c.queuing == PerRank then Cursor((cur.rank + 1) % c.NumRanks(), cur.bank)
    else NextRankAndBank(c, cur)
  }

  function Grid(c: Config): nat {
    c.NumRanks() * c.NumBanks()
  }

  function Lap(c: Config): nat {
    if c.queuing == PerRank then c.NumRanks() else Grid(c)
  }

  function AdvanceQueue(c: Config, cur: Cursor, k: nat): (n: Cursor)
    requires InGrid(c, cur)
    ensures InGrid(c, n)
  {
    if k == 0 then cur else NextQueue(c, AdvanceQueue(c, cur, k - 1))
  }

  function AdvanceBank(c: Config, cur: Cursor, k: nat): (n: Cursor)
    requires InGrid(c, cur)
    ensures InGrid(c, n)
  {
    if k == 0 then cur else NextRankAndBank(c, AdvanceBank(c, cur, k - 1))
  }

  // Distance from the cursor, in scan steps, of the first queue with something to send.
  function FirstReady(c: Config, t: int, banks: BankTable, q: QueueState): (n: nat)
    requires TableShape(c, banks) && Shape(c, q)
    ensures n <= Lap(c) && (n < Lap(c) ==> Ready(c, t, banks, q, AdvanceQueue(c, q.next, n)))
    ensures forall k :: 0 <= k < n ==> !Ready(c, t, banks, q, AdvanceQueue(c, q.next, k))
  {
    var hit := (k: nat) => TableShape(c, banks) && Shape(c, q) && Ready(c, t, banks, q, AdvanceQueue(c, q.next, k));
    var n := First(hit, 0, Lap(c));
    assert forall k :: 0 <= k < n ==> !Ready(c, t, banks, q, AdvanceQueue(c, q.next, k)) by {
      forall k | 0 <= k < n ensures !Ready(c, t, banks, q, AdvanceQueue(c, q.next, k)) { assert !hit(k); }
    }
    n
  }

  function FirstClosable(c: Config, t: int, banks: BankTable, q: QueueState): (n: nat)
    requires TableShape(c, banks) && Shape(c, q)
    ensures n <= Grid(c) && (n < Grid(c) ==> Closable(c, t, banks, q, AdvanceBank(c, q.nextPRE, n)))
    ensures forall k :: 0 <= k < n ==> !Closable(c, t, banks, q, AdvanceBank(c, q.nextPRE, k))
  {
    var hit := (k: nat) => TableShape(c, banks) && Shape(c, q) && Closable(c, t, banks, q, AdvanceBank(c, q.nextPRE, k));
    var n := First(hit, 0, Grid(c));
    assert forall k :: 0 <= k < n ==> !Closable(c, t, banks, q, AdvanceBank(c, q.nextPRE, k)) by {
      forall k | 0 <= k < n ensures !Closable(c, t, banks, q, AdvanceBank(c, q.nextPRE, k)) { assert !hit(k); }
    }
    n
  }

  // ---- What pop does ----

  function AgeWindow(w: seq<nat>): seq<nat> {
    var d := seq(|w|, i requires 0 <= i < |w| => Dec32(w[i]));
    if |d| > 0 && d[0] == 0 then d[1..] else d
  }

  function AgeWindows(q: QueueState): (r: QueueState)
    ensures |r.tFAWCountdown| == |q.tFAWCountdown|
  {
    q.(tFAWCountdown := seq(|q.tFAWCountdown|,
         i requires 0 <= i < |q.tFAWCountdown| => AgeWindow(q.tFAWCountdown[i])))
  }

  function Put<T>(table: seq<seq<T>>, i: nat, j: nat, v: T): (r: seq<seq<T>>)
    requires i < |table| && j < |table[i]|
    ensures |r| == |table| && forall a :: 0 <= a < |r| ==> |r[a]| == |table[a]|
    ensures forall a, b :: 0 <= a < |r| && 0 <= b < |r[a]| ==> r[a][b] == if a == i && b == j then v else table[a][b]
  {
    table[i := table[i][j := v]]
  }

  // The bank of the refreshing rank that decides: the first open or too recent one.
  function FirstBusy(t: int, row: seq<Bank>): (k: nat)
    ensures k <= |row| && (k < |row| ==> row[k].state == RowActive || row[k].nextActivate > t)
    ensures forall b :: 0 <= b < k ==> row[b].state != RowActive && row[b].nextActivate <= t
  {
    var hit := (b: nat) => b < |row| && (row[b].state == RowActive || row[b].nextActivate > t);
    var k := First(hit, 0, |row|);
    assert forall b :: 0 <= b < k ==> row[b].state != RowActive && row[b].nextActivate <= t by {
      forall b | 0 <= b < k ensures row[b].state != RowActive && row[b].nextActivate <= t { assert !hit(b); }
    }
    k
  }

  predicate GoesTo(p: BusPacket, bank: nat, row: nat) {
    p.row == row && p.bank == bank
  }

  function FirstTo(queue: seq<BusPacket>, bank: nat, row: nat): (k: nat)
    ensures k <= |queue| && (k < |queue| ==> GoesTo(queue[k], bank, row))
    ensures forall j :: 0 <= j < k ==> !GoesTo(queue[j], bank, row)
  {
    var hit := (j: nat) => j < |queue| && GoesTo(queue[j], bank, row);
    var k := First(hit, 0, |queue|);
    assert forall j :: 0 <= j < k ==> !GoesTo(queue[j], bank, row) by {
      forall j | 0 <= j < k ensures !GoesTo(queue[j], bank, row) { assert !hit(j); }
    }
    k
  }

  // Work for the rank that waits for a refresh: the refresh itself, or a command
  // that brings it nearer.
  function RefreshWork(c: Config, t: int, banks: BankTable, q: QueueState): (r: (QueueState, Option<BusPacket>))
    requires TableShape(c, banks) && Shape(c, q)
    ensures Shape(c, r.0) && (r.1.Some? ==> r.1.value.rank < c.NumRanks() && r.1.value.bank < c.NumBanks())
  {
    if !q.refreshWaiting then (q, None)
    else
      var r := q.refreshRank;
      var b := FirstBusy(t, banks[r]);
      if b < c.NumBanks() then
        var m := banks[r][b];
        if m.state != RowActive then (q, None)
        else
          var queue := q.queues[r][Slot(c, b)];
          var j := FirstTo(queue, b, m.openRow);
          if j < |queue| && queue[j].kind != ACTIVATE then
            if Issuable(c, t, banks, q, queue[j]) then
              (q.(queues := Put(q.queues, r, Slot(c, b), Drop(queue, j))), Some(queue[j]))
            else (q, None)
          else if c.policy == OpenPage && t >= m.nextPrecharge then
            (q.(rowAccessCounters := Put(q.rowAccessCounters, r, b, 0)), Some(BusPacket(PRECHARGE, 0, 0, 0, r, b)))
          else (q, None)
      else if banks[r][0].state != PowerDown then
        (q.(refreshRank := NO_RANK, refreshWaiting := false), Some(BusPacket(REFRESH, 0, 0, 0, r, 0)))
      else (q, None)
  }

  // Remove packet i from the queue at cur. In open page an activate just before it
  // is dropped: the row it would open is open already.
  function TakeFrom(c: Config, q: QueueState, cur: Cursor, i: nat): (q': QueueState)
    requires Shape(c, q) && InGrid(c, cur) && i < |QueueAt(c, q, cur)|
    requires QueueAt(c, q, cur)[i].rank < c.NumRanks() && QueueAt(c, q, cur)[i].bank < c.NumBanks()
    ensures Shape(c, q')
  {
    var queue := QueueAt(c, q, cur);
    var p := queue[i];
    if c.policy == OpenPage && i > 0 && queue[i - 1].kind == ACTIVATE then
      q.(next := cur,
         queues := Put(q.queues, cur.rank, Slot(c, cur.bank), queue[..i - 1] + queue[i + 1..]),
         rowAccessCounters := Put(q.rowAccessCounters, p.rank, p.bank, q.rowAccessCounters[p.rank][p.bank] + 1))
    else
      q.(next := cur, queues := Put(q.queues, cur.rank, Slot(c, cur.bank), Drop(queue, i)))
  }

  // The first eligible packet in round-robin order.
  function ScanQueues(c: Config, t: int, banks: BankTable, q: QueueState): (r: (QueueState, Option<BusPacket>))
    requires TableShape(c, banks) && Shape(c, q)
    ensures Shape(c, r.0) && (r.1.Some? ==> r.1.value.rank < c.NumRanks() && r.1.value.bank < c.NumBanks())
  {
    var k := FirstReady(c, t, banks, q);
    var cur := AdvanceQueue(c, q.next, k);
    if k == Lap(c) then (q, None)
    else
      var queue := QueueAt(c, q, cur);
      var i := FirstEligible(c, t, banks, q, queue);
      (TakeFrom(c, q, cur, i), Some(queue[i]))
  }

  // The first bank, in round-robin order, whose row nobody wants any more.
  function ScanBanks(c: Config, t: int, banks: BankTable, q: QueueState): (r: (QueueState, Option<BusPacket>))
    requires TableShape(c, banks) && Shape(c, q)
    ensures Shape(c, r.0) && (r.1.Some? ==> r.1.value.rank < c.NumRanks() && r.1.value.bank < c.NumBanks())
  {
    var k := FirstClosable(c, t, banks, q);
    var cur := AdvanceBank(c, q.nextPRE, k);
    if k == Grid(c) then (q, None)
    else
      (q.(nextPRE := cur, rowAccessCounters := Put(q.rowAccessCounters, cur.rank, cur.bank, 0)),
       Some(BusPacket(PRECHARGE, 0, 0, 0, cur.rank, cur.bank)))
  }

  // Bookkeeping once a packet was found.
  function Finish(c: Config, q: QueueState, p: BusPacket): (r: QueueState)
    requires Shape(c, q) && p.rank < c.NumRanks()
    ensures Shape(c, r)
  {
    var q' := if c.AL > 0 && q.sendAct then q.(sendAct := false)
              else q.(sendAct := true, next := NextRankAndBank(c, q.next));
    if p.kind == ACTIVATE then
      q'.(tFAWCountdown := q'.tFAWCountdown[p.rank := q'.tFAWCountdown[p.rank] + [c.tFAW]])
    else q'
  }

  function Choose(c: Config, t: int, banks: BankTable, q: QueueState): (r: (QueueState, Option<BusPacket>))
    requires TableShape(c, banks) && Shape(c, q)
    ensures Shape(c, r.0) && (r.1.Some? ==> r.1.value.rank < c.NumRanks() && r.1.value.bank < c.NumBanks())
  {
    var (q1, p1) := RefreshWork(c, t, banks, q);
    if p1.Some? then (q1, p1)
    else
      var (q2, p2) := ScanQueues(c, t, banks, q1);
      if p2.Some? || c.policy == ClosePage then (q2, p2)
      else ScanBanks(c, t, banks, q2)
  }

  function PopSpec(c: Config, t: int, banks: BankTable, q: QueueState): (r: (QueueState, Option<BusPacket>))
    requires TableShape(c, banks) && Shape(c, q)
    ensures Shape(c, r.0) && (r.1.Some? ==> r.1.value.rank < c.NumRanks() && r.1.value.bank < c.NumBanks())
  {
    hide Choose, Finish, AgeWindow;
    var (q', p) := Choose(c, t, banks, AgeWindows(q));
    if p.None? then (q', None) else (Finish(c, q', p.value), p)
  }
}
