// The cycles of a channel that serves visits: when each packet may be sent, and what a
// cycle makes of every rank.
module VisitCycles {
  import opened Wrappers
  import opened SystemConfiguration
  import opened BankState
  import opened Scheduler
  import opened QueueInvariant
  import opened Channel
  import opened ControlPath
  import opened SinglePops
  import opened Visits
  import opened Sequences

  function ViewOf(c: Config, x: Control, r: nat): (w: View)
    requires Fits(c, x) && r < c.NumRanks()
    ensures ViewFits(c, w)
  {
    View(x.banks[r], x.powerDown[r], x.queue.queues[r], x.queue.tFAWCountdown[r], x.queue.rowAccessCounters[r])
  }

  // ---- What a pop leaves ----

  // Activation windows and row counters after a pop that sent p.
  ghost predicate PopMild(c: Config, q: QueueState, q': QueueState, p: Option<BusPacket>)
    requires Shape(c, q) && Shape(c, q')
  {
    && (forall r :: 0 <= r < c.NumRanks() ==>
          && |q'.tFAWCountdown[r]| <= |q.tFAWCountdown[r]| + 1
          && (p == None || p.value.kind != ACTIVATE || p.value.rank != r ==> |q'.tFAWCountdown[r]| <= |q.tFAWCountdown[r]|))
    && forall r, b :: 0 <= r < c.NumRanks() && 0 <= b < c.NumBanks() ==>
         q'.rowAccessCounters[r][b] == q.rowAccessCounters[r][b] || q'.rowAccessCounters[r][b] == 0
  }

  lemma WindowsShrink(c: Config, q: QueueState)
    requires Shape(c, q)
    ensures forall r :: 0 <= r < c.NumRanks() ==> |AgeWindows(q).tFAWCountdown[r]| <= |q.tFAWCountdown[r]|
  {
  }

  lemma FrontIsMild(c: Config, t: int, banks: BankTable, q: QueueState, cur: Cursor)
    requires TableShape(c, banks) && Shape(c, q) && InGrid(c, cur) && !q.refreshWaiting
    requires |QueueAt(c, q, cur)| > 0 && Issuable(c, t, banks, AgeWindows(q), QueueAt(c, q, cur)[0])
    requires OthersBlocked(c, t, banks, AgeWindows(q), cur)
    ensures PopMild(c, q, PopSpec(c, t, banks, q).0, PopSpec(c, t, banks, q).1)
  {
    hide ScanQueues, ScanBanks, Finish, FirstTo, FirstBusy, QueueAt, TableOf, TableShape;
    WindowsShrink(c, q);
    SendsFront(c, t, banks, q, cur);
    hide PopSpec, Issuable, OthersBlocked, AgeWindows, Put;
  }

  lemma NoneIsMild(c: Config, t: int, banks: BankTable, q: QueueState)
    requires TableShape(c, banks) && Shape(c, q) && !q.refreshWaiting && AllBlocked(c, t, banks, AgeWindows(q))
    ensures PopMild(c, q, PopSpec(c, t, banks, q).0, PopSpec(c, t, banks, q).1)
  {
    WindowsShrink(c, q);
    SendsNoQueued(c, t, banks, q);
    hide PopSpec, AllBlocked, AgeWindows, Closable;
  }

  // ---- What a cycle makes of a rank ----

  lemma EmptyIsNone(c: Config, q: QueueState, r: nat)
    requires Shape(c, q) && r < c.NumRanks()
    ensures RankQueuesEmpty(c, q, r) <==> NoneQueued(c, q.queues[r])
  {
  }

  lemma RankMoves(c: Config, x: Control, r: nat)
    requires Fits(c, x) && r < c.NumRanks()
    requires var (q, p) := PopSpec(c, x.clock, AgeAll(c, x.banks), x.queue); PopMild(c, x.queue, q, p)
    ensures var (x', p) := Next(c, x);
      Moves(c, x.clock, r, ViewOf(c, x, r), ViewOf(c, x', r), p)
  {
    hide PopSpec, ExpandOne, PowerRow, Age, Issue, AgeAll, IssueAll;
    var aged := AgeAll(c, x.banks);
    var (q, p) := PopSpec(c, x.clock, aged, x.queue);
    var banks := if p.Some? then IssueAll(c, x.clock, p.value, aged) else aged;
    IssuedIs(c, x.clock, r, p, x.banks);
    var (q', trs) := ExpandOne(c, q, x.transactions);
    ExpandLeaves(c, q, x.transactions);
    EmptyIsNone(c, q', r);
  }

  lemma IssuedIs(c: Config, t: int, r: nat, p: Option<BusPacket>, banks: BankTable)
    requires r < |banks|
    ensures var aged := AgeAll(c, banks);
      (if p.Some? then IssueAll(c, t, p.value, aged) else aged)[r] == IssuedRow(c, t, r, p, banks[r])
  {
  }

  lemma ExpandLeaves(c: Config, q: QueueState, trs: seq<Transaction>)
    requires Shape(c, q)
    ensures ExpandOne(c, q, trs).0 == q.(queues := ExpandOne(c, q, trs).0.queues)
  {
    hide FirstWithRoom, Target;
  }

  // ---- What a rank has to send ----

  lemma AgedStill(c: Config, row: seq<Bank>, b: nat)
    requires b < |row| && row[b].countdown == 0
    ensures Age(c, row[b]) == row[b]
  {
  }

  // Nothing of rank r may be sent.
  ghost predicate RankBlocked(c: Config, t: int, banks: BankTable, q: QueueState, r: nat)
    requires TableShape(c, banks) && Shape(c, q)
  {
    forall b: nat :: InGrid(c, Cursor(r, b)) ==> Blocked(c, t, banks, q, Cursor(r, b))
  }

  lemma NoneQueuedBlocks(c: Config, x: Control, r: nat)
    requires Fits(c, x) && r < c.NumRanks() && NoneQueued(c, x.queue.queues[r])
    ensures RankBlocked(c, x.clock, AgeAll(c, x.banks), AgeWindows(x.queue), r)
  {
    hide Issuable, Age;
  }

  lemma ComingBlocks(c: Config, x: Control, v: Visit)
    requires Fits(c, x) && Planned(c, v) && InGrid(c, v.cur)
    requires Coming(c, x.clock, ViewOf(c, x, v.cur.rank), v) && x.clock < v.act
    ensures RankBlocked(c, x.clock, AgeAll(c, x.banks), AgeWindows(x.queue), v.cur.rank)
  {
    PacketsOf(c, v);
    AgedStill(c, x.banks[v.cur.rank], v.cur.bank);
    hide CommandFor, Age;
  }

  lemma OpenedBlocks(c: Config, x: Control, v: Visit)
    requires Fits(c, x) && Planned(c, v) && InGrid(c, v.cur)
    requires Opened(c, x.clock, ViewOf(c, x, v.cur.rank), v) && x.clock < ColumnCycle(c, v)
    ensures RankBlocked(c, x.clock, AgeAll(c, x.banks), AgeWindows(x.queue), v.cur.rank)
  {
    PacketsOf(c, v);
    AgedStill(c, x.banks[v.cur.rank], v.cur.bank);
    hide CommandFor, Age;
  }

  lemma ActIssuable(c: Config, x: Control, v: Visit)
    requires Fits(c, x) && Planned(c, v) && InGrid(c, v.cur) && x.clock == v.act
    requires Coming(c, x.clock, ViewOf(c, x, v.cur.rank), v)
    ensures QueueAt(c, x.queue, v.cur) == [ActOf(c, v), ColumnOf(c, v)]
    ensures Issuable(c, x.clock, AgeAll(c, x.banks), AgeWindows(x.queue), ActOf(c, v))
  {
    PacketsOf(c, v);
    WindowsShrink(c, x.queue);
    AgedStill(c, x.banks[v.cur.rank], v.cur.bank);
    hide CommandFor, Age;
  }

  lemma ColumnIssuable(c: Config, x: Control, v: Visit)
    requires c.Valid() && Fits(c, x) && Planned(c, v) && InGrid(c, v.cur) && x.clock == ColumnCycle(c, v)
    requires Opened(c, x.clock, ViewOf(c, x, v.cur.rank), v)
    ensures QueueAt(c, x.queue, v.cur) == [ColumnOf(c, v)]
    ensures Issuable(c, x.clock, AgeAll(c, x.banks), AgeWindows(x.queue), ColumnOf(c, v))
  {
    PacketsOf(c, v);
    AgedStill(c, x.banks[v.cur.rank], v.cur.bank);
    hide CommandFor, Age;
  }

  // A row that is still wanted is not closed, and closed rows cannot be.
  lemma NotClosable(c: Config, x: Control, v: Visit, b: nat)
    requires c.Valid() && Fits(c, x) && Planned(c, v) && InGrid(c, v.cur) && b < c.NumBanks()
    requires var w := ViewOf(c, x, v.cur.rank);
      Resting(c, x.clock, w, v) || Coming(c, x.clock, w, v) || Opened(c, x.clock, w, v)
    ensures !Closable(c, x.clock, AgeAll(c, x.banks), AgeWindows(x.queue), Cursor(v.cur.rank, b))
  {
    PacketsOf(c, v);
    AgedStill(c, x.banks[v.cur.rank], b);
    hide CommandFor, Age;
    if Opened(c, x.clock, ViewOf(c, x, v.cur.rank), v) && b == v.cur.bank {
      var q0 := AgeWindows(x.queue);
      assert QueueAt(c, q0, v.cur)[0] == ColumnOf(c, v);
      assert Wanted(QueueAt(c, q0, v.cur), b, ColumnOf(c, v).row);
    }
  }

  // ---- Entering ----

  lemma ExpandNone(c: Config, q: QueueState)
    requires Shape(c, q)
    ensures ExpandOne(c, q, []) == (q, [])
  {
  }

  // A transaction enters its empty queue.
  lemma ExpandsOne(c: Config, q: QueueState, tr: Transaction)
    requires c.Valid() && Shape(c, q) && QueueAt(c, q, Target(c, tr)) == []
    ensures var cur := Target(c, tr);
      ExpandOne(c, q, [tr]) == (q.(queues := Put(q.queues, cur.rank, Slot(c, cur.bank),
        [CommandFor(c, ACTIVATE, tr), CommandFor(c, CommandKind(c, tr), tr)])), [])
  {
    hide CommandFor, Put, Target;
    assert HasRoomFor(c, q, 2, Target(c, [tr][0])) && FirstWithRoom(c, q, [tr]) == 0;
    assert Drop([tr], 0) == [];
    var packets := [CommandFor(c, ACTIVATE, tr), CommandFor(c, CommandKind(c, tr), tr)];
    assert QueueAt(c, q, Target(c, tr)) + packets == packets;
  }

  // ---- A visit in the channel ----

  // The visit v is where it should be at the start of cycle x.clock.
  ghost predicate VisitAt(c: Config, x: Control, v: Visit)
    requires Fits(c, x) && InGrid(c, v.cur)
  {
    var w := ViewOf(c, x, v.cur.rank);
    if x.clock <= v.entry then Resting(c, x.clock, w, v) && Unused(w, v.cur.bank)
    else if x.clock <= v.act then Coming(c, x.clock, w, v) && Unused(w, v.cur.bank)
    else if x.clock <= ColumnCycle(c, v) then Opened(c, x.clock, w, v)
    else NoneQueued(c, w.slots)
  }

  // What the visit has sent in cycle t.
  function SentIn(c: Config, v: Visit, t: nat): Option<BusPacket> {
    if t == v.act then Some(ActOf(c, v))
    else if t == ColumnCycle(c, v) then Some(ColumnOf(c, v))
    else None
  }

  lemma VisitBlocks(c: Config, x: Control, v: Visit)
    requires c.Valid() && Fits(c, x) && Planned(c, v) && InGrid(c, v.cur) && VisitAt(c, x, v)
    requires SentIn(c, v, x.clock) == None
    ensures RankBlocked(c, x.clock, AgeAll(c, x.banks), AgeWindows(x.queue), v.cur.rank)
  {
    hide RankBlocked, ActOf, ColumnOf, AgeAll, AgeWindows, Opened, Coming;
    if x.clock <= v.entry || x.clock > ColumnCycle(c, v) {
      NoneQueuedBlocks(c, x, v.cur.rank);
    } else if x.clock <= v.act {
      ComingBlocks(c, x, v);
    } else {
      OpenedBlocks(c, x, v);
    }
  }

  // The queue whose front goes, and the rank's other queues.
  lemma VisitSends(c: Config, x: Control, v: Visit)
    requires c.Valid() && Fits(c, x) && Planned(c, v) && InGrid(c, v.cur) && VisitAt(c, x, v)
    requires SentIn(c, v, x.clock).Some?
    ensures |QueueAt(c, x.queue, v.cur)| > 0 && SentIn(c, v, x.clock) == Some(QueueAt(c, x.queue, v.cur)[0])
    ensures Issuable(c, x.clock, AgeAll(c, x.banks), AgeWindows(x.queue), QueueAt(c, x.queue, v.cur)[0])
    ensures QueueAt(c, x.queue, v.cur)[1..] == if x.clock == v.act then [ColumnOf(c, v)] else []
    ensures forall b: nat :: InGrid(c, Cursor(v.cur.rank, b)) && Slot(c, b) != Slot(c, v.cur.bank) ==>
      Blocked(c, x.clock, AgeAll(c, x.banks), AgeWindows(x.queue), Cursor(v.cur.rank, b))
  {
    hide Issuable, ActOf, ColumnOf, AgeAll;
    if x.clock == v.act {
      ActIssuable(c, x, v);
    } else {
      ColumnIssuable(c, x, v);
    }
  }

  // The queues of the visit's rank after cycle t.
  ghost predicate SlotsFollow(c: Config, t: nat, slots: seq<seq<BusPacket>>, slots': seq<seq<BusPacket>>, v: Visit)
    requires |slots| >= NumSlots(c) && |slots'| >= NumSlots(c) && v.cur.bank < c.NumBanks()
  {
    if t == v.entry then OnlyQueued(c, slots', v.cur.bank, [ActOf(c, v), ColumnOf(c, v)])
    else if t == v.act then OnlyQueued(c, slots', v.cur.bank, [ColumnOf(c, v)])
    else if t == ColumnCycle(c, v) then NoneQueued(c, slots')
    else slots' == slots
  }

  lemma VisitAdvances(c: Config, x: Control, x': Control, v: Visit, p: Option<BusPacket>)
    requires c.Valid() && Fits(c, x) && Fits(c, x') && Planned(c, v) && InGrid(c, v.cur) && VisitAt(c, x, v)
    requires x'.clock == x.clock + 1
    requires Moves(c, x.clock, v.cur.rank, ViewOf(c, x, v.cur.rank), ViewOf(c, x', v.cur.rank), p)
    requires SlotsFollow(c, x.clock, x.queue.queues[v.cur.rank], x'.queue.queues[v.cur.rank], v)
    requires SentIn(c, v, x.clock).Some? ==> p == SentIn(c, v, x.clock)
    requires SentIn(c, v, x.clock) == None && x.clock <= ColumnCycle(c, v) ==>
      Foreign(p, v.cur.rank) && (x.clock > v.act ==> Opening(p))
    ensures VisitAt(c, x', v)
  {
    hide IssuedRow, Issue, Target, Fits, CommandFor, Shape, IssueWrite, IssueRead, PowerRow;
    var t, r := x.clock, v.cur.rank;
    var w, w' := ViewOf(c, x, r), ViewOf(c, x', r);
    hide Moves, ActOf, ColumnOf, Resting, Coming, Opened, Opening;
    if t < v.entry {
      EmptyStays(c, t, w, v);
      RestStays(c, t, w, w', p, v);
      RestKeepsUnused(c, t, w, w', p, v);
    } else if t == v.entry {
      RestEnds(c, w, w', p, v);
    } else if t < v.act {
      ComingStays(c, t, w, w', p, v);
    } else if t == v.act {
      ActSent(c, w, w', v);
    } else if t < ColumnCycle(c, v) {
      OpenedStays(c, t, w, w', p, v);
    }
  }

  lemma EmptyStays(c: Config, t: nat, w: View, v: Visit)
    requires ViewFits(c, w) && InGrid(c, v.cur) && Resting(c, t, w, v)
    ensures NoneQueued(c, w.slots)
  {
  }

  lemma RestKeepsUnused(c: Config, t: nat, w: View, w': View, p: Option<BusPacket>, v: Visit)
    requires ViewFits(c, w) && ViewFits(c, w') && InGrid(c, v.cur) && Moves(c, t, v.cur.rank, w, w', p)
    requires Unused(w, v.cur.bank) && w'.row == w.row
    ensures Unused(w', v.cur.bank)
  {
  }
}
