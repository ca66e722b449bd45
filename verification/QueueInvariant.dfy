// What every step keeps true of the command queues, and why the packet that the
// scheduler picks is always one the controller's table allows.
module QueueInvariant {
  import opened SystemConfiguration
  import opened BankState
  import opened Search
  import opened Scheduler
  import opened Sequences

  // ---- The shape of a queue ----

  predicate ColumnFor(policy: RowBufferPolicy, kind: BusPacketType) {
    match policy
    case ClosePage => kind == READ_P || kind == WRITE_P
    case OpenPage => kind == READ || kind == WRITE
  }

  // Packet p belongs in queue `slot` of rank r.
  predicate Entry(c: Config, r: nat, slot: nat, p: BusPacket) {
    && p.rank == r && p.bank < c.NumBanks() && Slot(c, p.bank) == slot
    && (p.kind == ACTIVATE || ColumnFor(c.policy, p.kind))
  }

  // The column access that activate a was queued with.
  predicate PairOf(a: BusPacket, p: BusPacket) {
    p.IsColumn() && p.bank == a.bank && p.row == a.row && p.address == a.address
  }

  // Every activate is immediately followed by its own column access.
  ghost predicate Paired(queue: seq<BusPacket>) {
    forall i :: 0 <= i < |queue| && queue[i].kind == ACTIVATE ==>
      i + 1 < |queue| && PairOf(queue[i], queue[i + 1])
  }

  ghost predicate Static(c: Config, r: nat, slot: nat, queue: seq<BusPacket>) {
    && |queue| <= c.cmdQueueDepth
    && (forall i :: 0 <= i < |queue| ==> Entry(c, r, slot, queue[i]))
    && Paired(queue)
  }

  // A column access whose activate has been issued already.
  predicate Bare(queue: seq<BusPacket>, i: nat) {
    i < |queue| && queue[i].IsColumn() && (i == 0 || queue[i - 1].kind != ACTIVATE)
  }

  ghost predicate FirstOfBank(queue: seq<BusPacket>, i: nat)
    requires i < |queue|
  {
    forall j :: 0 <= j < i ==> queue[j].bank != queue[i].bank
  }

  // The bank still holds the row open for a bare column access.
  predicate Held(m: Bank, counter: nat, row: nat) {
    Open(m) && m.openRow == row && counter == 0
  }

  // A bare column access is the first packet to its bank, and its row is open.
  ghost predicate BareReady(row: seq<Bank>, counters: seq<nat>, queue: seq<BusPacket>) {
    forall i :: 0 <= i < |queue| && Bare(queue, i) ==>
      && queue[i].bank < |row| && queue[i].bank < |counters|
      && Held(row[queue[i].bank], counters[queue[i].bank], queue[i].row)
      && FirstOfBank(queue, i)
  }

  ghost predicate CountersOK(c: Config, row: seq<Bank>, counters: seq<nat>) {
    && |row| == |counters| == c.NumBanks()
    && forall b :: 0 <= b < |row| ==>
         && counters[b] <= c.totalRowAccesses
         && (row[b].state != RowActive || c.policy == ClosePage ==> counters[b] == 0)
  }

  // Only auto-precharging policies leave auto-precharging banks, and a rank is
  // powered down as a whole.
  ghost predicate BanksOK(c: Config, t: int, row: seq<Bank>) {
    && |row| == c.NumBanks()
    && (forall b :: 0 <= b < |row| ==> Consistent(t, row[b]))
    && (c.policy == OpenPage ==> forall b :: 0 <= b < |row| ==>
          row[b].lastCommand != READ_P && row[b].lastCommand != WRITE_P)
    && (forall a, b :: 0 <= a < |row| && 0 <= b < |row| && row[a].state == PowerDown ==> row[b].state == PowerDown)
  }

  // One rank: its banks, its row counters and its queues.
  ghost predicate RankOK(c: Config, t: int, r: nat, row: seq<Bank>, counters: seq<nat>, slots: seq<seq<BusPacket>>) {
    && BanksOK(c, t, row)
    && CountersOK(c, row, counters)
    && |slots| >= NumSlots(c)
    && forall s :: 0 <= s < |slots| ==> Static(c, r, s, slots[s]) && BareReady(row, counters, slots[s])
  }

  ghost predicate QueuesOK(c: Config, t: int, banks: BankTable, q: QueueState) {
    && TableShape(c, banks) && Shape(c, q)
    && forall r :: 0 <= r < c.NumRanks() ==>
         RankOK(c, t, r, banks[r], q.rowAccessCounters[r], q.queues[r])
  }

  // The controller's whole table after packet p is popped at cycle t.
  function IssueAll(c: Config, t: int, p: BusPacket, banks: BankTable): (r: BankTable)
    ensures |r| == |banks| && forall i :: 0 <= i < |r| ==> |r[i]| == |banks[i]|
    ensures forall i, j :: 0 <= i < |r| && 0 <= j < |r[i]| ==> r[i][j] == Issue(c, t, p, i, j, banks[i][j])
  {
    seq(|banks|, i requires 0 <= i < |banks| =>
      seq(|banks[i]|, j requires 0 <= j < |banks[i]| => Issue(c, t, p, i, j, banks[i][j])))
  }

  // ---- Removing packets ----

  lemma RemoveActivate(c: Config, r: nat, slot: nat, queue: seq<BusPacket>, i: nat)
    requires Static(c, r, slot, queue) && i < |queue| && queue[i].kind == ACTIVATE
    ensures Static(c, r, slot, Drop(queue, i))
    ensures i < |Drop(queue, i)| && PairOf(queue[i], Drop(queue, i)[i])
    ensures forall j :: 0 <= j < |Drop(queue, i)| && Bare(Drop(queue, i), j) ==>
              j == i || Bare(queue, if j < i then j else j + 1)
  {
    var rest := Drop(queue, i);
    assert PairOf(queue[i], queue[i + 1]);
    assert i > 0 ==> queue[i - 1].kind != ACTIVATE;
    forall j | 0 <= j < |rest| && rest[j].kind == ACTIVATE
      ensures j + 1 < |rest| && PairOf(rest[j], rest[j + 1])
    {
      if j < i {
        assert queue[j].kind == ACTIVATE;
      } else {
        assert queue[j + 1].kind == ACTIVATE;
      }
    }
  }

  lemma RemoveBare(c: Config, r: nat, slot: nat, queue: seq<BusPacket>, i: nat)
    requires Static(c, r, slot, queue) && Bare(queue, i)
    ensures Static(c, r, slot, Drop(queue, i))
    ensures forall j :: 0 <= j < |Drop(queue, i)| && Bare(Drop(queue, i), j) ==>
              Bare(queue, if j < i then j else j + 1)
  {
    var rest := Drop(queue, i);
    forall j | 0 <= j < |rest| && rest[j].kind == ACTIVATE
      ensures j + 1 < |rest| && PairOf(rest[j], rest[j + 1])
    {
      if j < i {
        assert queue[j].kind == ACTIVATE;
        assert j + 1 != i;
      } else {
        assert queue[j + 1].kind == ACTIVATE;
      }
    }
  }

  lemma RemovePair(c: Config, r: nat, slot: nat, queue: seq<BusPacket>, i: nat)
    requires Static(c, r, slot, queue) && 0 < i < |queue| && queue[i - 1].kind == ACTIVATE
    ensures var rest := queue[..i - 1] + queue[i + 1..];
      && Static(c, r, slot, rest)
      && forall j :: 0 <= j < |rest| && Bare(rest, j) ==> Bare(queue, if j < i - 1 then j else j + 2)
  {
    var rest := queue[..i - 1] + queue[i + 1..];
    assert PairOf(queue[i - 1], queue[i]);
    forall j | 0 <= j < |rest|
      ensures Entry(c, r, slot, rest[j])
      ensures rest[j].kind == ACTIVATE ==> j + 1 < |rest| && PairOf(rest[j], rest[j + 1])
    {
      if j < i - 1 {
        assert rest[j] == queue[j];
        if queue[j].kind == ACTIVATE {
          assert PairOf(queue[j], queue[j + 1]);
          assert j + 1 < i - 1;
          assert rest[j + 1] == queue[j + 1];
        }
      } else {
        assert rest[j] == queue[j + 2];
        if queue[j + 2].kind == ACTIVATE {
          assert PairOf(queue[j + 2], queue[j + 3]);
          assert rest[j + 1] == queue[j + 3];
        }
      }
    }
  }

  // Adding a transaction's activate and column access at the back.
  lemma AppendPair(c: Config, r: nat, slot: nat, row: seq<Bank>, counters: seq<nat>, queue: seq<BusPacket>,
                   a: BusPacket, p: BusPacket)
    requires Static(c, r, slot, queue) && BareReady(row, counters, queue)
    requires |queue| + 2 <= c.cmdQueueDepth
    requires Entry(c, r, slot, a) && Entry(c, r, slot, p) && a.kind == ACTIVATE && PairOf(a, p)
    ensures Static(c, r, slot, queue + [a, p]) && BareReady(row, counters, queue + [a, p])
  {
    var more := queue + [a, p];
    forall i | 0 <= i < |more| && more[i].kind == ACTIVATE
      ensures i + 1 < |more| && PairOf(more[i], more[i + 1])
    {
      if i < |queue| {
        assert queue[i].kind == ACTIVATE;
      }
    }
    forall i | 0 <= i < |more| && Bare(more, i)
      ensures Bare(queue, i)
    {
      assert more[|queue|] == a;
    }
  }

  // ---- Which packets can be picked ----

  // The first column access or activate to an open row is a bare column access,
  // or nothing bare waits for that bank.
  lemma FirstMatchIsBare(c: Config, r: nat, slot: nat, row: seq<Bank>, counters: seq<nat>, queue: seq<BusPacket>,
                         bank: nat, open: nat)
    requires Static(c, r, slot, queue) && BareReady(row, counters, queue)
    ensures var j := FirstTo(queue, bank, open);
      j < |queue| && queue[j].kind != ACTIVATE ==> Bare(queue, j) && queue[j].bank == bank && queue[j].row == open
    ensures var j := FirstTo(queue, bank, open);
      !(j < |queue| && queue[j].kind != ACTIVATE) && bank < |row| && row[bank].openRow == open ==>
        forall i :: 0 <= i < |queue| && Bare(queue, i) ==> queue[i].bank != bank
  {
    var j := FirstTo(queue, bank, open);
    if j < |queue| && queue[j].kind != ACTIVATE {
      assert Entry(c, r, slot, queue[j]);
      assert j > 0 ==> !GoesTo(queue[j - 1], bank, open);
      assert j > 0 && queue[j - 1].kind == ACTIVATE ==> PairOf(queue[j - 1], queue[j]);
    } else if bank < |row| && row[bank].openRow == open {
      forall i | 0 <= i < |queue| && Bare(queue, i)
        ensures queue[i].bank != bank
      {
        assert FirstOfBank(queue, i);
        assert queue[i].bank == bank ==> Held(row[bank], counters[bank], queue[i].row) && GoesTo(queue[i], bank, open);
      }
    }
  }

  // An activate that the scan picks is the first packet to its bank.
  lemma PickedActivateIsFirst(c: Config, t: int, banks: BankTable, q: QueueState, r: nat, slot: nat, i: nat)
    requires TableShape(c, banks) && Shape(c, q) && r < c.NumRanks() && slot < |q.queues[r]|
    requires Static(c, r, slot, q.queues[r][slot])
    requires BareReady(banks[r], q.rowAccessCounters[r], q.queues[r][slot])
    requires i == FirstEligible(c, t, banks, q, q.queues[r][slot]) && i < |q.queues[r][slot]|
    requires q.queues[r][slot][i].kind == ACTIVATE
    ensures FirstOfBank(q.queues[r][slot], i)
  {
    var queue := q.queues[r][slot];
    var bank := queue[i].bank;
    var hit := (j: nat) => j < |queue| && queue[j].bank == bank;
    var j := First(hit, 0, |queue|);
    assert hit(i);
    assert Entry(c, r, slot, queue[i]) && Entry(c, r, slot, queue[j]);
    assert forall l :: 0 <= l < j ==> queue[l].bank != bank by {
      forall l | 0 <= l < j ensures queue[l].bank != bank { assert !hit(l); }
    }
    assert j > 0 && queue[j - 1].kind == ACTIVATE ==> PairOf(queue[j - 1], queue[j]);
    assert queue[j].kind != ACTIVATE ==> Bare(queue, j);
    assert Bare(queue, j) ==> Held(banks[r][bank], q.rowAccessCounters[r][bank], queue[j].row);
    assert Eligible(c, t, banks, q, queue, i);
    assert Issuable(c, t, banks, q, queue[j]);
    assert !EarlierColumn(queue, j);
    assert c.queuing == PerRank || c.policy == OpenPage ==> Eligible(c, t, banks, q, queue, j);
  }

  // A column access that the scan picks is bare, or, in open page, it leaves
  // together with its activate while nothing bare waits for its bank.
  lemma PickedColumn(c: Config, t: int, banks: BankTable, q: QueueState, r: nat, slot: nat, i: nat)
    requires TableShape(c, banks) && Shape(c, q) && r < c.NumRanks() && slot < |q.queues[r]|
    requires Static(c, r, slot, q.queues[r][slot])
    requires BareReady(banks[r], q.rowAccessCounters[r], q.queues[r][slot])
    requires i < |q.queues[r][slot]| && Eligible(c, t, banks, q, q.queues[r][slot], i)
    requires q.queues[r][slot][i].IsColumn()
    ensures Bare(q.queues[r][slot], i) || (c.policy == OpenPage && i > 0 && q.queues[r][slot][i - 1].kind == ACTIVATE)
    ensures !Bare(q.queues[r][slot], i) ==>
              forall j :: 0 <= j < |q.queues[r][slot]| && Bare(q.queues[r][slot], j) ==>
                q.queues[r][slot][j].bank != q.queues[r][slot][i].bank
  {
    var queue := q.queues[r][slot];
    assert Entry(c, r, slot, queue[i]);
    if i > 0 && queue[i - 1].kind == ACTIVATE {
      assert PairOf(queue[i - 1], queue[i]);
    }
    if !Bare(queue, i) {
      forall j | 0 <= j < |queue| && Bare(queue, j)
        ensures queue[j].bank != queue[i].bank
      {
        assert FirstOfBank(queue, j);
        assert Held(banks[r][queue[j].bank], q.rowAccessCounters[r][queue[j].bank], queue[j].row);
        assert !EarlierColumn(queue, i);
      }
    }
  }

  // ---- One rank across a pop ----

  // Bank b of the row still serves whatever it served before.
  ghost predicate Undisturbed(m: Bank, m': Bank) {
    (m'.state == RowActive <==> m.state == RowActive) && (Open(m) ==> Open(m') && m'.openRow == m.openRow)
  }

  ghost predicate RowIssued(c: Config, t: int, r: nat, p: BusPacket, row: seq<Bank>, row': seq<Bank>) {
    |row'| == |row| && forall b :: 0 <= b < |row| ==> row'[b] == Issue(c, t, p, r, b, row[b])
  }

  lemma OtherRankKept(c: Config, t: int, r: nat, p: BusPacket, row: seq<Bank>, row': seq<Bank>,
                      counters: seq<nat>, slots: seq<seq<BusPacket>>)
    requires RankOK(c, t + 1, r, row, counters, slots)
    requires RowIssued(c, t, r, p, row, row') && p.rank != r
    ensures RankOK(c, t + 1, r, row', counters, slots)
  {
    hide Paired;
    assert forall b :: 0 <= b < |row| ==> Undisturbed(row[b], row'[b]) && row'[b].state == row[b].state;
    forall s | 0 <= s < |slots| ensures BareReady(row', counters, slots[s]) {
      assert BareReady(row, counters, slots[s]);
    }
  }

  lemma BanksAfterIssue(c: Config, t: int, r: nat, p: BusPacket, row: seq<Bank>, row': seq<Bank>)
    requires c.Valid() && BanksOK(c, t + 1, row) && MayIssue(t, row, p) && p.rank == r
    requires p.IsColumn() ==> ColumnFor(c.policy, p.kind)
    requires RowIssued(c, t, r, p, row, row')
    ensures BanksOK(c, t + 1, row')
    ensures forall b :: 0 <= b < |row| && b != p.bank && p.kind != REFRESH ==> Undisturbed(row[b], row'[b])
  {
    forall b | 0 <= b < |row|
      ensures Consistent(t + 1, row'[b])
      ensures row'[b].state == PowerDown <==> row[b].state == PowerDown
    {
      assert Consistent(t + 1, row[b]);
      assert p.kind == REFRESH ==> row[b].state != PowerDown;
      assert row[p.bank].state != PowerDown;
    }
  }

  // Only bank `bank`, and the queue it belongs to, changed.
  lemma RankAfter(c: Config, t: int, r: nat, row: seq<Bank>, row': seq<Bank>, counters: seq<nat>, counters': seq<nat>,
                  slots: seq<seq<BusPacket>>, s: nat, queue: seq<BusPacket>, bank: nat)
    requires RankOK(c, t, r, row, counters, slots) && BanksOK(c, t, row') && CountersOK(c, row', counters')
    requires s == Slot(c, bank) && s < |slots|
    requires Static(c, r, s, queue) && BareReady(row', counters', queue)
    requires forall b :: 0 <= b < |row| && b != bank ==> Undisturbed(row[b], row'[b]) && counters'[b] == counters[b]
    ensures RankOK(c, t, r, row', counters', slots[s := queue])
  {
    var slots' := slots[s := queue];
    forall i | 0 <= i < |slots'|
      ensures Static(c, r, i, slots'[i]) && BareReady(row', counters', slots'[i])
    {
      if i != s {
        assert Static(c, r, i, slots[i]) && BareReady(row, counters, slots[i]);
        forall j | 0 <= j < |slots[i]| && Bare(slots[i], j)
          ensures Held(row'[slots[i][j].bank], counters'[slots[i][j].bank], slots[i][j].row)
        {
          assert Entry(c, r, i, slots[i][j]);
          assert slots[i][j].bank != bank;
        }
      }
    }
  }

  lemma CountersKept(c: Config, row: seq<Bank>, row': seq<Bank>, counters: seq<nat>, bank: nat)
    requires CountersOK(c, row, counters) && |row'| == |row|
    requires forall b :: 0 <= b < |row| && b != bank ==> Undisturbed(row[b], row'[b])
    requires bank < |row| && (row'[bank].state != RowActive ==> counters[bank] == 0)
    ensures CountersOK(c, row', counters)
  {
  }

  lemma TookBare(c: Config, t: int, r: nat, row: seq<Bank>, row': seq<Bank>, counters: seq<nat>,
                 slots: seq<seq<BusPacket>>, s: nat, i: nat)
    requires c.Valid() && RankOK(c, t + 1, r, row, counters, slots)
    requires s < |slots| && Bare(slots[s], i)
    requires MayIssue(t, row, slots[s][i]) && RowIssued(c, t, r, slots[s][i], row, row')
    ensures RankOK(c, t + 1, r, row', counters, slots[s := Drop(slots[s], i)])
  {
    hide Issue, IssueWrite, IssueRead, Consistent;
    var queue, p := slots[s], slots[s][i];
    var rest := Drop(queue, i);
    assert Entry(c, r, s, p);
    BanksAfterIssue(c, t, r, p, row, row');
    CountersKept(c, row, row', counters, p.bank);
    RemoveBare(c, r, s, queue, i);
    forall j | 0 <= j < |rest| && Bare(rest, j)
      ensures Held(row'[rest[j].bank], counters[rest[j].bank], rest[j].row) && FirstOfBank(rest, j)
    {
      var j0 := if j < i then j else j + 1;
      assert Bare(queue, j0) && rest[j] == queue[j0] && FirstOfBank(queue, j0) && FirstOfBank(queue, i);
      assert rest[j].bank != p.bank;
      assert Undisturbed(row[rest[j].bank], row'[rest[j].bank]);
    }
    RankAfter(c, t + 1, r, row, row', counters, counters, slots, s, rest, p.bank);
  }

  lemma TookActivate(c: Config, t: int, r: nat, row: seq<Bank>, row': seq<Bank>, counters: seq<nat>,
                     slots: seq<seq<BusPacket>>, s: nat, i: nat)
    requires c.Valid() && RankOK(c, t + 1, r, row, counters, slots)
    requires s < |slots| && i < |slots[s]| && slots[s][i].kind == ACTIVATE && FirstOfBank(slots[s], i)
    requires MayIssue(t, row, slots[s][i]) && RowIssued(c, t, r, slots[s][i], row, row')
    ensures RankOK(c, t + 1, r, row', counters, slots[s := Drop(slots[s], i)])
  {
    var queue, p := slots[s], slots[s][i];
    var rest := Drop(queue, i);
    assert Entry(c, r, s, p);
    BanksAfterIssue(c, t, r, p, row, row');
    CountersKept(c, row, row', counters, p.bank);
    RemoveActivate(c, r, s, queue, i);
    forall j | 0 <= j < |rest| && Bare(rest, j)
      ensures Held(row'[rest[j].bank], counters[rest[j].bank], rest[j].row) && FirstOfBank(rest, j)
    {
      if j != i {
        var j0 := if j < i then j else j + 1;
        assert Bare(queue, j0) && rest[j] == queue[j0] && FirstOfBank(queue, j0) && FirstOfBank(queue, i);
        assert Held(row[queue[j0].bank], counters[queue[j0].bank], queue[j0].row);
        assert rest[j].bank != p.bank;
        assert Undisturbed(row[rest[j].bank], row'[rest[j].bank]);
      }
    }
    RankAfter(c, t + 1, r, row, row', counters, counters, slots, s, rest, p.bank);
  }

  lemma TookPair(c: Config, t: int, r: nat, row: seq<Bank>, row': seq<Bank>, counters: seq<nat>,
                 slots: seq<seq<BusPacket>>, s: nat, i: nat)
    requires c.Valid() && RankOK(c, t + 1, r, row, counters, slots) && c.policy == OpenPage
    requires s < |slots| && 0 < i < |slots[s]| && slots[s][i].IsColumn() && slots[s][i - 1].kind == ACTIVATE
    requires forall j :: 0 <= j < |slots[s]| && Bare(slots[s], j) ==> slots[s][j].bank != slots[s][i].bank
    requires MayIssue(t, row, slots[s][i]) && RowIssued(c, t, r, slots[s][i], row, row')
    requires slots[s][i].bank < |counters| && counters[slots[s][i].bank] < c.totalRowAccesses
    ensures var bank := slots[s][i].bank;
      RankOK(c, t + 1, r, row', counters[bank := counters[bank] + 1],
             slots[s := slots[s][..i - 1] + slots[s][i + 1..]])
  {
    var queue, p := slots[s], slots[s][i];
    var rest := queue[..i - 1] + queue[i + 1..];
    var counters' := counters[p.bank := counters[p.bank] + 1];
    assert Static(c, r, s, queue) && BareReady(row, counters, queue);
    assert Entry(c, r, s, p);
    BanksAfterIssue(c, t, r, p, row, row');
    assert row'[p.bank].state == RowActive;
    assert CountersOK(c, row', counters');
    RemovePair(c, r, s, queue, i);
    PairRest(c, row, row', counters, counters', queue, i);
    RankAfter(c, t + 1, r, row, row', counters, counters', slots, s, rest, p.bank);
  }

  lemma PairRest(c: Config, row: seq<Bank>, row': seq<Bank>, counters: seq<nat>, counters': seq<nat>,
                 queue: seq<BusPacket>, i: nat)
    requires BareReady(row, counters, queue) && 0 < i < |queue|
    requires |row| == |row'| == |counters| == |counters'|
    requires forall b :: 0 <= b < |row| && b != queue[i].bank ==>
               Undisturbed(row[b], row'[b]) && counters'[b] == counters[b]
    requires forall j :: 0 <= j < |queue| && Bare(queue, j) ==> queue[j].bank != queue[i].bank
    requires var rest := queue[..i - 1] + queue[i + 1..];
      forall j :: 0 <= j < |rest| && Bare(rest, j) ==> Bare(queue, if j < i - 1 then j else j + 2)
    ensures BareReady(row', counters', queue[..i - 1] + queue[i + 1..])
  {
    var rest := queue[..i - 1] + queue[i + 1..];
    forall j | 0 <= j < |rest| && Bare(rest, j)
      ensures rest[j].bank < |row'| && Held(row'[rest[j].bank], counters'[rest[j].bank], rest[j].row)
      ensures FirstOfBank(rest, j)
    {
      var j0 := if j < i - 1 then j else j + 2;
      assert Bare(queue, j0) && rest[j] == queue[j0];
      assert FirstOfBank(queue, j0);
      forall l | 0 <= l < j ensures rest[l].bank != rest[j].bank {
        assert rest[l] == queue[if l < i - 1 then l else l + 2];
      }
    }
  }

  lemma ClosedRow(c: Config, t: int, r: nat, row: seq<Bank>, row': seq<Bank>, counters: seq<nat>,
                  slots: seq<seq<BusPacket>>, p: BusPacket)
    requires c.Valid() && RankOK(c, t + 1, r, row, counters, slots)
    requires p.kind == PRECHARGE && p.rank == r
    requires var s := Slot(c, p.bank);
      s < |slots| && forall j :: 0 <= j < |slots[s]| && Bare(slots[s], j) ==> slots[s][j].bank != p.bank
    requires MayIssue(t, row, p) && RowIssued(c, t, r, p, row, row')
    ensures RankOK(c, t + 1, r, row', counters[p.bank := 0], slots)
  {
    var s := Slot(c, p.bank);
    var counters' := counters[p.bank := 0];
    BanksAfterIssue(c, t, r, p, row, row');
    assert BareReady(row, counters, slots[s]);
    forall j | 0 <= j < |slots[s]| && Bare(slots[s], j)
      ensures Held(row'[slots[s][j].bank], counters'[slots[s][j].bank], slots[s][j].row)
    {
      assert Undisturbed(row[slots[s][j].bank], row'[slots[s][j].bank]);
    }
    RankAfter(c, t + 1, r, row, row', counters, counters', slots, s, slots[s], p.bank);
    assert slots[s := slots[s]] == slots;
  }

  lemma Refreshed(c: Config, t: int, r: nat, row: seq<Bank>, row': seq<Bank>, counters: seq<nat>,
                  slots: seq<seq<BusPacket>>, p: BusPacket)
    requires c.Valid() && RankOK(c, t + 1, r, row, counters, slots)
    requires p.kind == REFRESH && p.rank == r
    requires MayIssue(t, row, p) && RowIssued(c, t, r, p, row, row')
    ensures RankOK(c, t + 1, r, row', counters, slots)
  {
    BanksAfterIssue(c, t, r, p, row, row');
    forall s | 0 <= s < |slots| ensures BareReady(row', counters, slots[s]) {
      assert BareReady(row, counters, slots[s]) && Static(c, r, s, slots[s]);
      forall j | 0 <= j < |slots[s]| ensures !Bare(slots[s], j) {
        assert Entry(c, r, s, slots[s][j]);
        assert row[slots[s][j].bank].state != RowActive;
      }
    }
  }
}
