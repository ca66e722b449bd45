// Accesses to one address reach the command bus in the order in which the controller was
// given them: no read gets past an earlier write to its address, nor a write past a read.
module AccessOrder {
  import opened Wrappers
  import opened SystemConfiguration
  import opened AddressMapping
  import opened BankState
  import opened Scheduler
  import opened QueueInvariant
  import opened SchedulerSafety
  import opened Channel
  import opened TimingSafety
  import opened ReadPipeline
  import opened Conservation
  import opened ChannelSafety
  import opened OneCycle
  import opened RowFairness
  import opened PacketAddresses
  import opened ServiceOrder
  import opened Runs
  import opened Sequences

  // ---- Accesses to address a, a write as true ----

  predicate IsAccess(a: nat, p: BusPacket) {
    p.IsColumn() && p.address == a
  }

  function Own(a: nat, p: Option<BusPacket>): seq<bool> {
    if p.Some? && IsAccess(a, p.value) then [p.value.IsWrite()] else []
  }

  function Queued(a: nat, queue: seq<BusPacket>): seq<bool> {
    if queue == [] then [] else Queued(a, queue[..|queue| - 1]) + Own(a, Some(queue[|queue| - 1]))
  }

  function Sent(a: nat, issued: seq<Option<BusPacket>>): seq<bool> {
    if issued == [] then [] else Sent(a, issued[..|issued| - 1]) + Own(a, issued[|issued| - 1])
  }

  function Asked(a: nat, trs: seq<Transaction>): seq<bool> {
    if trs == [] then []
    else Asked(a, trs[..|trs| - 1]) + if trs[|trs| - 1].address == a then [trs[|trs| - 1].isWrite] else []
  }

  // The queue of the address.
  function Home(c: Config, a: nat): (cur: Cursor)
    ensures InGrid(c, cur)
  {
    Target(c, Transaction(false, a))
  }

  // All accesses to the address that the channel has been given, those on their way last.
  function Accesses(c: Config, s: ChannelState, a: nat): seq<bool>
    requires WellFormed(c, s)
  {
    Sent(a, s.mc.issued) + Queued(a, QueueAt(c, s.mc.queue, Home(c, a))) + Asked(a, Line(s))
  }

  lemma {:induction false} QueuedConcat(a: nat, x: seq<BusPacket>, y: seq<BusPacket>)
    ensures Queued(a, x + y) == Queued(a, x) + Queued(a, y)
    decreases |y|
  {
    if y == [] {
      assert x + y == x;
    } else {
      QueuedConcat(a, x, y[..|y| - 1]);
      assert (x + y)[..|x + y| - 1] == x + y[..|y| - 1];
    }
  }

  lemma {:induction false} AskedConcat(a: nat, x: seq<Transaction>, y: seq<Transaction>)
    ensures Asked(a, x + y) == Asked(a, x) + Asked(a, y)
    decreases |y|
  {
    if y == [] {
      assert x + y == x;
    } else {
      AskedConcat(a, x, y[..|y| - 1]);
      assert (x + y)[..|x + y| - 1] == x + y[..|y| - 1];
    }
  }

  lemma {:induction false} NoneQueued(a: nat, queue: seq<BusPacket>)
    requires forall j :: 0 <= j < |queue| ==> !IsAccess(a, queue[j])
    ensures Queued(a, queue) == []
    decreases |queue|
  {
    if queue != [] {
      NoneQueued(a, queue[..|queue| - 1]);
    }
  }

  lemma {:induction false} NoneAsked(a: nat, trs: seq<Transaction>)
    requires forall j :: 0 <= j < |trs| ==> trs[j].address != a
    ensures Asked(a, trs) == []
    decreases |trs|
  {
    if trs != [] {
      NoneAsked(a, trs[..|trs| - 1]);
    }
  }

  lemma OneQueued(a: nat, p: BusPacket)
    ensures Queued(a, [p]) == Own(a, Some(p))
  {
    assert [p][..0] == [];
    assert Queued(a, []) == [];
  }

  lemma OneAsked(a: nat, tr: Transaction)
    ensures Asked(a, [tr]) == if tr.address == a then [tr.isWrite] else []
  {
    assert [tr][..0] == [];
    assert Asked(a, []) == [];
  }

  // A packet leaves a queue; if it is an access to the address, none was before it.
  lemma LeavesQueue(a: nat, queue: seq<BusPacket>, i: nat)
    requires i < |queue| && (IsAccess(a, queue[i]) ==> forall j :: 0 <= j < i ==> !IsAccess(a, queue[j]))
    ensures Queued(a, queue) == Own(a, Some(queue[i])) + Queued(a, Drop(queue, i))
  {
    hide Queued;
    var before, after := queue[..i], queue[i + 1..];
    assert queue == before + ([queue[i]] + after);
    QueuedConcat(a, before, [queue[i]] + after);
    QueuedConcat(a, [queue[i]], after);
    QueuedConcat(a, before, after);
    OneQueued(a, queue[i]);
    if IsAccess(a, queue[i]) {
      NoneQueued(a, before);
    }
  }

  lemma LeavesLine(a: nat, trs: seq<Transaction>, i: nat)
    requires i < |trs| && (trs[i].address == a ==> forall j :: 0 <= j < i ==> trs[j].address != a)
    ensures Asked(a, trs) == (if trs[i].address == a then [trs[i].isWrite] else []) + Asked(a, Drop(trs, i))
  {
    hide Asked;
    var before, after := trs[..i], trs[i + 1..];
    assert trs == before + ([trs[i]] + after);
    AskedConcat(a, before, [trs[i]] + after);
    AskedConcat(a, [trs[i]], after);
    AskedConcat(a, before, after);
    OneAsked(a, trs[i]);
    if trs[i].address == a {
      NoneAsked(a, before);
    }
  }

  // ---- The pop ----

  // Packet p has left q for q', as the next access to the address if it is one.
  ghost predicate TakesNext(c: Config, a: nat, q: QueueState, q': QueueState, p: Option<BusPacket>)
    requires Shape(c, q) && Shape(c, q')
  {
    Queued(a, QueueAt(c, q, Home(c, a))) == Own(a, p) + Queued(a, QueueAt(c, q', Home(c, a)))
  }

  // A packet that stands at its address stands in the queue of it.
  lemma InItsQueue(c: Config, a: nat, r: nat, s: nat, p: BusPacket)
    requires AtItsAddress(c, p) && Entry(c, r, s, p) && IsAccess(a, p)
    ensures r == Home(c, a).rank && s == Slot(c, Home(c, a).bank)
  {
  }

  lemma SameAddressSameRow(c: Config, a: nat, x: BusPacket, y: BusPacket)
    requires AtItsAddress(c, x) && AtItsAddress(c, y)
    ensures IsAccess(a, x) && IsAccess(a, y) ==> x.bank == y.bank && x.row == y.row
  {
    hide Decode;
  }

  // Before a waiting column access, and before one that no earlier column access to its row
  // holds back, there is no access to its address.
  lemma NoneEarlier(c: Config, t: int, banks: BankTable, q: QueueState, r: nat, s: nat, i: nat)
    requires QueuesOK(c, t, banks, q) && AllAtTheirAddress(c, q.queues) && r < c.NumRanks() && s < |q.queues[r]|
    requires i < |q.queues[r][s]| && (Bare(q.queues[r][s], i) || !EarlierColumn(q.queues[r][s], i))
    ensures forall j, a :: 0 <= j < i && IsAccess(a, q.queues[r][s][i]) ==> !IsAccess(a, q.queues[r][s][j])
  {
    assert RankOK(c, t, r, banks[r], q.rowAccessCounters[r], q.queues[r]);
    var queue := q.queues[r][s];
    assert BareReady(banks[r], q.rowAccessCounters[r], queue);
    hide QueuesOK, RankOK;
    forall j, a | 0 <= j < i && IsAccess(a, queue[i]) ensures !IsAccess(a, queue[j]) {
      assert AtItsAddress(c, queue[i]) && AtItsAddress(c, queue[j]);
      SameAddressSameRow(c, a, queue[i], queue[j]);
      assert Bare(queue, i) ==> FirstOfBank(queue, i);
    }
  }

  lemma PutAt(c: Config, q: QueueState, q': QueueState, r: nat, s: nat, queue: seq<BusPacket>, cur: Cursor)
    requires Shape(c, q) && Shape(c, q') && r < |q.queues| && s < |q.queues[r]| && InGrid(c, cur)
    requires q'.queues == Put(q.queues, r, s, queue)
    ensures QueueAt(c, q', cur) == if cur.rank == r && Slot(c, cur.bank) == s then queue else QueueAt(c, q, cur)
  {
  }

  lemma TakesOne(c: Config, a: nat, q: QueueState, q': QueueState, r: nat, s: nat, i: nat)
    requires Shape(c, q) && Shape(c, q') && AllAtTheirAddress(c, q.queues)
    requires r < c.NumRanks() && s < |q.queues[r]| && i < |q.queues[r][s]| && Entry(c, r, s, q.queues[r][s][i])
    requires q'.queues == Put(q.queues, r, s, Drop(q.queues[r][s], i))
    requires forall j :: 0 <= j < i && IsAccess(a, q.queues[r][s][i]) ==> !IsAccess(a, q.queues[r][s][j])
    ensures TakesNext(c, a, q, q', Some(q.queues[r][s][i]))
  {
    hide Queued, Home, Put, Slot;
    var queue := q.queues[r][s];
    assert AtItsAddress(c, queue[i]);
    LeavesQueue(a, queue, i);
    PutAt(c, q, q', r, s, Drop(queue, i), Home(c, a));
    if IsAccess(a, queue[i]) {
      InItsQueue(c, a, r, s, queue[i]);
    } else {
      NoOwn(a, Some(queue[i]), QueueAt(c, q', Home(c, a)));
    }
  }

  lemma NoOwn(a: nat, p: Option<BusPacket>, queue: seq<BusPacket>)
    requires p.Some? ==> !IsAccess(a, p.value)
    ensures Own(a, p) + Queued(a, queue) == Queued(a, queue)
  {
    hide Queued;
  }

  lemma EntryOf(c: Config, t: int, banks: BankTable, q: QueueState, r: nat, s: nat, i: nat)
    requires QueuesOK(c, t, banks, q) && r < c.NumRanks() && s < |q.queues[r]| && i < |q.queues[r][s]|
    ensures Entry(c, r, s, q.queues[r][s][i])
  {
    assert RankOK(c, t, r, banks[r], q.rowAccessCounters[r], q.queues[r]);
  }

  lemma RefreshWorkInOrder(c: Config, t: int, banks: BankTable, q: QueueState, a: nat)
    requires TableShape(c, banks) && Shape(c, q) && QueuesOK(c, t + 1, banks, q) && AllAtTheirAddress(c, q.queues)
    ensures var (q', p) := RefreshWork(c, t, banks, q); TakesNext(c, a, q, q', p)
  {
    hide QueuesOK, Queued, Home, AllAtTheirAddress, Issuable, Put, Drop, TakesNext;
    var (q', p) := RefreshWork(c, t, banks, q);
    var r, b := q.refreshRank, if q.refreshWaiting then FirstBusy(t, banks[q.refreshRank]) else c.NumBanks();
    if b < c.NumBanks() && banks[r][b].state == RowActive {
      var queue := q.queues[r][Slot(c, b)];
      var j := FirstTo(queue, b, banks[r][b].openRow);
      if j < |queue| && queue[j].kind != ACTIVATE && Issuable(c, t, banks, q, queue[j]) {
        BareInOrder(c, t, banks, q, q', r, b, j, a);
      } else {
        SameInOrder(c, a, q, q', p);
      }
    } else {
      SameInOrder(c, a, q, q', p);
    }
  }

  lemma BareInOrder(c: Config, t: int, banks: BankTable, q: QueueState, q': QueueState, r: nat, b: nat, j: nat, a: nat)
    requires TableShape(c, banks) && Shape(c, q) && Shape(c, q') && QueuesOK(c, t + 1, banks, q)
    requires AllAtTheirAddress(c, q.queues)
    requires r < c.NumRanks() && b < c.NumBanks()
    requires var queue := q.queues[r][Slot(c, b)];
      && j == FirstTo(queue, b, banks[r][b].openRow) && j < |queue| && queue[j].kind != ACTIVATE
      && q'.queues == Put(q.queues, r, Slot(c, b), Drop(queue, j))
    ensures TakesNext(c, a, q, q', Some(q.queues[r][Slot(c, b)][j]))
  {
    hide QueuesOK, AllAtTheirAddress, TakesNext;
    var s := Slot(c, b);
    SlotFacts(c, t, banks, q, r, s);
    FirstMatchIsBare(c, r, s, banks[r], q.rowAccessCounters[r], q.queues[r][s], b, banks[r][b].openRow);
    NoneEarlier(c, t + 1, banks, q, r, s, j);
    TakesOne(c, a, q, q', r, s, j);
  }

  lemma SameInOrder(c: Config, a: nat, q: QueueState, q': QueueState, p: Option<BusPacket>)
    requires Shape(c, q) && Shape(c, q') && q'.queues == q.queues && (p.Some? ==> !p.value.IsColumn())
    ensures TakesNext(c, a, q, q', p)
  {
    hide Home, Queued;
    NoOwn(a, p, QueueAt(c, q, Home(c, a)));
  }

  lemma TakeFromInOrder(c: Config, t: int, banks: BankTable, q: QueueState, cur: Cursor, i: nat, a: nat)
    requires TableShape(c, banks) && Shape(c, q) && QueuesOK(c, t + 1, banks, q)
    requires AllAtTheirAddress(c, q.queues) && InGrid(c, cur)
    requires i < |QueueAt(c, q, cur)| && Eligible(c, t, banks, q, QueueAt(c, q, cur), i)
    ensures QueueAt(c, q, cur)[i].rank < c.NumRanks() && QueueAt(c, q, cur)[i].bank < c.NumBanks()
    ensures TakesNext(c, a, q, TakeFrom(c, q, cur, i), Some(QueueAt(c, q, cur)[i]))
  {
    var r, s := cur.rank, Slot(c, cur.bank);
    var queue := q.queues[r][s];
    EntryOf(c, t + 1, banks, q, r, s, i);
    NoneBefore(c, t, banks, q, r, s, i);
    hide QueuesOK, Queued, Home, AllAtTheirAddress, Eligible, Put, TakesNext, Drop;
    if c.policy == OpenPage && i > 0 && queue[i - 1].kind == ACTIVATE {
      PairInOrder(c, a, q, TakeFrom(c, q, cur, i), r, s, i);
    } else {
      TakesOne(c, a, q, TakeFrom(c, q, cur, i), r, s, i);
    }
  }

  lemma NoneBefore(c: Config, t: int, banks: BankTable, q: QueueState, r: nat, s: nat, i: nat)
    requires TableShape(c, banks) && Shape(c, q) && QueuesOK(c, t + 1, banks, q) && AllAtTheirAddress(c, q.queues)
    requires r < c.NumRanks() && s < |q.queues[r]| && Eligible(c, t, banks, q, q.queues[r][s], i)
    ensures forall j, a :: 0 <= j < i && IsAccess(a, q.queues[r][s][i]) ==> !IsAccess(a, q.queues[r][s][j])
  {
    SlotFacts(c, t, banks, q, r, s);
    var queue := q.queues[r][s];
    if queue[i].IsColumn() {
      PickedColumn(c, t, banks, q, r, s, i);
      assert !Bare(queue, i) ==> !EarlierColumn(queue, i);
      hide QueuesOK, AllAtTheirAddress, Eligible;
      NoneEarlier(c, t + 1, banks, q, r, s, i);
    }
  }

  lemma PairInOrder(c: Config, a: nat, q: QueueState, q': QueueState, r: nat, s: nat, i: nat)
    requires Shape(c, q) && Shape(c, q') && AllAtTheirAddress(c, q.queues)
    requires r < c.NumRanks() && s < |q.queues[r]| && 0 < i < |q.queues[r][s]| && Entry(c, r, s, q.queues[r][s][i])
    requires q.queues[r][s][i - 1].kind == ACTIVATE
    requires q'.queues == Put(q.queues, r, s, q.queues[r][s][..i - 1] + q.queues[r][s][i + 1..])
    requires forall j :: 0 <= j < i && IsAccess(a, q.queues[r][s][i]) ==> !IsAccess(a, q.queues[r][s][j])
    ensures TakesNext(c, a, q, q', Some(q.queues[r][s][i]))
  {
    hide Queued, Home, AllAtTheirAddress, Put, Slot;
    var queue := q.queues[r][s];
    var q1 := q.(queues := Put(q.queues, r, s, Drop(queue, i)));
    TakesOne(c, a, q, q1, r, s, i);
    PutTwice(q.queues, r, s, Drop(queue, i), queue[..i - 1] + queue[i + 1..]);
    DropsActivate(c, a, q1, q', r, s, i - 1, queue);
  }

  // In open page the activate before a column access is dropped with it.
  lemma DropsActivate(c: Config, a: nat, q: QueueState, q': QueueState, r: nat, s: nat, i: nat, queue: seq<BusPacket>)
    requires Shape(c, q) && Shape(c, q') && r < c.NumRanks() && s < |q.queues[r]| && i + 1 < |queue|
    requires q.queues[r][s] == Drop(queue, i + 1) && queue[i].kind == ACTIVATE
    requires q'.queues == Put(q.queues, r, s, queue[..i] + queue[i + 2..])
    ensures Queued(a, QueueAt(c, q', Home(c, a))) == Queued(a, QueueAt(c, q, Home(c, a)))
  {
    hide Queued, Home, Put, Slot;
    var rest := Drop(queue, i + 1);
    assert rest[i] == queue[i];
    LeavesQueue(a, rest, i);
    assert Drop(rest, i) == queue[..i] + queue[i + 2..];
    NoOwn(a, Some(rest[i]), Drop(rest, i));
    PutAt(c, q, q', r, s, Drop(rest, i), Home(c, a));
  }

  lemma ScanQueuesInOrder(c: Config, t: int, banks: BankTable, q: QueueState, a: nat)
    requires TableShape(c, banks) && Shape(c, q) && QueuesOK(c, t + 1, banks, q) && AllAtTheirAddress(c, q.queues)
    ensures var (q', p) := ScanQueues(c, t, banks, q); TakesNext(c, a, q, q', p)
  {
    hide QueuesOK, Queued, Home, AllAtTheirAddress, Eligible, TakeFrom, AdvanceQueue, TakesNext;
    var k := FirstReady(c, t, banks, q);
    if k < Lap(c) {
      var cur := AdvanceQueue(c, q.next, k);
      TakeFromInOrder(c, t, banks, q, cur, FirstEligible(c, t, banks, q, QueueAt(c, q, cur)), a);
    } else {
      SameInOrder(c, a, q, q, None);
    }
  }

  lemma ScanBanksInOrder(c: Config, t: int, banks: BankTable, q: QueueState, a: nat)
    requires TableShape(c, banks) && Shape(c, q)
    ensures var (q', p) := ScanBanks(c, t, banks, q); TakesNext(c, a, q, q', p)
  {
    hide TakesNext, FirstClosable, AdvanceBank;
    var (q', p) := ScanBanks(c, t, banks, q);
    SameInOrder(c, a, q, q', p);
  }

  lemma ChooseInOrder(c: Config, t: int, banks: BankTable, q: QueueState, a: nat)
    requires c.Valid() && QueuesOK(c, t + 1, banks, q) && AllAtTheirAddress(c, q.queues)
    ensures var (q', p) := Choose(c, t, banks, q); TakesNext(c, a, q, q', p)
  {
    RefreshWorkIsSafe(c, t, banks, q);
    ScanQueuesIsSafe(c, t, banks, q);
    RefreshWorkInOrder(c, t, banks, q, a);
    ScanQueuesInOrder(c, t, banks, q, a);
    ScanBanksInOrder(c, t, banks, q, a);
    hide RefreshWork, ScanQueues, ScanBanks, QueuesOK, TakesNext, AllAtTheirAddress, SafePop;
  }

  // Whatever is popped: if it is an access, it is the next one to its address.
  lemma PopInOrder(c: Config, t: int, banks: BankTable, q: QueueState, a: nat)
    requires c.Valid() && QueuesOK(c, t + 1, banks, q) && AllAtTheirAddress(c, q.queues)
    ensures var (q', p) := PopSpec(c, t, banks, q); TakesNext(c, a, q, q', p)
  {
    hide Choose, QueuesOK, AllAtTheirAddress, AgeWindow, NextRankAndBank, Queued, Home;
    AgedWindowsAreSafe(c, t + 1, banks, q);
    ChooseInOrder(c, t, banks, AgeWindows(q), a);
  }

  // ---- A transaction is taken up ----

  lemma TwoQueued(a: nat, queue: seq<BusPacket>, x: BusPacket, p: BusPacket)
    requires x.kind == ACTIVATE
    ensures Queued(a, queue + [x, p]) == Queued(a, queue) + Own(a, Some(p))
  {
    assert queue + [x, p] == (queue + [x]) + [p];
    QueuedConcat(a, queue + [x], [p]);
    QueuedConcat(a, queue, [x]);
    OneQueued(a, x);
    OneQueued(a, p);
    hide Queued;
  }

  lemma ExpandedAccess(c: Config, a: nat, q: QueueState, tr: Transaction, q': QueueState)
    requires Shape(c, q) && Shape(c, q') && Expanded(c, q, tr, q')
    ensures Queued(a, QueueAt(c, q', Home(c, a)))
         == Queued(a, QueueAt(c, q, Home(c, a))) + if tr.address == a then [tr.isWrite] else []
  {
    var cur := Target(c, tr);
    var x, p := CommandFor(c, ACTIVATE, tr), CommandFor(c, CommandKind(c, tr), tr);
    assert IsAccess(a, p) <==> tr.address == a;
    assert tr.address == a ==> Home(c, a) == cur;
    hide Queued, Home, Target, Put, CommandFor, CommandKind;
    TwoQueued(a, QueueAt(c, q, cur), x, p);
    PutAt(c, q, q', cur.rank, Slot(c, cur.bank), QueueAt(c, q, cur) + [x, p], Home(c, a));
    SameQueue(c, q, cur, Home(c, a));
  }

  lemma SameQueue(c: Config, q: QueueState, x: Cursor, y: Cursor)
    requires Shape(c, q) && InGrid(c, x) && InGrid(c, y)
    ensures x.rank == y.rank && Slot(c, x.bank) == Slot(c, y.bank) ==> QueueAt(c, q, x) == QueueAt(c, q, y)
  {
  }

  // Serving the first transaction with room moves the next access to the address from the
  // line to its queue, or none.
  lemma ServedInOrder(c: Config, s: ChannelState, s': ChannelState, q: QueueState, k: nat, a: nat)
    requires WellFormed(c, s) && WellFormed(c, s') && Shape(c, q) && Serves(c, s, s', q, k)
    requires k == Inside(c, s) ==> s'.mc.queue.queues == q.queues
    ensures Queued(a, QueueAt(c, s'.mc.queue, Home(c, a))) + Asked(a, Line(s'))
         == Queued(a, QueueAt(c, q, Home(c, a))) + Asked(a, Line(s))
  {
    hide Queued, Asked, Home, Expanded, HasRoomFor, Inside;
    var line, n := Line(s), Inside(c, s);
    if k < n {
      ExpandedAccess(c, a, q, line[k], s'.mc.queue);
      assert Line(s') == Drop(line, k);
      NoneAskedBefore(c, q, line, k, a);
      LeavesLine(a, line, k);
      Regroup(Queued(a, QueueAt(c, q, Home(c, a))), if line[k].address == a then [line[k].isWrite] else [], Asked(a, Line(s')));
    } else {
      assert Line(s') == line;
      assert QueueAt(c, s'.mc.queue, Home(c, a)) == QueueAt(c, q, Home(c, a));
    }
  }

  lemma Regroup(x: seq<bool>, y: seq<bool>, z: seq<bool>)
    ensures (x + y) + z == x + (y + z)
  {
  }

  lemma NoneAskedBefore(c: Config, q: QueueState, line: seq<Transaction>, k: nat, a: nat)
    requires Shape(c, q) && k < |line| && HasRoomFor(c, q, 2, Target(c, line[k]))
    requires forall j :: 0 <= j < k ==> !HasRoomFor(c, q, 2, Target(c, line[j]))
    ensures line[k].address == a ==> forall j :: 0 <= j < k ==> line[j].address != a
  {
    hide HasRoomFor;
    forall j | 0 <= j < k ensures line[j].address != line[k].address {
      SameTarget(c, line[j], line[k]);
    }
  }

  lemma SameTarget(c: Config, x: Transaction, y: Transaction)
    ensures x.address == y.address ==> Target(c, x) == Target(c, y)
  {
  }

  // ---- Cycles and runs ----

  // Every cycle keeps the order of the accesses to each address.
  lemma CycleKeepsOrder(c: Config, s: ChannelState, a: nat)
    requires c.Valid() && WellFormed(c, s) && Safe(c, s) && Update(c, s).Ok? && Addressed(c, s)
    ensures Accesses(c, Update(c, s).value, a) == Accesses(c, s, a)
  {
    hide Safe, Update, PopState, PopSpec, AtDataBus, QueuesOK, Queued, Asked, Home, Serves, Addressed, AllAtTheirAddress, TakesNext,
         PoweredTable, Expanded, IssueAll, AgeAll, Line, Inside, FirstWithRoom;
    CycleShape(c, s);
    PopStateIs(c, s);
    EveryCycleServesTheFirst(c, s);
    var s1, s' := PopState(c, s).value, Update(c, s).value;
    QueuesAtPop(c, s1);
    AddressesOf(c, s, s1.mc.queue);
    PopInOrder(c, s.clock, s1.mc.banks, s1.mc.queue, a);
    var (q, p) := PopSpec(c, s.clock, s1.mc.banks, s1.mc.queue);
    ServedAtEnd(c, s, s', q, FirstWithRoom(c, q, Line(s)[..Inside(c, s)]), a);
    SentNext(a, s.mc.issued, p);
    OrderOf(c, s, s1, s', q, p, a);
  }

  lemma ServedAtEnd(c: Config, s: ChannelState, s': ChannelState, q: QueueState, k: nat, a: nat)
    requires WellFormed(c, s) && WellFormed(c, s') && Shape(c, q) && Serves(c, s, s', q, k)
    ensures Queued(a, QueueAt(c, s'.mc.queue, Home(c, a))) + Asked(a, Line(s'))
         == Queued(a, QueueAt(c, q, Home(c, a))) + Asked(a, Line(s))
  {
    hide Queued, Asked, Home, Line, Expanded, HasRoomFor;
    ServedInOrder(c, s, s', q, k, a);
  }

  lemma OrderOf(c: Config, s: ChannelState, s1: ChannelState, s': ChannelState, q: QueueState, p: Option<BusPacket>, a: nat)
    requires WellFormed(c, s) && WellFormed(c, s1) && WellFormed(c, s') && Shape(c, q)
    requires s1.mc.queue.queues == s.mc.queue.queues && TakesNext(c, a, s1.mc.queue, q, p)
    requires Sent(a, s'.mc.issued) == Sent(a, s.mc.issued) + Own(a, p)
    requires Queued(a, QueueAt(c, s'.mc.queue, Home(c, a))) + Asked(a, Line(s'))
          == Queued(a, QueueAt(c, q, Home(c, a))) + Asked(a, Line(s))
    ensures Accesses(c, s', a) == Accesses(c, s, a)
  {
    hide Queued, Asked, Home, Line, Sent, Own;
    assert QueueAt(c, s1.mc.queue, Home(c, a)) == QueueAt(c, s.mc.queue, Home(c, a));
    Rejoin(Sent(a, s.mc.issued), Own(a, p), Queued(a, QueueAt(c, q, Home(c, a))), Asked(a, Line(s)),
           Queued(a, QueueAt(c, s'.mc.queue, Home(c, a))), Asked(a, Line(s')));
  }

  lemma Rejoin(x: seq<bool>, y: seq<bool>, u: seq<bool>, v: seq<bool>, u': seq<bool>, v': seq<bool>)
    requires u' + v' == u + v
    ensures (x + y) + u' + v' == x + (y + u) + v
  {
    assert (x + y) + u' + v' == (x + y) + (u' + v');
    assert x + (y + u) + v == (x + y) + (u + v);
  }

  lemma SentNext(a: nat, issued: seq<Option<BusPacket>>, p: Option<BusPacket>)
    ensures Sent(a, issued + [p]) == Sent(a, issued) + Own(a, p)
  {
    assert (issued + [p])[..|issued|] == issued;
  }

  lemma AddressesOf(c: Config, s: ChannelState, q: QueueState)
    requires Addressed(c, s) && q.queues == s.mc.queue.queues
    ensures AllAtTheirAddress(c, q.queues)
  {
    hide AtItsAddress, AllAtTheirAddress, InQueues;
    NoneAstray(c, s.mc.queue.queues);
  }

  // ---- New transactions ----

  // A new transaction is the last access to its address, except when it gets past one
  // that waits outside.
  lemma NewAccessIsLast(c: Config, s: ChannelState, tr: Transaction, a: nat)
    requires WellFormed(c, s)
    requires tr.address != a || !WillAcceptTransaction(c, s) || forall j :: 0 <= j < |s.pending| ==> s.pending[j].address != a
    ensures Accesses(c, AddTransaction(c, s, tr), a) == Accesses(c, s, a) + if tr.address == a then [tr.isWrite] else []
  {
    hide Queued, Asked, Home, Sent;
    var tq, pending := s.mc.transactionQueue, s.pending;
    OneAsked(a, tr);
    AskedConcat(a, tq, pending);
    if WillAcceptTransaction(c, s) {
      assert Line(AddTransaction(c, s, tr)) == (tq + [tr]) + pending;
      AskedConcat(a, tq + [tr], pending);
      AskedConcat(a, tq, [tr]);
      if tr.address == a {
        NoneAsked(a, pending);
      }
    } else {
      assert Line(AddTransaction(c, s, tr)) == tq + (pending + [tr]);
      AskedConcat(a, tq, pending + [tr]);
      AskedConcat(a, pending, [tr]);
    }
  }

  lemma {:induction false} OthersKeepOrder(c: Config, s: ChannelState, trs: seq<Transaction>, a: nat)
    requires WellFormed(c, s) && forall j :: 0 <= j < |trs| ==> trs[j].address != a
    ensures Accesses(c, AddAll(c, s, trs), a) == Accesses(c, s, a)
    decreases trs
  {
    hide WellFormed, Accesses, AddTransaction;
    if trs != [] {
      NewAccessIsLast(c, s, trs[0], a);
      OthersKeepOrder(c, AddTransaction(c, s, trs[0]), trs[1..], a);
    }
  }

  ghost predicate NoneFor(a: nat, requests: seq<seq<Transaction>>) {
    forall n, j :: 0 <= n < |requests| && 0 <= j < |requests[n]| ==> requests[n][j].address != a
  }

  lemma {:induction false} RunKeepsOrder(c: Config, s: ChannelState, during: seq<seq<Transaction>>, a: nat)
    requires c.Valid() && WellFormed(c, s) && Safe(c, s) && Addressed(c, s) && NoneFor(a, during) && Run(c, s, during).Ok?
    ensures Accesses(c, Run(c, s, during).value, a) == Accesses(c, s, a)
    decreases during
  {
    hide WellFormed, Safe, Update, Accesses, AddAll;
    if during != [] {
      var s1 := AddAll(c, s, during[0]);
      OthersKeepOrder(c, s, during[0], a);
      AddAllKeeps(c, s, during[0]);
      AddAllOnlyRequests(c, s, during[0]);
      UpdateIsSafe(c, s1);
      CycleKeepsOrder(c, s1, a);
      UpdateKeepsAddresses(c, s1);
      RunKeepsOrder(c, Update(c, s1).value, during[1..], a);
    }
  }

  // In every run, from every point on, while no new access to an address is asked for:
  // the accesses sent and still to be sent stay the same, in the same order. So what is
  // waiting is sent in the order in which it came, whatever goes on at other addresses.
  lemma EveryAddressInOrder(c: Config, before: seq<seq<Transaction>>, during: seq<seq<Transaction>>, a: nat)
    requires c.Valid() && Run(c, Initial(c), before).Ok? && NoneFor(a, during)
    ensures var s := Run(c, Initial(c), before).value;
      Run(c, s, during).Ok? ==> Accesses(c, Run(c, s, during).value, a) == Accesses(c, s, a)
  {
    hide Safe, Run, Initial, WellFormed, Addressed, Accesses, Cycle, Requested, NoneFor;
    InitialAddresses(c);
    var inv := (s: ChannelState) => Addressed(c, s);
    forall s, s' | Requested(c, s, s') && inv(s) ensures inv(s') {
      RequestsKeepAddresses(c, s, s');
    }
    forall s, s' | Cycle(c, s, s') && inv(s) ensures inv(s') {
      CycleKeepsAddresses(c, s, s');
    }
    RunKeeps(c, inv, before);
    NoErrorExit(c, before);
    var s := Run(c, Initial(c), before).value;
    if Run(c, s, during).Ok? {
      RunKeepsOrder(c, s, during, a);
    }
  }

  lemma RequestsKeepAddresses(c: Config, s: ChannelState, s': ChannelState)
    requires Requested(c, s, s') && Addressed(c, s)
    ensures Addressed(c, s')
  {
    hide WellFormed, InQueues, AtItsAddress;
  }

  lemma CycleKeepsAddresses(c: Config, s: ChannelState, s': ChannelState)
    requires Cycle(c, s, s') && Addressed(c, s)
    ensures Addressed(c, s')
  {
    hide WellFormed, Safe, Update, Addressed;
    UpdateKeepsAddresses(c, s);
  }
}
