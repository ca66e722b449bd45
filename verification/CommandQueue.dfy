// The command queue object: in-place queues, scheduling positions, activation windows
// and row counters, and the loops that search them.
module CommandQueues {
  import opened Wrappers
  import opened SystemConfiguration
  import opened BankState
  import opened Scheduler
  import opened RoundRobin
  import opened Channel
  import opened Sequences

  // The controller's bank table, shared with its command queue.
  class SharedBanks {
    var table: BankTable

    constructor (table: BankTable)
      ensures this.table == table
    {
      this.table := table;
    }
  }

  // Every queued packet names a bank that exists.
  ghost predicate Placed(c: Config, queue: seq<BusPacket>) {
    forall i :: 0 <= i < |queue| ==>
      queue[i].rank < c.NumRanks() && queue[i].bank < c.NumBanks() && queue[i].kind != DATA
  }

  ghost predicate AllPlaced(c: Config, q: QueueState) {
    forall r, s :: 0 <= r < |q.queues| && 0 <= s < |q.queues[r]| ==> Placed(c, q.queues[r][s])
  }

  class CommandQueue {
    const c: Config
    const banks: SharedBanks
    var currentClockCycle: nat
    var queues: seq<seq<seq<BusPacket>>>
    var nextRank: nat
    var nextBank: nat
    var nextRankPRE: nat
    var nextBankPRE: nat
    var refreshRank: nat
    var refreshWaiting: bool
    var tFAWCountdown: seq<seq<nat>>
    var rowAccessCounters: seq<seq<nat>>
    var sendAct: bool

    function State(): QueueState
      reads this
    {
      QueueState(queues, Cursor(nextRank, nextBank), Cursor(nextRankPRE, nextBankPRE), refreshRank, refreshWaiting,
                 tFAWCountdown, rowAccessCounters, sendAct)
    }

    ghost predicate Valid()
      reads this, banks
    {
      Shape(c, State()) && TableShape(c, banks.table) && AllPlaced(c, State())
    }

    constructor (c: Config, banks: SharedBanks)
      requires TableShape(c, banks.table)
      ensures Valid() && this.c == c && this.banks == banks && currentClockCycle == 0 && State() == InitialQueue(c)
    {
      this.c, this.banks := c, banks;
      currentClockCycle := 0;
      nextRank, nextBank, nextRankPRE, nextBankPRE := 0, 0, 0, 0;
      refreshRank, refreshWaiting, sendAct := 0, false, true;
      tFAWCountdown := Repeat(c.NumRanks(), []);
      rowAccessCounters := Repeat(c.NumRanks(), Repeat(c.NumBanks(), 0));
      queues := [];
      new;
      // The per-rank list is never cleared, so each rank gets more queues than the last.
      var perBankQueue: seq<seq<BusPacket>> := [];
      var rank := 0;
      while rank < c.NumRanks()
        modifies `queues
        invariant 0 <= rank <= c.NumRanks()
        invariant queues == EmptyQueues(c, rank) && perBankQueue == ManyEmpty(c, rank)
      {
        ghost var before := perBankQueue;
        var bank := 0;
        while bank < NumSlots(c)
          modifies {}
          invariant 0 <= bank <= NumSlots(c)
          invariant perBankQueue == before + Repeat(bank, [])
        {
          perBankQueue := perBankQueue + [[]];
          bank := bank + 1;
          assert perBankQueue == before + Repeat(bank, []);
        }
        rank := rank + 1;
        queues := queues + [perBankQueue];
      }
    }

    function GetCommandQueue(rank: nat, bank: nat): seq<BusPacket>
      requires Shape(c, State()) && InGrid(c, Cursor(rank, bank))
      reads this
    {
      match c.queuing
      case PerRankPerBank => queues[rank][bank]
      case PerRank => queues[rank][0]
    }

    // Whether a packet may go on the command bus now.
    method IsIssuable(p: BusPacket) returns (yes: bool)
      requires Valid() && p.rank < c.NumRanks() && p.bank < c.NumBanks() && p.kind != DATA
      ensures yes == Issuable(c, currentClockCycle, banks.table, State(), p)
    {
      var m := banks.table[p.rank][p.bank];
      match p.kind
      case REFRESH => yes := false;
      case ACTIVATE =>
        yes := (m.state == Idle || m.state == Refreshing) && currentClockCycle >= m.nextActivate
               && |tFAWCountdown[p.rank]| < 4;
      case WRITE | WRITE_P =>
        yes := m.state == RowActive && currentClockCycle >= m.nextWrite && p.row == m.openRow
               && rowAccessCounters[p.rank][p.bank] < c.totalRowAccesses;
      case READ | READ_P =>
        yes := m.state == RowActive && currentClockCycle >= m.nextRead && p.row == m.openRow
               && rowAccessCounters[p.rank][p.bank] < c.totalRowAccesses;
      case PRECHARGE => yes := m.state == RowActive && currentClockCycle >= m.nextPrecharge;
    }

    method HasRoom(numberToEnqueue: nat, rank: nat, bank: nat) returns (yes: bool)
      requires Valid() && InGrid(c, Cursor(rank, bank))
      ensures yes == HasRoomFor(c, State(), numberToEnqueue, Cursor(rank, bank))
    {
      var queue := GetCommandQueue(rank, bank);
      yes := |queue| > c.cmdQueueDepth || c.cmdQueueDepth - |queue| >= numberToEnqueue;
    }

    method Enqueue(p: BusPacket) returns (error: Option<Error>)
      requires Valid() && p.rank < c.NumRanks() && p.bank < c.NumBanks() && p.kind != DATA
      modifies this
      ensures currentClockCycle == old(currentClockCycle)
      ensures match Channel.Enqueue(c, old(State()), p)
              case Halt(e) => error == Some(e)
              case Ok(q) => error.None? && Valid() && State() == q
    {
      var slot := Slot(c, p.bank);
      queues := Put(queues, p.rank, slot, queues[p.rank][slot] + [p]);
      error := if |queues[p.rank][slot]| > c.cmdQueueDepth then Some(QueueOverflow) else None;
    }

    method IsEmpty(rank: nat) returns (yes: bool)
      requires Valid() && rank < c.NumRanks()
      ensures yes == RankQueuesEmpty(c, State(), rank)
    {
      if c.queuing == PerRank {
        return queues[rank][0] == [];
      }
      var i := 0;
      while i < c.NumBanks()
        invariant 0 <= i <= c.NumBanks()
        invariant forall j :: 0 <= j < i ==> queues[rank][j] == []
      {
        if queues[rank][i] != [] {
          return false;
        }
        i := i + 1;
      }
      return true;
    }

    method NeedsRefresh(rank: nat)
      requires Valid() && rank < c.NumRanks()
      modifies this
      ensures Valid() && currentClockCycle == old(currentClockCycle) && State() == NeedRefresh(old(State()), rank)
    {
      refreshWaiting := true;
      refreshRank := rank;
    }

    method NextRankBank(rank: nat, bank: nat) returns (rank': nat, bank': nat)
      requires InGrid(c, Cursor(rank, bank))
      ensures Cursor(rank', bank') == NextRankAndBank(c, Cursor(rank, bank))
    {
      rank', bank' := rank, bank;
      match c.scheduling
      case RankThenBankRoundRobin =>
        rank' := rank' + 1;
        if rank' == c.NumRanks() {
          rank' := 0;
          bank' := bank' + 1;
          if bank' == c.NumBanks() {
            bank' := 0;
          }
        }
      case BankThenRankRoundRobin =>
        bank' := bank' + 1;
        if bank' == c.NumBanks() {
          bank' := 0;
          rank' := rank' + 1;
          if rank' == c.NumRanks() {
            rank' := 0;
          }
        }
    }

    // ---- pop, step by step ----

    // Count the activation windows down and drop what has run out.
    method AgeActivations()
      requires Valid()
      modifies this`tFAWCountdown
      ensures Valid() && State() == AgeWindows(old(State()))
    {
      ghost var before := tFAWCountdown;
      var i := 0;
      while i < c.NumRanks()
        modifies `tFAWCountdown
        invariant 0 <= i <= c.NumRanks() == |tFAWCountdown| == |before|
        invariant forall r :: 0 <= r < |before| ==> tFAWCountdown[r] == if r < i then AgeWindow(before[r]) else before[r]
      {
        var w := tFAWCountdown[i];
        var j := 0;
        while j < |w|
          modifies {}
          invariant 0 <= j <= |w| == |before[i]|
          invariant forall k :: 0 <= k < |w| ==> w[k] == if k < j then Dec32(before[i][k]) else before[i][k]
        {
          w := w[j := Dec32(w[j])];
          j := j + 1;
        }
        assert w == seq(|before[i]|, k requires 0 <= k < |before[i]| => Dec32(before[i][k]));
        if |w| > 0 && w[0] == 0 {
          w := w[1..];
        }
        tFAWCountdown := tFAWCountdown[i := w];
        i := i + 1;
      }
      assert tFAWCountdown == AgeWindows(old(State())).tFAWCountdown;
    }

    // Closed page: send what the open bank still waits for, or the refresh itself.
    method RefreshClosePage() returns (packet: Option<BusPacket>)
      requires Valid() && c.policy == ClosePage
      modifies this
      ensures Valid() && currentClockCycle == old(currentClockCycle)
      ensures (State(), packet) == RefreshWork(c, currentClockCycle, banks.table, old(State()))
    {
      packet := None;
      if refreshWaiting {
        var r := refreshRank;
        var b := 0;
        while b < c.NumBanks()
          invariant Valid() && State() == old(State()) && currentClockCycle == old(currentClockCycle)
          invariant 0 <= b <= c.NumBanks()
          invariant forall a :: 0 <= a < b ==>
            banks.table[r][a].state != RowActive && banks.table[r][a].nextActivate <= currentClockCycle
        {
          var m := banks.table[r][b];
          if m.state == RowActive {
            assert FirstBusy(currentClockCycle, banks.table[r]) == b;
            packet := SendToOpenRow(b);
            return;
          } else if m.nextActivate > currentClockCycle {
            assert FirstBusy(currentClockCycle, banks.table[r]) == b;
            return;
          }
          b := b + 1;
        }
        assert FirstBusy(currentClockCycle, banks.table[r]) == c.NumBanks();
        if banks.table[r][0].state != PowerDown {
          packet := Some(BusPacket(REFRESH, 0, 0, 0, r, 0));
          refreshRank := NO_RANK;
          refreshWaiting := false;
        }
      }
    }

    // The part of the search that looks at the first packet for the open row of bank b.
    method SendToOpenRow(b: nat) returns (packet: Option<BusPacket>)
      requires Valid() && refreshWaiting && b < c.NumBanks() && c.policy == ClosePage
      requires banks.table[refreshRank][b].state == RowActive
      requires FirstBusy(currentClockCycle, banks.table[refreshRank]) == b
      modifies this
      ensures Valid() && currentClockCycle == old(currentClockCycle)
      ensures (State(), packet) == RefreshWork(c, currentClockCycle, banks.table, old(State()))
    {
      packet := None;
      var r, open := refreshRank, banks.table[refreshRank][b].openRow;
      var queue := GetCommandQueue(r, b);
      var j := 0;
      while j < |queue|
        invariant Valid() && State() == old(State()) && currentClockCycle == old(currentClockCycle)
        invariant 0 <= j <= |queue|
        invariant forall i :: 0 <= i < j ==> !GoesTo(queue[i], b, open)
      {
        var p := queue[j];
        if GoesTo(p, b, open) {
          assert FirstTo(queue, b, open) == j;
          assert Placed(c, queue);
          var issuable := IsIssuable(p);
          if p.kind != ACTIVATE && issuable {
            packet := Some(p);
            EraseKeepsPlaced(c, State(), r, Slot(c, b), j);
            queues := Put(queues, r, Slot(c, b), Drop(queue, j));
          }
          return;
        }
        j := j + 1;
      }
      assert FirstTo(queue, b, open) == |queue|;
    }

    // Open page: as above, and an open row nobody wants is closed first.
    method RefreshOpenPage() returns (packet: Option<BusPacket>)
      requires Valid() && c.policy == OpenPage
      modifies this
      ensures Valid() && currentClockCycle == old(currentClockCycle)
      ensures (State(), packet) == RefreshWork(c, currentClockCycle, banks.table, old(State()))
    {
      packet := None;
      if refreshWaiting {
        var r := refreshRank;
        var b := 0;
        while b < c.NumBanks()
          invariant Valid() && State() == old(State()) && currentClockCycle == old(currentClockCycle)
          invariant 0 <= b <= c.NumBanks()
          invariant forall a :: 0 <= a < b ==>
            banks.table[r][a].state != RowActive && banks.table[r][a].nextActivate <= currentClockCycle
        {
          var m := banks.table[r][b];
          if m.state == RowActive {
            assert FirstBusy(currentClockCycle, banks.table[r]) == b;
            packet := SendOrClose(b);
            return;
          } else if m.nextActivate > currentClockCycle {
            assert FirstBusy(currentClockCycle, banks.table[r]) == b;
            return;
          }
          b := b + 1;
        }
        assert FirstBusy(currentClockCycle, banks.table[r]) == c.NumBanks();
        if banks.table[r][0].state != PowerDown {
          packet := Some(BusPacket(REFRESH, 0, 0, 0, r, 0));
          refreshRank := NO_RANK;
          refreshWaiting := false;
        }
      }
    }

    method SendOrClose(b: nat) returns (packet: Option<BusPacket>)
      requires Valid() && refreshWaiting && b < c.NumBanks() && c.policy == OpenPage
      requires banks.table[refreshRank][b].state == RowActive
      requires FirstBusy(currentClockCycle, banks.table[refreshRank]) == b
      modifies this
      ensures Valid() && currentClockCycle == old(currentClockCycle)
      ensures (State(), packet) == RefreshWork(c, currentClockCycle, banks.table, old(State()))
    {
      hide FirstBusy, Issuable, EarlierColumn;
      packet := None;
      var closeRow := true;
      var r, open := refreshRank, banks.table[refreshRank][b].openRow;
      var refreshQueue := GetCommandQueue(r, b);
      var j := 0;
      while j < |refreshQueue|
        invariant Valid() && State() == old(State()) && currentClockCycle == old(currentClockCycle)
        invariant 0 <= j <= |refreshQueue| && closeRow && packet.None?
        invariant forall i :: 0 <= i < j ==> !GoesTo(refreshQueue[i], b, open)
      {
        var p := refreshQueue[j];
        if GoesTo(p, b, open) {
          assert FirstTo(refreshQueue, b, open) == j;
          if p.kind != ACTIVATE {
            closeRow := false;
            assert Placed(c, refreshQueue);
            var issuable := IsIssuable(p);
            if issuable {
              EraseKeepsPlaced(c, State(), r, Slot(c, b), j);
              queues := Put(queues, r, Slot(c, b), Drop(refreshQueue, j));
              return Some(p);
            }
            return None;
          }
          break;
        }
        j := j + 1;
      }
      assert FirstTo(refreshQueue, b, open) == j;
      if closeRow && currentClockCycle >= banks.table[r][b].nextPrecharge {
        rowAccessCounters := Put(rowAccessCounters, r, b, 0);
        packet := Some(BusPacket(PRECHARGE, 0, 0, 0, r, b));
      }
    }

    // The first packet of a closed-page queue that may leave it.
    method FirstInClosePage(queue: seq<BusPacket>) returns (i: nat)
      requires Valid() && Placed(c, queue) && c.policy == ClosePage
      ensures i == FirstEligible(c, currentClockCycle, banks.table, State(), queue)
    {
      hide Issuable, Shape, AllPlaced, TableOf, TableShape, EarlierColumn;
      if c.queuing == PerRank {
        i := 0;
        while i < |queue|
          invariant i <= |queue|
          invariant forall j :: 0 <= j < i ==> !Eligible(c, currentClockCycle, banks.table, State(), queue, j)
        {
          var issuable := IsIssuable(queue[i]);
          if issuable {
            // a column access still paired with its activate stays
            if !(i > 0 && queue[i - 1].kind == ACTIVATE && queue[i - 1].address == queue[i].address) {
              FirstEligibleIs(c, currentClockCycle, banks.table, State(), queue, i);
              return;
            }
          }
          i := i + 1;
        }
      } else {
        if |queue| > 0 {
          var issuable := IsIssuable(queue[0]);
          if issuable {
            return 0;
          }
        }
        i := |queue|;
      }
    }

    // The first packet of an open-page queue that may leave it.
    method FirstInOpenPage(queue: seq<BusPacket>) returns (i: nat)
      requires Valid() && Placed(c, queue) && c.policy == OpenPage
      ensures i == FirstEligible(c, currentClockCycle, banks.table, State(), queue)
    {
      hide Issuable, Shape, AllPlaced, TableOf;
      i := 0;
      while i < |queue|
        invariant i <= |queue|
        invariant forall j :: 0 <= j < i ==> !Eligible(c, currentClockCycle, banks.table, State(), queue, j)
      {
        var packet := queue[i];
        var issuable := IsIssuable(packet);
        if issuable {
          var dependencyFound := false;
          var j := 0;
          while j < i
            invariant 0 <= j <= i
            invariant !dependencyFound && forall l :: 0 <= l < j ==>
              !(queue[l].kind != ACTIVATE && queue[l].bank == packet.bank && queue[l].row == packet.row)
          {
            if queue[j].kind != ACTIVATE && queue[j].bank == packet.bank && queue[j].row == packet.row {
              dependencyFound := true;
              break;
            }
            j := j + 1;
          }
          if !dependencyFound {
            FirstEligibleIs(c, currentClockCycle, banks.table, State(), queue, i);
            return;
          }
        }
        i := i + 1;
      }
    }

    // The next queue in round-robin order.
    method AdvanceCursor()
      requires Valid()
      modifies `nextRank, `nextBank
      ensures Valid() && State() == old(State()).(next := NextQueue(c, old(State()).next))
    {
      if c.queuing == PerRank {
        nextRank := (nextRank + 1) % c.NumRanks();
      } else {
        nextRank, nextBank := NextRankBank(nextRank, nextBank);
      }
    }

    // Take the first packet that may leave the queue at the cursor.
    method TryQueue() returns (packet: Option<BusPacket>)
      requires Valid()
      modifies this
      ensures Valid() && currentClockCycle == old(currentClockCycle)
      ensures var q, cur := old(State()), old(State()).next;
        if Ready(c, currentClockCycle, banks.table, q, cur) then
          var i := FirstEligible(c, currentClockCycle, banks.table, q, QueueAt(c, q, cur));
          packet == Some(QueueAt(c, q, cur)[i]) && State() == TakeFrom(c, q, cur, i)
        else packet.None? && State() == q
    {
      hide TakeFrom, Issuable, Placed, TableOf, EarlierColumn;
      packet := None;
      var queue := GetCommandQueue(nextRank, nextBank);
      assert Placed(c, queue);
      if queue != [] && !(nextRank == refreshRank && refreshWaiting) {
        var i;
        if c.policy == ClosePage {
          i := FirstInClosePage(queue);
        } else {
          i := FirstInOpenPage(queue);
        }
        if i < |queue| {
          packet := Some(queue[i]);
          TakeOut(i);
        }
      }
    }

    // Round robin over the queues for the first packet that may go. In open page the
    // activate just before the packet goes with it, and the row counter counts it.
    method ScanAllQueues() returns (packet: Option<BusPacket>)
      requires Valid()
      modifies this
      ensures Valid() && currentClockCycle == old(currentClockCycle)
      ensures (State(), packet) == ScanQueues(c, currentClockCycle, banks.table, old(State()))
    {
      hide Ready, TakeFrom, FirstEligible, AllPlaced, FirstReady, Eligible, NextRankAndBank, Placed;
      ghost var q0, t, table := State(), currentClockCycle, banks.table;
      ghost var k := 0;
      var startingRank, startingBank := nextRank, nextBank;
      while true
        invariant Valid() && currentClockCycle == t && banks.table == table
        invariant 0 <= k < Lap(c) && State() == q0.(next := AdvanceQueue(c, q0.next, k))
        invariant q0.next == Cursor(startingRank, startingBank)
        invariant forall j :: 0 <= j < k ==> !Ready(c, t, table, q0, AdvanceQueue(c, q0.next, j))
        decreases Lap(c) - k
      {
        ghost var cur := State().next;
        PositionIsIrrelevant(c, t, table, q0, cur, cur);
        packet := TryQueue();
        if packet.Some? {
          FirstReadyIs(c, t, table, q0, k);
          return;
        }
        AdvanceCursor();
        k := k + 1;
        QueueLap(c, q0.next, k);
        if startingRank == nextRank && (c.queuing == PerRank || startingBank == nextBank) {
          BackAtStart(c, q0.next, k);
          FirstReadyIs(c, t, table, q0, k);
          return;
        }
      }
    }

    // Erase packet i of the queue at the cursor.
    method TakeOut(i: nat)
      requires Valid() && i < |QueueAt(c, State(), State().next)|
      modifies this
      ensures Valid() && currentClockCycle == old(currentClockCycle)
      ensures State() == TakeFrom(c, old(State()), old(State()).next, i)
    {
      hide Put;
      var queue := GetCommandQueue(nextRank, nextBank);
      var slot := Slot(c, nextBank);
      var p := queue[i];
      EraseKeepsPlaced(c, State(), nextRank, slot, i);
      assert Placed(c, queue);
      if c.policy == OpenPage && i > 0 && queue[i - 1].kind == ACTIVATE {
        rowAccessCounters := Put(rowAccessCounters, p.rank, p.bank, rowAccessCounters[p.rank][p.bank] + 1);
        queues := Put(queues, nextRank, slot, queue[..i - 1] + queue[i + 1..]);
      } else {
        queues := Put(queues, nextRank, slot, Drop(queue, i));
      }
    }

    method AdvancePrecharge()
      requires Valid()
      modifies `nextRankPRE, `nextBankPRE
      ensures Valid() && State() == old(State()).(nextPRE := NextRankAndBank(c, old(State()).nextPRE))
    {
      nextRankPRE, nextBankPRE := NextRankBank(nextRankPRE, nextBankPRE);
    }

    // Close the row of the bank at the precharge position, if it may be closed.
    method TryClose() returns (packet: Option<BusPacket>)
      requires Valid()
      modifies `rowAccessCounters
      ensures Valid()
      ensures var q, cur := old(State()), old(State()).nextPRE;
        if Closable(c, currentClockCycle, banks.table, q, cur) then
          && packet == Some(BusPacket(PRECHARGE, 0, 0, 0, cur.rank, cur.bank))
          && State() == q.(rowAccessCounters := Put(q.rowAccessCounters, cur.rank, cur.bank, 0))
        else packet.None? && State() == q
    {
      hide Closable, Put, Placed;
      var closable := CanClose(nextRankPRE, nextBankPRE);
      if closable {
        rowAccessCounters := Put(rowAccessCounters, nextRankPRE, nextBankPRE, 0);
        packet := Some(BusPacket(PRECHARGE, 0, 0, 0, nextRankPRE, nextBankPRE));
      } else {
        packet := None;
      }
    }

    // Close the row of the k-th bank from the start of a scan, if it may be closed.
    method CloseNext(ghost q0: QueueState, ghost k: nat) returns (packet: Option<BusPacket>)
      requires Valid() && Shape(c, q0) && k < Grid(c) && State() == q0.(nextPRE := AdvanceBank(c, q0.nextPRE, k))
      requires NoneClosable(c, currentClockCycle, banks.table, q0, k)
      modifies `rowAccessCounters
      ensures Valid()
      ensures packet.Some? ==> (State(), packet) == ScanBanks(c, currentClockCycle, banks.table, q0)
      ensures packet.None? ==> State() == old(State()) && NoneClosable(c, currentClockCycle, banks.table, q0, k + 1)
    {
      assert TableShape(c, banks.table) && InGrid(c, AdvanceBank(c, q0.nextPRE, k));
      hide Valid, Closable, Shape, TableShape, Put, ScanBanks, AdvanceBank, Grid;
      ghost var at := AdvanceBank(c, q0.nextPRE, k);
      ClosePositionIsIrrelevant(c, currentClockCycle, banks.table, q0, at, at);
      packet := TryClose();
      if packet.Some? {
        ScanClosesFirst(c, currentClockCycle, banks.table, q0, k);
      }
    }

    // Round robin over all banks for an open row nobody wants any more.
    method ScanOpenBanks() returns (packet: Option<BusPacket>)
      requires Valid()
      modifies this
      ensures Valid() && currentClockCycle == old(currentClockCycle)
      ensures (State(), packet) == ScanBanks(c, currentClockCycle, banks.table, old(State()))
    {
      assert InGrid(c, State().nextPRE) && Shape(c, State()) && TableShape(c, banks.table);
      hide Valid, NoneClosable, Shape, TableShape, ScanBanks, AdvanceBank, NextRankAndBank, Grid;
      ghost var q0, t, table := State(), currentClockCycle, banks.table;
      ghost var k := 0;
      NextInLap(c, q0.nextPRE, 0);
      NoneTried(c, t, table, q0);
      var startingRank, startingBank := nextRankPRE, nextBankPRE;
      while true
        invariant Valid() && currentClockCycle == t && banks.table == table
        invariant q0.nextPRE == Cursor(startingRank, startingBank) && InGrid(c, q0.nextPRE)
        invariant 0 <= k < Grid(c) && State() == q0.(nextPRE := AdvanceBank(c, q0.nextPRE, k))
        invariant NoneClosable(c, t, table, q0, k)
        decreases Grid(c) - k
      {
        packet := CloseNext(q0, k);
        if packet.Some? {
          return;
        }
        AdvancePrecharge();
        NextInLap(c, q0.nextPRE, k);
        k := k + 1;
        BankLap(c, q0.nextPRE, k);
        if startingRank == nextRankPRE && startingBank == nextBankPRE {
          ScanClosesFirst(c, t, table, q0, k);
          return;
        }
      }
    }

    method CanClose(rank: nat, bank: nat) returns (yes: bool)
      requires Valid() && InGrid(c, Cursor(rank, bank))
      ensures yes == Closable(c, currentClockCycle, banks.table, State(), Cursor(rank, bank))
    {
      var queue := GetCommandQueue(rank, bank);
      var m := banks.table[rank][bank];
      if m.state != RowActive {
        return false;
      }
      var found := false;
      var i := 0;
      while i < |queue|
        invariant 0 <= i <= |queue|
        invariant !found && forall j :: 0 <= j < i ==> !(queue[j].bank == bank && queue[j].row == m.openRow)
      {
        if queue[i].bank == bank && queue[i].row == m.openRow {
          found := true;
          break;
        }
        i := i + 1;
      }
      yes := (!found || rowAccessCounters[rank][bank] == c.totalRowAccesses) && currentClockCycle >= m.nextPrecharge;
    }

    // The next command for the bus, if any.
    method Pop() returns (packet: Option<BusPacket>)
      requires Valid()
      modifies this
      ensures Valid() && currentClockCycle == old(currentClockCycle)
      ensures (State(), packet) == PopSpec(c, currentClockCycle, banks.table, old(State()))
      ensures packet.Some? ==> packet.value.rank < c.NumRanks() && packet.value.bank < c.NumBanks()
    {
      hide ScanQueues, RefreshWork, ScanBanks, Finish, AllPlaced, Placed, TableOf, TableShape;
      AgeActivations();
      ghost var q0 := State();
      if c.policy == ClosePage {
        packet := RefreshClosePage();
        if packet.None? {
          RoundRobin.QuietRefreshWork(c, currentClockCycle, banks.table, q0);
          packet := ScanAllQueues();
          if packet.None? {
            return;
          }
        }
      } else {
        packet := RefreshOpenPage();
        if packet.None? {
          RoundRobin.QuietRefreshWork(c, currentClockCycle, banks.table, q0);
          packet := ScanAllQueues();
          if packet.None? {
            RoundRobin.QuietScan(c, currentClockCycle, banks.table, q0);
            packet := ScanOpenBanks();
            if packet.None? {
              return;
            }
          }
        }
      }
      Bookkeep(packet.value);
    }

    // With posted column accesses the position stays for the access paired with an
    // activate; an activation enters its rank's window.
    method Bookkeep(p: BusPacket)
      requires Valid() && p.rank < c.NumRanks()
      modifies this
      ensures Valid() && currentClockCycle == old(currentClockCycle)
      ensures State() == Finish(c, old(State()), p)
    {
      if c.AL > 0 && sendAct {
        sendAct := false;
      } else {
        sendAct := true;
        nextRank, nextBank := NextRankBank(nextRank, nextBank);
      }
      if p.kind == ACTIVATE {
        tFAWCountdown := tFAWCountdown[p.rank := tFAWCountdown[p.rank] + [c.tFAW]];
      }
    }

    method Step()
      requires Valid()
      modifies `currentClockCycle
      ensures Valid() && State() == old(State()) && currentClockCycle == old(currentClockCycle) + 1
    {
      currentClockCycle := currentClockCycle + 1;
    }
  }


  // Removing packets leaves the rest where it belongs.
  lemma EraseKeepsPlaced(c: Config, q: QueueState, r: nat, s: nat, i: nat)
    requires AllPlaced(c, q) && r < |q.queues| && s < |q.queues[r]| && i < |q.queues[r][s]|
    ensures AllPlaced(c, q.(queues := Put(q.queues, r, s, Drop(q.queues[r][s], i))))
    ensures i > 0 ==>
      AllPlaced(c, q.(queues := Put(q.queues, r, s, q.queues[r][s][..i - 1] + q.queues[r][s][i + 1..])))
  {
    assert Placed(c, q.queues[r][s]);
  }

  // Where the scan stands does not change what may leave a queue.
  lemma PositionIsIrrelevant(c: Config, t: int, banks: BankTable, q: QueueState, at: Cursor, cur: Cursor)
    requires TableShape(c, banks) && Shape(c, q) && InGrid(c, at) && InGrid(c, cur)
    ensures var q' := q.(next := at);
      && Ready(c, t, banks, q', cur) == Ready(c, t, banks, q, cur)
      && QueueAt(c, q', cur) == QueueAt(c, q, cur)
      && FirstEligible(c, t, banks, q', QueueAt(c, q, cur)) == FirstEligible(c, t, banks, q, QueueAt(c, q, cur))
      && (Ready(c, t, banks, q, cur) ==>
            var i := FirstEligible(c, t, banks, q, QueueAt(c, q, cur));
            TakeFrom(c, q', cur, i) == TakeFrom(c, q, cur, i))
  {
    hide Put, TableOf, TableShape, EarlierColumn;
    var q', queue := q.(next := at), QueueAt(c, q, cur);
    forall i: nat ensures Eligible(c, t, banks, q', queue, i) == Eligible(c, t, banks, q, queue, i) {
    }
    FirstEligibleIs(c, t, banks, q', queue, FirstEligible(c, t, banks, q, queue));
  }

  lemma ClosePositionIsIrrelevant(c: Config, t: int, banks: BankTable, q: QueueState, at: Cursor, cur: Cursor)
    requires TableShape(c, banks) && Shape(c, q) && InGrid(c, at) && InGrid(c, cur)
    ensures Shape(c, q.(nextPRE := at))
    ensures Closable(c, t, banks, q.(nextPRE := at), cur) == Closable(c, t, banks, q, cur)
  {
  }

  lemma BackAtStart(c: Config, start: Cursor, k: nat)
    requires InGrid(c, start) && 0 < k <= Lap(c)
    requires AdvanceQueue(c, start, k).rank == start.rank
    requires c.queuing == PerRank || AdvanceQueue(c, start, k).bank == start.bank
    ensures AdvanceQueue(c, start, k) == start && k == Lap(c)
  {
    QueueLap(c, start, k);
    if c.queuing == PerRank {
      RankAfterSteps(c, start, k);
    }
  }

  lemma FirstEligibleIs(c: Config, t: int, banks: BankTable, q: QueueState, queue: seq<BusPacket>, k: nat)
    requires TableShape(c, banks) && Shape(c, q) && k <= |queue|
    requires k < |queue| ==> Eligible(c, t, banks, q, queue, k)
    requires forall j :: 0 <= j < k ==> !Eligible(c, t, banks, q, queue, j)
    ensures FirstEligible(c, t, banks, q, queue) == k
  {
    hide Eligible;
    var n := FirstEligible(c, t, banks, q, queue);
    assert n == |queue| || Eligible(c, t, banks, q, queue, n);
    assert k == |queue| || Eligible(c, t, banks, q, queue, k);
  }

  lemma FirstReadyIs(c: Config, t: int, banks: BankTable, q: QueueState, k: nat)
    requires TableShape(c, banks) && Shape(c, q) && k <= Lap(c)
    requires k < Lap(c) ==> Ready(c, t, banks, q, AdvanceQueue(c, q.next, k))
    requires forall j :: 0 <= j < k ==> !Ready(c, t, banks, q, AdvanceQueue(c, q.next, j))
    ensures FirstReady(c, t, banks, q) == k
  {
    hide Ready;
    var n := FirstReady(c, t, banks, q);
    assert n == Lap(c) || Ready(c, t, banks, q, AdvanceQueue(c, q.next, n));
    assert k == Lap(c) || Ready(c, t, banks, q, AdvanceQueue(c, q.next, k));
  }

  lemma NextInLap(c: Config, cur: Cursor, k: nat)
    requires InGrid(c, cur)
    ensures AdvanceBank(c, cur, k + 1) == NextRankAndBank(c, AdvanceBank(c, cur, k)) && AdvanceBank(c, cur, 0) == cur
    ensures Grid(c) > 0
  {
    CodeInRange(c, cur);
  }

  // No row of the first k banks of a scan may be closed.
  ghost predicate NoneClosable(c: Config, t: int, banks: BankTable, q: QueueState, k: nat)
    requires TableShape(c, banks) && Shape(c, q)
  {
    forall j :: 0 <= j < k ==> !Closable(c, t, banks, q, AdvanceBank(c, q.nextPRE, j))
  }

  lemma NoneTried(c: Config, t: int, banks: BankTable, q: QueueState)
    requires TableShape(c, banks) && Shape(c, q)
    ensures NoneClosable(c, t, banks, q, 0)
  {
  }

  // The scan closes the first row it may close, if there is one.
  lemma ScanClosesFirst(c: Config, t: int, banks: BankTable, q: QueueState, k: nat)
    requires TableShape(c, banks) && Shape(c, q) && k <= Grid(c)
    requires k < Grid(c) ==> Closable(c, t, banks, q, AdvanceBank(c, q.nextPRE, k))
    requires NoneClosable(c, t, banks, q, k)
    ensures ScanBanks(c, t, banks, q) ==
      if k == Grid(c) then (q, None)
      else
        var cur := AdvanceBank(c, q.nextPRE, k);
        (q.(nextPRE := cur, rowAccessCounters := Put(q.rowAccessCounters, cur.rank, cur.bank, 0)),
         Some(BusPacket(PRECHARGE, 0, 0, 0, cur.rank, cur.bank)))
  {
    FirstClosableIs(c, t, banks, q, k);
    hide FirstClosable, Closable, AdvanceBank, Put, Grid;
  }

  lemma FirstClosableIs(c: Config, t: int, banks: BankTable, q: QueueState, k: nat)
    requires TableShape(c, banks) && Shape(c, q) && k <= Grid(c)
    requires k < Grid(c) ==> Closable(c, t, banks, q, AdvanceBank(c, q.nextPRE, k))
    requires forall j :: 0 <= j < k ==> !Closable(c, t, banks, q, AdvanceBank(c, q.nextPRE, j))
    ensures FirstClosable(c, t, banks, q) == k
  {
    hide Closable;
    var n := FirstClosable(c, t, banks, q);
    assert n == Grid(c) || Closable(c, t, banks, q, AdvanceBank(c, q.nextPRE, n));
    assert k == Grid(c) || Closable(c, t, banks, q, AdvanceBank(c, q.nextPRE, k));
  }
}
