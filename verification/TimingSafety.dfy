// The controller's table always implies the rank's own checks one bus cycle later:
// no phase of a cycle can reach a rank's error exit, the command-bus collision, the
// queue overflow or a refused power transition.
module TimingSafety {
  import opened Wrappers
  import opened SystemConfiguration
  import opened AddressMapping
  import opened BankState
  import opened Scheduler
  import opened QueueInvariant
  import opened SchedulerSafety
  import opened Channel
  import opened Sequences

  ghost predicate RowTracks(ms: seq<Bank>, ks: seq<Bank>) {
    |ms| == |ks| && forall b :: 0 <= b < |ms| ==> Tracks(ms[b], ks[b])
  }

  function Applied(c: Config, t: int, p: BusPacket, ks: seq<Bank>): seq<Bank> {
    seq(|ks|, b requires 0 <= b < |ks| => Apply(c, t, p, b, ks[b]))
  }

  // Rank r's table once the command in flight, due at cycle t, has been applied.
  function Settled(c: Config, t: int, cmd: Option<BusPacket>, r: nat, k: RankState): seq<Bank> {
    if cmd.Some? && cmd.value.rank == r then Applied(c, t, cmd.value, k.banks) else k.banks
  }

  // The command in flight will be accepted at cycle t, and then every table entry
  // of the controller covers the rank's.
  ghost predicate Tracking(c: Config, t: int, s: ChannelState)
    requires WellFormed(c, s)
  {
    && (s.mc.outgoingCmd.Some? ==>
          var p := s.mc.outgoingCmd.value;
          p.rank < c.NumRanks() && p.kind != DATA && s.mc.cmdCyclesLeft == 1 && Accepts(t, s.ranks[p.rank].banks, p))
    && forall r :: 0 <= r < c.NumRanks() ==>
         RowTracks(s.mc.banks[r], Settled(c, t, s.mc.outgoingCmd, r, s.ranks[r]))
  }

  ghost predicate PowerFlag(row: seq<Bank>, flag: bool, k: RankState) {
    && flag == k.isPowerDown
    && (forall b :: 0 <= b < |row| ==> (row[b].state == PowerDown <==> flag))
    && (flag ==> forall a, b :: 0 <= a < |row| && 0 <= b < |row| ==> row[a].nextPowerUp == row[b].nextPowerUp)
  }

  ghost predicate PowerFlags(c: Config, s: ChannelState)
    requires WellFormed(c, s)
  {
    forall r :: 0 <= r < c.NumRanks() ==> PowerFlag(s.mc.banks[r], s.mc.powerDown[r], s.ranks[r])
  }

  // Between cycles; t is the next cycle.
  ghost predicate Timing(c: Config, s: ChannelState) {
    && WellFormed(c, s)
    && QueuesOK(c, s.clock, s.mc.banks, s.mc.queue)
    && Tracking(c, s.clock, s)
    && PowerFlags(c, s)
  }

  // Inside a cycle, once the banks have aged and until the clock ticks.
  ghost predicate TimingAged(c: Config, s: ChannelState) {
    && WellFormed(c, s)
    && QueuesOK(c, s.clock + 1, s.mc.banks, s.mc.queue)
    && PowerFlags(c, s)
  }

  // Inside a cycle, while the command bus is free.
  ghost predicate TimingFree(c: Config, s: ChannelState) {
    TimingAged(c, s) && s.mc.outgoingCmd.None? && Tracking(c, s.clock, s)
  }

  // Inside a cycle, after the pop: a command just put on the bus keeps its bank busy.
  ghost predicate TimingSent(c: Config, s: ChannelState) {
    && TimingAged(c, s) && Tracking(c, s.clock + 1, s)
    && (s.mc.outgoingCmd.Some? ==>
          var p := s.mc.outgoingCmd.value;
          p.bank < c.NumBanks() && s.mc.banks[p.rank][p.bank].state != Idle
          && s.mc.banks[p.rank][p.bank].state != PowerDown)
  }

  // Nothing the timing argument looks at has changed.
  ghost predicate SameTiming(s: ChannelState, s': ChannelState) {
    && s'.clock == s.clock
    && s'.mc.banks == s.mc.banks && s'.mc.powerDown == s.mc.powerDown
    && s'.mc.outgoingCmd == s.mc.outgoingCmd && s'.mc.cmdCyclesLeft == s.mc.cmdCyclesLeft
    && |s'.ranks| == |s.ranks|
    && forall r :: 0 <= r < |s.ranks| ==>
         s'.ranks[r].banks == s.ranks[r].banks && s'.ranks[r].isPowerDown == s.ranks[r].isPowerDown
  }

  lemma SameTracking(c: Config, t: int, s: ChannelState, s': ChannelState)
    requires WellFormed(c, s) && WellFormed(c, s') && SameTiming(s, s')
    requires Tracking(c, t, s) && PowerFlags(c, s)
    ensures Tracking(c, t, s') && PowerFlags(c, s')
  {
    forall r | 0 <= r < c.NumRanks()
      ensures RowTracks(s'.mc.banks[r], Settled(c, t, s'.mc.outgoingCmd, r, s'.ranks[r]))
      ensures PowerFlag(s'.mc.banks[r], s'.mc.powerDown[r], s'.ranks[r])
    {
      assert RowTracks(s.mc.banks[r], Settled(c, t, s.mc.outgoingCmd, r, s.ranks[r]));
      assert PowerFlag(s.mc.banks[r], s.mc.powerDown[r], s.ranks[r]);
    }
  }

  // ---- Aging ----

  lemma AgedRow(c: Config, t: int, r: nat, row: seq<Bank>, row': seq<Bank>, counters: seq<nat>, slots: seq<seq<BusPacket>>)
    requires c.Valid() && RankOK(c, t, r, row, counters, slots)
    requires |row'| == |row| && forall b :: 0 <= b < |row| ==> row'[b] == Age(c, row[b])
    ensures RankOK(c, t + 1, r, row', counters, slots)
  {
    hide Static, Paired, Entry;
    forall b | 0 <= b < |row|
      ensures Consistent(t + 1, row'[b])
      ensures row'[b].state == PowerDown <==> row[b].state == PowerDown
      ensures Open(row[b]) ==> row'[b] == row[b]
      ensures row'[b].state == RowActive ==> row[b].state == RowActive
    {
      assert Consistent(t, row[b]);
    }
    forall s | 0 <= s < |slots| ensures BareReady(row', counters, slots[s]) {
      assert BareReady(row, counters, slots[s]);
    }
  }

  lemma AgeBanksIsSafe(c: Config, s: ChannelState)
    requires c.Valid() && Timing(c, s)
    ensures TimingAged(c, AgeBanks(c, s)) && Tracking(c, s.clock, AgeBanks(c, s))
  {
    hide Settled, Applied, Apply, Static, BareReady, AgeAll, Accepts, Paired, CountersOK;
    var s' := AgeBanks(c, s);
    forall r | 0 <= r < c.NumRanks()
      ensures RankOK(c, s.clock + 1, r, s'.mc.banks[r], s.mc.queue.rowAccessCounters[r], s.mc.queue.queues[r])
      ensures RowTracks(s'.mc.banks[r], Settled(c, s.clock, s.mc.outgoingCmd, r, s.ranks[r]))
      ensures PowerFlag(s'.mc.banks[r], s.mc.powerDown[r], s.ranks[r])
    {
      var row := s.mc.banks[r];
      assert RankOK(c, s.clock, r, row, s.mc.queue.rowAccessCounters[r], s.mc.queue.queues[r]);
      assert PowerFlag(row, s.mc.powerDown[r], s.ranks[r]);
      AgedRow(c, s.clock, r, row, s'.mc.banks[r], s.mc.queue.rowAccessCounters[r], s.mc.queue.queues[r]);
      var ks := Settled(c, s.clock, s.mc.outgoingCmd, r, s.ranks[r]);
      assert RowTracks(row, ks);
      forall b | 0 <= b < |row|
        ensures Tracks(Age(c, row[b]), ks[b])
        ensures Age(c, row[b]).state == PowerDown <==> row[b].state == PowerDown
        ensures Age(c, row[b]).nextPowerUp == row[b].nextPowerUp
      {
        assert Consistent(s.clock, row[b]);
        AgeKeepsTracking(c, s.clock, row[b], ks[b]);
      }
    }
  }

  // ---- The command bus ----

  lemma DeliverCommandIsSafe(c: Config, s: ChannelState)
    requires TimingAged(c, s) && Tracking(c, s.clock, s)
    ensures DeliverCommand(c, s).Ok? && TimingFree(c, DeliverCommand(c, s).value)
  {
    if s.mc.outgoingCmd.Some? {
      var p := s.mc.outgoingCmd.value;
      var s' := DeliverCommand(c, s).value;
      assert s'.ranks[p.rank].banks == Applied(c, s.clock, p, s.ranks[p.rank].banks);
      forall r | 0 <= r < c.NumRanks()
        ensures RowTracks(s'.mc.banks[r], s'.ranks[r].banks)
        ensures PowerFlag(s'.mc.banks[r], s'.mc.powerDown[r], s'.ranks[r])
      {
        assert RowTracks(s.mc.banks[r], Settled(c, s.clock, s.mc.outgoingCmd, r, s.ranks[r]));
        assert PowerFlag(s.mc.banks[r], s.mc.powerDown[r], s.ranks[r]);
      }
    }
  }

  // ---- Pop ----

  lemma IssuedRowTracks(c: Config, t: int, r: nat, p: BusPacket, banks: BankTable, k: RankState)
    requires c.Valid() && r < |banks| && RowTracks(banks[r], k.banks)
    requires forall b :: 0 <= b < |banks[r]| ==> Consistent(t + 1, banks[r][b])
    requires p.rank == r ==> MayIssue(t, banks[r], p)
    ensures RowTracks(IssueAll(c, t, p, banks)[r], Settled(c, t + 1, Some(p), r, k))
    ensures p.rank == r ==> Accepts(t + 1, k.banks, p)
  {
    hide Issue, Apply, IssueWrite, IssueRead, MayIssue, Accepts, Tracks, Consistent;
    var ks := Settled(c, t + 1, Some(p), r, k);
    forall b | 0 <= b < |banks[r]|
      ensures Tracks(IssueAll(c, t, p, banks)[r][b], ks[b])
    {
      if p.rank == r {
        IssueKeepsTracking(c, t, banks[r], p, b, k.banks[b]);
      } else {
        IssueElsewhereKeepsTracking(c, t, p, r, b, banks[r][b], k.banks[b]);
      }
    }
    if p.rank == r {
      IssuedIsAccepted(t, banks[r], k.banks, p);
    }
  }

  lemma IssuedPowerFlag(c: Config, t: int, r: nat, p: BusPacket, banks: BankTable, flag: bool, k: RankState)
    requires r < |banks| && PowerFlag(banks[r], flag, k)
    requires p.rank == r ==> MayIssue(t, banks[r], p)
    ensures PowerFlag(IssueAll(c, t, p, banks)[r], flag, k)
  {
    var row, row' := banks[r], IssueAll(c, t, p, banks)[r];
    forall b | 0 <= b < |row|
      ensures row'[b].nextPowerUp == row[b].nextPowerUp
      ensures row'[b].state == PowerDown <==> row[b].state == PowerDown
    {
    }
  }

  lemma IssueCommandIsSafe(c: Config, s: ChannelState)
    requires c.Valid() && TimingFree(c, s)
    ensures IssueCommand(c, s).Ok? && TimingSent(c, IssueCommand(c, s).value)
  {
    hide PopSpec, RankOK, MayIssue, Issue, PowerFlag, SafePop, QueuesOK, IssueAll, PowerFlags, Applied, Apply,
         BanksOK, Static, BareReady;
    PopIsSafe(c, s.clock, s.mc.banks, s.mc.queue);
    var (q, popped) := PopSpec(c, s.clock, s.mc.banks, s.mc.queue);
    var s' := IssueCommand(c, s).value;
    if popped.None? {
      assert SameTiming(s, s');
      SameTracking(c, s.clock + 1, s, s') by {
        assert Tracking(c, s.clock + 1, s);
      }
    } else {
      SentCommand(c, s, q, popped.value);
    }
  }

  lemma SentState(c: Config, s: ChannelState)
    requires c.Valid() && WellFormed(c, s) && s.mc.outgoingCmd.None?
    ensures var (q, popped) := PopSpec(c, s.clock, s.mc.banks, s.mc.queue);
      && IssueCommand(c, s).Ok?
      && var s' := IssueCommand(c, s).value;
         && s'.clock == s.clock && s'.ranks == s.ranks && s'.mc.powerDown == s.mc.powerDown
         && s'.mc.queue == q && s'.mc.outgoingCmd == popped
         && (popped.Some? ==> s'.mc.cmdCyclesLeft == 1 && s'.mc.banks == IssueAll(c, s.clock, popped.value, s.mc.banks))
         && (popped.None? ==> s'.mc.cmdCyclesLeft == s.mc.cmdCyclesLeft && s'.mc.banks == s.mc.banks)
  {
    hide PopSpec, Issue;
  }

  lemma SentCommand(c: Config, s: ChannelState, q: QueueState, p: BusPacket)
    requires c.Valid() && TimingFree(c, s) && SafePop(c, s.clock, s.mc.banks, q, p)
    requires PopSpec(c, s.clock, s.mc.banks, s.mc.queue) == (q, Some(p))
    ensures IssueCommand(c, s).Ok? && TimingSent(c, IssueCommand(c, s).value)
  {
    hide PopSpec, RankOK, PowerFlag, IssueCommand, Accepts, Applied, Tracks, Consistent, Apply, BanksOK, Static,
         BareReady, Shape, Paired, CountersOK, TableOf, Entry;
    SentState(c, s);
    var s' := IssueCommand(c, s).value;
    forall r | 0 <= r < c.NumRanks()
      ensures RowTracks(s'.mc.banks[r], Settled(c, s.clock + 1, Some(p), r, s.ranks[r]))
      ensures p.rank == r ==> Accepts(s.clock + 1, s.ranks[r].banks, p)
      ensures PowerFlag(s'.mc.banks[r], s.mc.powerDown[r], s.ranks[r])
    {
      assert RowTracks(s.mc.banks[r], Settled(c, s.clock, s.mc.outgoingCmd, r, s.ranks[r]));
      RowConsistent(c, s.clock + 1, s.mc.banks, s.mc.queue, r);
      IssuedRowTracks(c, s.clock, r, p, s.mc.banks, s.ranks[r]);
      IssuedPowerFlag(c, s.clock, r, p, s.mc.banks, s.mc.powerDown[r], s.ranks[r]);
    }
    assert s'.mc.banks[p.rank][p.bank] == Issue(c, s.clock, p, p.rank, p.bank, s.mc.banks[p.rank][p.bank]);
  }

  lemma RowConsistent(c: Config, t: int, banks: BankTable, q: QueueState, r: nat)
    requires QueuesOK(c, t, banks, q) && r < c.NumRanks()
    ensures forall b :: 0 <= b < |banks[r]| ==> Consistent(t, banks[r][b])
  {
    assert RankOK(c, t, r, banks[r], q.rowAccessCounters[r], q.queues[r]);
  }

  // ---- The refresh timer ----

  lemma RefreshTimerIsSafe(c: Config, s: ChannelState)
    requires TimingFree(c, s)
    ensures TimingFree(c, RefreshTimer(c, s))
  {
    hide RankOK, PowerFlag;
    var s' := RefreshTimer(c, s);
    SameQueues(c, s.clock + 1, s.mc.banks, s.mc.queue, s'.mc.queue);
    SameTracking(c, s.clock, s, s');
  }

  // ---- New commands ----

  lemma EnqueueBoth(c: Config, q: QueueState, a: BusPacket, p: BusPacket)
    requires Shape(c, q) && a.rank == p.rank < c.NumRanks() && a.bank == p.bank < c.NumBanks()
    requires |QueueAt(c, q, Cursor(a.rank, a.bank))| + 2 <= c.cmdQueueDepth
    ensures Enqueue(c, q, a).Ok? && Enqueue(c, Enqueue(c, q, a).value, p).Ok?
    ensures var q' := Enqueue(c, Enqueue(c, q, a).value, p).value;
      q' == q.(queues := Put(q.queues, a.rank, Slot(c, a.bank), QueueAt(c, q, Cursor(a.rank, a.bank)) + [a, p]))
  {
    var cur := Cursor(a.rank, a.bank);
    var q1 := Enqueue(c, q, a).value;
    assert QueueAt(c, q1, cur) == QueueAt(c, q, cur) + [a];
    assert QueueAt(c, q, cur) + [a] + [p] == QueueAt(c, q, cur) + [a, p];
    PutTwice(q.queues, a.rank, Slot(c, a.bank), QueueAt(c, q, cur) + [a], QueueAt(c, q, cur) + [a, p]);
  }

  lemma PutTwice<T>(table: seq<seq<T>>, i: nat, j: nat, v: T, w: T)
    requires i < |table| && j < |table[i]|
    ensures Put(Put(table, i, j, v), i, j, w) == Put(table, i, j, w)
  {
    assert table[i][j := v][j := w] == table[i][j := w];
  }

  lemma AppendedQueues(c: Config, t: int, banks: BankTable, q: QueueState, a: BusPacket, p: BusPacket)
    requires QueuesOK(c, t, banks, q)
    requires a.rank == p.rank < c.NumRanks()
    requires Entry(c, a.rank, Slot(c, a.bank), a) && Entry(c, a.rank, Slot(c, a.bank), p)
    requires a.kind == ACTIVATE && PairOf(a, p)
    requires |QueueAt(c, q, Cursor(a.rank, a.bank))| + 2 <= c.cmdQueueDepth
    ensures QueuesOK(c, t, banks,
      q.(queues := Put(q.queues, a.rank, Slot(c, a.bank), QueueAt(c, q, Cursor(a.rank, a.bank)) + [a, p])))
  {
    var r, s := a.rank, Slot(c, a.bank);
    var queues' := Put(q.queues, r, s, q.queues[r][s] + [a, p]);
    forall i | 0 <= i < c.NumRanks()
      ensures RankOK(c, t, i, banks[i], q.rowAccessCounters[i], queues'[i])
    {
      assert RankOK(c, t, i, banks[i], q.rowAccessCounters[i], q.queues[i]);
      if i == r {
        AppendPair(c, r, s, banks[r], q.rowAccessCounters[r], q.queues[r][s], a, p);
      }
    }
  }

  // The state after a transaction was expanded: only the queues and lists differ.
  lemma ExpandedState(c: Config, s: ChannelState)
    requires WellFormed(c, s)
    requires var i := FirstWithRoom(c, s.mc.queue, s.mc.transactionQueue);
      i < |s.mc.transactionQueue| ==> |QueueAt(c, s.mc.queue, Target(c, s.mc.transactionQueue[i]))| <= c.cmdQueueDepth
    ensures ExpandTransaction(c, s).Ok? && SameTiming(s, ExpandTransaction(c, s).value)
    ensures var i := FirstWithRoom(c, s.mc.queue, s.mc.transactionQueue);
      var m, m' := s.mc, ExpandTransaction(c, s).value.mc;
      if i == |m.transactionQueue| then m' == m
      else
        var tr := m.transactionQueue[i];
        var cur := Target(c, tr);
        var queue := QueueAt(c, m.queue, cur) + [CommandFor(c, ACTIVATE, tr), CommandFor(c, CommandKind(c, tr), tr)];
        && |QueueAt(c, m.queue, cur)| + 2 <= c.cmdQueueDepth
        && m' == m.(queue := m.queue.(queues := Put(m.queue.queues, cur.rank, Slot(c, cur.bank), queue)),
                    transactionQueue := Drop(m.transactionQueue, i),
                    pendingReads := if tr.isWrite then m.pendingReads else m.pendingReads + [tr.address])
    ensures ExpandTransaction(c, s).value.ranks == s.ranks
  {
    hide Decode, Put, Enqueue, FirstWithRoom, QueueAt, Shape, Fill, TableOf, TableShape;
    var i := FirstWithRoom(c, s.mc.queue, s.mc.transactionQueue);
    if i < |s.mc.transactionQueue| {
      var tr := s.mc.transactionQueue[i];
      assert InGrid(c, Target(c, tr));
      EnqueueBoth(c, s.mc.queue, CommandFor(c, ACTIVATE, tr), CommandFor(c, CommandKind(c, tr), tr));
    }
  }

  lemma ExpandTransactionIsSafe(c: Config, s: ChannelState)
    requires c.Valid() && TimingSent(c, s)
    ensures ExpandTransaction(c, s).Ok? && TimingSent(c, ExpandTransaction(c, s).value)
  {
    hide RankOK, PowerFlag, Decode, Put, ExpandTransaction, RowTracks, Accepts, QueuesOK, FirstWithRoom, PowerFlags,
         Settled, Applied, Apply, BanksOK, Static, QueueAt;
    var i := FirstWithRoom(c, s.mc.queue, s.mc.transactionQueue);
    if i < |s.mc.transactionQueue| {
      var tr := s.mc.transactionQueue[i];
      QueueIsShort(c, s.clock + 1, s.mc.banks, s.mc.queue, Target(c, tr));
      ExpandedState(c, s);
      AppendedQueues(c, s.clock + 1, s.mc.banks, s.mc.queue, CommandFor(c, ACTIVATE, tr), CommandFor(c, CommandKind(c, tr), tr));
    } else {
      ExpandedState(c, s);
    }
    SameTracking(c, s.clock + 1, s, ExpandTransaction(c, s).value);
  }

  lemma QueueIsShort(c: Config, t: int, banks: BankTable, q: QueueState, cur: Cursor)
    requires QueuesOK(c, t, banks, q) && InGrid(c, cur)
    ensures |QueueAt(c, q, cur)| <= c.cmdQueueDepth
  {
    assert RankOK(c, t, cur.rank, banks[cur.rank], q.rowAccessCounters[cur.rank], q.queues[cur.rank]);
    assert Static(c, cur.rank, Slot(c, cur.bank), q.queues[cur.rank][Slot(c, cur.bank)]);
  }

  // ---- Power ----

  lemma PowerOneIsSafe(c: Config, t: int, r: nat, row: seq<Bank>, flag: bool, empty: bool, k: RankState,
                       counters: seq<nat>, slots: seq<seq<BusPacket>>)
    requires RankOK(c, t + 1, r, row, counters, slots) && |row| > 0
    requires |k.banks| == |row| && PowerFlag(row, flag, k)
    requires AllIdle(row) || flag ==> RowTracks(row, k.banks)
    ensures PowerOne(c, t, row, flag, empty, k).Ok?
    ensures var (row', flag', k') := PowerOne(c, t, row, flag, empty, k).value;
      && RankOK(c, t + 1, r, row', counters, slots) && PowerFlag(row', flag', k')
      && |row'| == |row| && |k'.banks| == |k.banks|
      && ((row', flag', k') == (row, flag, k)
          || ((AllIdle(row) || flag) && RowTracks(row', k'.banks)))
  {
    assert flag ==> row[0].state == PowerDown;
    if empty && !k.refreshWaiting {
      if AllIdle(row) {
        forall b | 0 <= b < |row| ensures k.banks[b].state == Idle {
          assert Tracks(row[b], k.banks[b]);
        }
        PoweredRow(c, t, r, row, PowerOne(c, t, row, flag, empty, k).value.0, counters, slots);
      }
    } else if t >= row[0].nextPowerUp && flag {
      forall b | 0 <= b < |row| ensures k.banks[b].nextPowerUp <= t {
        assert Tracks(row[b], k.banks[b]) && row[b].nextPowerUp == row[0].nextPowerUp;
      }
      PoweredRow(c, t, r, row, PowerOne(c, t, row, flag, empty, k).value.0, counters, slots);
    }
  }

  // No bank of the row is open, before or after.
  lemma PoweredRow(c: Config, t: int, r: nat, row: seq<Bank>, row': seq<Bank>, counters: seq<nat>,
                   slots: seq<seq<BusPacket>>)
    requires RankOK(c, t + 1, r, row, counters, slots) && |row'| == |row|
    requires forall b :: 0 <= b < |row| ==>
      && (row[b].state == Idle || row[b].state == PowerDown)
      && (row'[b].state == Idle || row'[b].state == PowerDown)
      && row'[b].countdown == row[b].countdown && row'[b].lastCommand == row[b].lastCommand
    requires forall a, b :: 0 <= a < |row| && 0 <= b < |row| ==> row'[a].state == row'[b].state
    ensures RankOK(c, t + 1, r, row', counters, slots)
  {
    forall b | 0 <= b < |row| ensures Consistent(t + 1, row'[b]) {
      assert Consistent(t + 1, row[b]);
    }
    forall s | 0 <= s < |slots| ensures BareReady(row', counters, slots[s]) {
      assert BareReady(row, counters, slots[s]) && Static(c, r, s, slots[s]);
      forall j | 0 <= j < |slots[s]| ensures !Bare(slots[s], j) {
        assert Entry(c, r, s, slots[s][j]);
        assert row[slots[s][j].bank].state != RowActive;
      }
    }
  }

  function PowerAt(c: Config, s: ChannelState, r: nat): Result<(seq<Bank>, bool, RankState), Error>
    requires WellFormed(c, s) && r < c.NumRanks()
  {
    PowerOne(c, s.clock, s.mc.banks[r], s.mc.powerDown[r], RankQueuesEmpty(c, s.mc.queue, r), s.ranks[r])
  }

  lemma PowerRanksIsSafe(c: Config, s: ChannelState, n: nat)
    requires c.Valid() && WellFormed(c, s) && TimingSent(c, s) && n <= c.NumRanks()
    ensures PowerRanks(c, s, n).Ok? && TimingSent(c, PowerRanks(c, s, n).value)
  {
    hide TimingSent, PowerOne, RankQueuesEmpty, TableShape, Shape;
    if n > 0 {
      PowerRanksIsSafe(c, s, n - 1);
      var s1 := PowerRanks(c, s, n - 1).value;
      PowerStep(c, s1, n - 1);
    }
  }

  lemma PowerStep(c: Config, s: ChannelState, r: nat)
    requires c.Valid() && TimingSent(c, s) && r < c.NumRanks()
    requires WellFormed(c, s)
    ensures PowerAt(c, s, r).Ok?
    ensures var (row, flag, k) := PowerAt(c, s, r).value;
      TimingSent(c, WithRank(s, r, row, flag, k))
  {
    hide PowerFlags, Applied, Apply, RankQueuesEmpty, Static, BareReady, Accepts, Paired, Tracks;
    var q := s.mc.queue;
    QuietWhenPowering(c, s, r);
    PowerOneIsSafe(c, s.clock, r, s.mc.banks[r], s.mc.powerDown[r], RankQueuesEmpty(c, q, r), s.ranks[r],
                   q.rowAccessCounters[r], q.queues[r]);
    hide PowerOne, RankOK, PowerFlag, TimingSent, RowTracks;
    var (row, flag, k) := PowerAt(c, s, r).value;
    PowerStepDone(c, s, r, row, flag, k);
  }

  // A rank that may change its power state has no command in flight.
  lemma QuietWhenPowering(c: Config, s: ChannelState, r: nat)
    requires TimingSent(c, s) && r < c.NumRanks()
    ensures RankOK(c, s.clock + 1, r, s.mc.banks[r], s.mc.queue.rowAccessCounters[r], s.mc.queue.queues[r])
    ensures PowerFlag(s.mc.banks[r], s.mc.powerDown[r], s.ranks[r])
    ensures AllIdle(s.mc.banks[r]) || s.mc.powerDown[r] ==>
      RowTracks(s.mc.banks[r], s.ranks[r].banks) && !(s.mc.outgoingCmd.Some? && s.mc.outgoingCmd.value.rank == r)
  {
    hide RankOK, Accepts, Tracks;
    assert PowerFlag(s.mc.banks[r], s.mc.powerDown[r], s.ranks[r]);
    assert RowTracks(s.mc.banks[r], Settled(c, s.clock + 1, s.mc.outgoingCmd, r, s.ranks[r]));
  }

  lemma PowerStepDone(c: Config, s: ChannelState, r: nat, row: seq<Bank>, flag: bool, k: RankState)
    requires TimingSent(c, s) && r < c.NumRanks() && |row| == |k.banks| == c.NumBanks()
    requires |k.readReturnPacket| == |k.readReturnCountdown|
    requires RankOK(c, s.clock + 1, r, row, s.mc.queue.rowAccessCounters[r], s.mc.queue.queues[r])
    requires PowerFlag(row, flag, k)
    requires (row, flag, k) == (s.mc.banks[r], s.mc.powerDown[r], s.ranks[r])
             || (RowTracks(row, k.banks) && !(s.mc.outgoingCmd.Some? && s.mc.outgoingCmd.value.rank == r))
    ensures TimingSent(c, WithRank(s, r, row, flag, k))
  {
    hide RankOK, PowerFlag, Accepts, RowTracks, Applied;
    var s' := WithRank(s, r, row, flag, k);
    forall i | 0 <= i < c.NumRanks()
      ensures RankOK(c, s.clock + 1, i, s'.mc.banks[i], s.mc.queue.rowAccessCounters[i], s.mc.queue.queues[i])
      ensures RowTracks(s'.mc.banks[i], Settled(c, s.clock + 1, s.mc.outgoingCmd, i, s'.ranks[i]))
      ensures PowerFlag(s'.mc.banks[i], s'.mc.powerDown[i], s'.ranks[i])
    {
      assert RowTracks(s.mc.banks[i], Settled(c, s.clock + 1, s.mc.outgoingCmd, i, s.ranks[i]));
    }
  }

  lemma ManagePowerIsSafe(c: Config, s: ChannelState)
    requires c.Valid() && TimingSent(c, s)
    ensures ManagePower(c, s).Ok? && TimingSent(c, ManagePower(c, s).value)
  {
    hide QueuesOK, Tracking, PowerRanks, RankOK, PowerFlags, WellFormed, BanksOK, Static, BareReady;
    if c.useLowPower {
      PowerRanksIsSafe(c, s, c.NumRanks());
    }
  }

  // ---- Phases that move data only ----

  lemma DataOnly(c: Config, s: ChannelState, s': ChannelState)
    requires WellFormed(c, s) && WellFormed(c, s') && SameTiming(s, s') && s'.mc.queue == s.mc.queue
    ensures Timing(c, s) ==> Timing(c, s')
    ensures TimingFree(c, s) ==> TimingFree(c, s')
    ensures TimingSent(c, s) ==> TimingSent(c, s')
  {
    hide QueuesOK, PowerFlag, RowTracks, Accepts, RankOK, PowerFlags, WellFormed, Applied, Apply, BanksOK, Static,
         BareReady, Shape;
    if PowerFlags(c, s) && Tracking(c, s.clock, s) {
      SameTracking(c, s.clock, s, s');
    }
    if PowerFlags(c, s) && Tracking(c, s.clock + 1, s) {
      SameTracking(c, s.clock + 1, s, s');
    }
  }

  lemma UpdateRanksKeepsTiming(c: Config, s: ChannelState)
    requires WellFormed(c, s) && Timing(c, s)
    ensures UpdateRanks(c, s).Ok? ==> Timing(c, UpdateRanks(c, s).value)
  {
    hide Timing, TimingSent, TimingFree, TimingAged, QueuesOK, Tracking, RankOK, OutputsUpTo, PowerFlags, Output;
    if UpdateRanks(c, s).Ok? {
      DataOnly(c, s, UpdateRanks(c, s).value);
    }
  }

  lemma AdmitPendingKeepsTiming(c: Config, s: ChannelState)
    requires WellFormed(c, s) && Timing(c, s)
    ensures Timing(c, AdmitPending(c, s))
  {
    hide Timing, TimingSent, TimingFree, TimingAged, QueuesOK, Tracking, RankOK, PowerFlags, BanksOK, Static;
    DataOnly(c, s, AdmitPending(c, s));
  }

  lemma DriveDataBusKeepsTiming(c: Config, s: ChannelState)
    requires WellFormed(c, s) && TimingFree(c, s)
    ensures DriveDataBus(c, s).Ok? ==> TimingFree(c, DriveDataBus(c, s).value)
  {
    hide TimingFree, TimingSent, Timing, TimingAged, QueuesOK, Tracking, RankOK, PowerFlags, BanksOK, Static;
    if DriveDataBus(c, s).Ok? {
      DataOnly(c, s, DriveDataBus(c, s).value);
    }
  }

  lemma ReturnReadKeepsTiming(c: Config, s: ChannelState)
    requires WellFormed(c, s) && TimingSent(c, s)
    ensures ReturnRead(c, s).Ok? ==> TimingSent(c, ReturnRead(c, s).value)
  {
    hide TimingSent, TimingFree, Timing, TimingAged, QueuesOK, Tracking, RankOK, PowerFlags, BanksOK, Static;
    if ReturnRead(c, s).Ok? {
      DataOnly(c, s, ReturnRead(c, s).value);
    }
  }

  lemma TickKeepsTiming(c: Config, s: ChannelState)
    requires WellFormed(c, s) && TimingSent(c, s)
    ensures Timing(c, CountRefresh(c, s).(clock := s.clock + 1))
  {
    hide QueuesOK, PowerFlag, RowTracks, Accepts, RankOK, Settled, Applied, Apply, BanksOK, Static, BareReady, Shape,
         Paired;
    SameTracking(c, s.clock + 1, s, CountRefresh(c, s));
  }

  lemma AddTransactionKeepsTiming(c: Config, s: ChannelState, tr: Transaction)
    requires WellFormed(c, s) && Timing(c, s)
    ensures Timing(c, AddTransaction(c, s, tr))
  {
    hide Timing, TimingSent, TimingFree, TimingAged, QueuesOK, Tracking, RankOK, PowerFlags, BanksOK, Static;
    DataOnly(c, s, AddTransaction(c, s, tr));
  }

  lemma InitialTiming(c: Config)
    requires c.Valid()
    ensures Timing(c, Initial(c))
  {
    var s := Initial(c);
    forall r | 0 <= r < c.NumRanks()
      ensures RankOK(c, 0, r, s.mc.banks[r], s.mc.queue.rowAccessCounters[r], s.mc.queue.queues[r])
      ensures RowTracks(s.mc.banks[r], Settled(c, 0, None, r, s.ranks[r]))
      ensures PowerFlag(s.mc.banks[r], s.mc.powerDown[r], s.ranks[r])
    {
      assert s.mc.banks[r] == Repeat(c.NumBanks(), FRESH_BANK) == s.ranks[r].banks;
    }
  }
}
