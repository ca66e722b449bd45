// The part of a channel that decides which commands are issued, while no refresh is due:
// bank table, queues, waiting transactions and power flags.
module ControlPath {
  import opened Wrappers
  import opened SystemConfiguration
  import opened BankState
  import opened Scheduler
  import opened QueueInvariant
  import opened Channel
  import opened AddressMapping
  import opened TimingSafety
  import opened ReadPipeline
  import opened Conservation
  import opened ChannelSafety
  import opened OneCycle
  import opened Sequences

  datatype Control = Control(
    clock: nat, banks: BankTable, queue: QueueState, transactions: seq<Transaction>, powerDown: seq<bool>)

  predicate Fits(c: Config, x: Control) {
    TableShape(c, x.banks) && Shape(c, x.queue) && |x.powerDown| == c.NumRanks()
  }

  function ControlOf(s: ChannelState): Control {
    Control(s.clock, s.mc.banks, s.mc.queue, s.mc.transactionQueue, s.mc.powerDown)
  }

  // The power handling of a rank that no refresh waits for.
  function PowerRow(c: Config, t: int, row: seq<Bank>, flag: bool, empty: bool): (out: (seq<Bank>, bool))
    requires |row| > 0
    ensures |out.0| == |row|
  {
    if empty then (if AllIdle(row) then (PoweredDownRow(c, t, row), true) else (row, flag))
    else if t >= row[0].nextPowerUp && flag then (PoweredUpRow(c, t, row), false)
    else (row, flag)
  }

  function PowerAll(c: Config, t: int, banks: BankTable, flags: seq<bool>, q: QueueState): (out: (BankTable, seq<bool>))
    requires TableShape(c, banks) && Shape(c, q) && |flags| == c.NumRanks()
    ensures TableShape(c, out.0) && |out.1| == c.NumRanks()
  {
    if !c.useLowPower then (banks, flags)
    else
      (seq(c.NumRanks(), r requires 0 <= r < c.NumRanks() => PowerRow(c, t, banks[r], flags[r], RankQueuesEmpty(c, q, r)).0),
       seq(c.NumRanks(), r requires 0 <= r < c.NumRanks() => PowerRow(c, t, banks[r], flags[r], RankQueuesEmpty(c, q, r)).1))
  }

  // One transaction, the first with room, becomes an activate and a column access.
  function ExpandOne(c: Config, q: QueueState, trs: seq<Transaction>): (out: (QueueState, seq<Transaction>))
    requires Shape(c, q)
    ensures Shape(c, out.0)
  {
    var i := FirstWithRoom(c, q, trs);
    if i == |trs| then (q, trs)
    else
      var tr := trs[i];
      var cur := Target(c, tr);
      var queue := QueueAt(c, q, cur) + [CommandFor(c, ACTIVATE, tr), CommandFor(c, CommandKind(c, tr), tr)];
      (q.(queues := Put(q.queues, cur.rank, Slot(c, cur.bank), queue)), Drop(trs, i))
  }

  // One cycle, and the command it issues.
  function Next(c: Config, x: Control): (out: (Control, Option<BusPacket>))
    requires Fits(c, x)
    ensures Fits(c, out.0) && out.0.clock == x.clock + 1
  {
    hide PopSpec, ExpandOne;
    var aged := AgeAll(c, x.banks);
    var (q, popped) := PopSpec(c, x.clock, aged, x.queue);
    var banks := if popped.Some? then IssueAll(c, x.clock, popped.value, aged) else aged;
    var (q', trs) := ExpandOne(c, q, x.transactions);
    var (banks', flags) := PowerAll(c, x.clock, banks, x.powerDown, q');
    (Control(x.clock + 1, banks', q', trs, flags), popped)
  }

  // ---- The channel follows its control ----

  ghost predicate NoneFlagged(s: ChannelState) {
    forall r :: 0 <= r < |s.ranks| ==> !s.ranks[r].refreshWaiting
  }

  // No refresh waits, and none will up to cycle `end`; nothing waits outside.
  ghost predicate Calm(c: Config, s: ChannelState, end: nat) {
    && !s.mc.queue.refreshWaiting && NoneFlagged(s) && s.pending == []
    && forall r :: 0 <= r < |s.mc.refreshCountdown| ==> s.mc.refreshCountdown[r] + s.clock > end + c.tXP
  }

  // Everything control looks at but for banks and queue, and everything that keeps calm.
  predicate SameRest(s: ChannelState, s': ChannelState) {
    && s'.clock == s.clock && s'.pending == s.pending
    && s'.mc.powerDown == s.mc.powerDown && s'.mc.refreshCountdown == s.mc.refreshCountdown
    && s'.mc.refreshRank == s.mc.refreshRank
  }

  lemma FirstHalfCalm(c: Config, s: ChannelState)
    requires WellFormed(c, s) && FirstHalf(c, s).Ok? && s.pending == [] && NoneFlagged(s)
    ensures var s' := FirstHalf(c, s).value;
      SameRest(s, s') && NoneFlagged(s') && s'.mc.transactionQueue == s.mc.transactionQueue
  {
    hide UpdateRanks, DeliverCommand, AgeAll;
    RanksMoveNoWrite(c, s);
    var s1 := UpdateRanks(c, s).value;
    RanksStayUnflagged(c, s);
    assert AdmitPending(c, s1) == s1;
    DeliveryMovesNoWrite(c, AgeBanks(c, s1));
    DeliveryStaysUnflagged(c, AgeBanks(c, s1));
  }

  lemma RanksStayUnflagged(c: Config, s: ChannelState)
    requires WellFormed(c, s) && UpdateRanks(c, s).Ok? && NoneFlagged(s)
    ensures NoneFlagged(UpdateRanks(c, s).value) && UpdateRanks(c, s).value.pending == s.pending
  {
    hide MovedRanks, OutputsUpTo, Output, Shape, TableOf, TableShape;
  }

  lemma DeliveryStaysUnflagged(c: Config, s: ChannelState)
    requires WellFormed(c, s) && DeliverCommand(c, s).Ok? && NoneFlagged(s)
    ensures NoneFlagged(DeliverCommand(c, s).value) && DeliverCommand(c, s).value.pending == s.pending
  {
    hide Accepts, Apply;
  }

  lemma DataBusCalm(c: Config, s: ChannelState)
    requires WellFormed(c, s) && DriveDataBus(c, s).Ok?
    ensures var s' := DriveDataBus(c, s).value;
      SameRest(s, s') && s'.ranks == s.ranks && s'.mc.transactionQueue == s.mc.transactionQueue
  {
  }

  // The refresh timer leaves a calm channel alone.
  lemma TimerCalm(c: Config, s: ChannelState, end: nat)
    requires WellFormed(c, s) && Calm(c, s, end) && s.clock <= end
    ensures RefreshTimer(c, s) == s
  {
  }

  lemma PopCalm(c: Config, s: ChannelState)
    requires WellFormed(c, s) && IssueCommand(c, s).Ok?
    ensures var s' := IssueCommand(c, s).value;
      SameRest(s, s') && s'.ranks == s.ranks && s'.mc.transactionQueue == s.mc.transactionQueue
  {
    hide PopSpec, IssueAll, Issue, Shape, IssueWrite, IssueRead, TableOf, TableShape;
  }

  lemma ExpandCalm(c: Config, s: ChannelState)
    requires c.Valid() && WellFormed(c, s) && AfterPop(c, s)
    ensures ExpandTransaction(c, s).Ok?
    ensures var s' := ExpandTransaction(c, s).value;
      && SameRest(s, s') && s'.ranks == s.ranks && s'.mc.banks == s.mc.banks && s'.mc.issued == s.mc.issued
      && (s'.mc.queue, s'.mc.transactionQueue) == ExpandOne(c, s.mc.queue, s.mc.transactionQueue)
  {
    hide TimingSent, Reads, Matched, Decode, Put, Enqueue;
    ShortTargets(c, s);
    ExpandedState(c, s);
  }

  // ---- Power ----

  lemma PowerOneIsRow(c: Config, t: int, row: seq<Bank>, flag: bool, empty: bool, k: RankState)
    requires |row| > 0 && !k.refreshWaiting && PowerOne(c, t, row, flag, empty, k).Ok?
    ensures var (row', flag', k') := PowerOne(c, t, row, flag, empty, k).value;
      (row', flag') == PowerRow(c, t, row, flag, empty) && !k'.refreshWaiting
  {
  }

  lemma {:induction false} PowerRanksAre(c: Config, s: ChannelState, n: nat)
    requires WellFormed(c, s) && n <= c.NumRanks() && NoneFlagged(s) && PowerRanks(c, s, n).Ok?
    ensures var s' := PowerRanks(c, s, n).value;
      && NoneFlagged(s')
      && (forall r :: 0 <= r < n ==>
            PowerRow(c, s.clock, s.mc.banks[r], s.mc.powerDown[r], RankQueuesEmpty(c, s.mc.queue, r))
              == (s'.mc.banks[r], s'.mc.powerDown[r]))
      && forall r :: n <= r < c.NumRanks() ==>
           s'.mc.banks[r] == s.mc.banks[r] && s'.mc.powerDown[r] == s.mc.powerDown[r] && s'.ranks[r] == s.ranks[r]
  {
    hide PowerOne, PowerRow, RankQueuesEmpty, Shape;
    if n > 0 {
      PowerRanksAre(c, s, n - 1);
      var s1 := PowerRanks(c, s, n - 1).value;
      var r := n - 1;
      PowerOneIsRow(c, s.clock, s1.mc.banks[r], s1.mc.powerDown[r], RankQueuesEmpty(c, s1.mc.queue, r), s1.ranks[r]);
    }
  }

  lemma PowerCalm(c: Config, s: ChannelState)
    requires WellFormed(c, s) && NoneFlagged(s) && ManagePower(c, s).Ok?
    ensures var s' := ManagePower(c, s).value;
      && SameRest(s.(mc := s.mc.(powerDown := s'.mc.powerDown)), s') && NoneFlagged(s')
      && s'.mc.queue == s.mc.queue && s'.mc.transactionQueue == s.mc.transactionQueue && s'.mc.issued == s.mc.issued
      && (s'.mc.banks, s'.mc.powerDown) == PowerAll(c, s.clock, s.mc.banks, s.mc.powerDown, s.mc.queue)
  {
    hide PowerRanks, PowerRow, RankQueuesEmpty;
    if c.useLowPower {
      PowerMovesNoRead(c, s, c.NumRanks());
      PowerRanksAre(c, s, c.NumRanks());
      var s' := PowerRanks(c, s, c.NumRanks()).value;
      var (banks, flags) := PowerAll(c, s.clock, s.mc.banks, s.mc.powerDown, s.mc.queue);
      assert s'.mc.banks == banks && s'.mc.powerDown == flags;
    }
  }

  lemma EndCalm(c: Config, s: ChannelState)
    requires WellFormed(c, s) && ReturnRead(c, s).Ok?
    ensures var s' := CountRefresh(c, ReturnRead(c, s).value);
      && SameRest(s.(mc := s.mc.(refreshCountdown := DecAll(s.mc.refreshCountdown))), s') && s'.ranks == s.ranks
      && s'.mc.queue == s.mc.queue && s'.mc.banks == s.mc.banks && s'.mc.transactionQueue == s.mc.transactionQueue
      && s'.mc.issued == s.mc.issued
  {
    hide IndexOf, DecAll;
  }

  // ---- One cycle ----

  lemma PopStaysCalm(c: Config, t: int, banks: BankTable, q: QueueState)
    requires TableShape(c, banks) && Shape(c, q) && !q.refreshWaiting
    ensures !PopSpec(c, t, banks, q).0.refreshWaiting
  {
    hide FirstReady, FirstEligible, FirstClosable, AdvanceQueue, AdvanceBank, Put, AgeWindow, NextRankAndBank;
  }

  lemma UpToPop(c: Config, s: ChannelState, end: nat)
    requires c.Valid() && WellFormed(c, s) && Safe(c, s) && Calm(c, s, end) && s.clock <= end
    requires FirstHalf(c, s).Ok? && DriveDataBus(c, FirstHalf(c, s).value).Ok?
    ensures var s2 := DriveDataBus(c, FirstHalf(c, s).value).value;
      && AtDataBus(c, s2) && RefreshTimer(c, s2) == s2 && SameRest(s, s2) && Calm(c, s2, end)
      && s2.mc.banks == AgeAll(c, s.mc.banks) && s2.mc.queue == s.mc.queue
      && s2.mc.transactionQueue == s.mc.transactionQueue && s2.mc.issued == s.mc.issued
  {
    hide FirstHalf, DriveDataBus, Safe, AtDataBus, RefreshTimer, WellFormed;
    FirstHalfIsSafe(c, s);
    FirstHalfMoves(c, s);
    FirstHalfCalm(c, s);
    var s1 := FirstHalf(c, s).value;
    DataBusKeepsRest(c, s1);
    DataBusMoves(c, s1);
    DataBusCalm(c, s1);
    TimerCalm(c, DriveDataBus(c, s1).value, end);
  }

  // The rest of the cycle, from the pop on.
  lemma FromPop(c: Config, s: ChannelState)
    requires c.Valid() && WellFormed(c, s) && AtDataBus(c, s) && RefreshTimer(c, s) == s && NoneFlagged(s)
    ensures SecondHalf(c, s).Ok?
    ensures var s' := SecondHalf(c, s).value;
      var (q, popped) := PopSpec(c, s.clock, s.mc.banks, s.mc.queue);
      var banks := if popped.Some? then IssueAll(c, s.clock, popped.value, s.mc.banks) else s.mc.banks;
      var (q', trs) := ExpandOne(c, q, s.mc.transactionQueue);
      && s'.clock == s.clock + 1 && s'.pending == s.pending && NoneFlagged(s')
      && s'.mc.refreshCountdown == DecAll(s.mc.refreshCountdown)
      && s'.mc.queue == q' && s'.mc.transactionQueue == trs && s'.mc.issued == s.mc.issued + [popped]
      && (s'.mc.banks, s'.mc.powerDown) == PowerAll(c, s.clock, banks, s.mc.powerDown, q')
  {
    hide AtDataBus, AfterPop, IssueCommand, ExpandTransaction, ManagePower, ReturnRead, RefreshTimer, CountRefresh,
         WellFormed, PopSpec, IssueAll, PowerAll, ExpandOne, DecAll;
    PopKeepsAll(c, s);
    PopMoves(c, s);
    PopCalm(c, s);
    var s3 := IssueCommand(c, s).value;
    ExpandKeepsAll(c, s3);
    ExpandCalm(c, s3);
    var s4 := ExpandTransaction(c, s3).value;
    PowerKeepsAll(c, s4);
    PowerCalm(c, s4);
    var s5 := ManagePower(c, s4).value;
    ReturnKeepsAll(c, s5);
    EndCalm(c, s5);
  }

  lemma StaysCalm(c: Config, s: ChannelState, s': ChannelState, end: nat)
    requires Calm(c, s, end) && s'.clock == s.clock + 1 && s'.pending == [] && NoneFlagged(s')
    requires !s'.mc.queue.refreshWaiting && s'.mc.refreshCountdown == DecAll(s.mc.refreshCountdown)
    ensures Calm(c, s', end)
  {
  }

  // While no refresh is due, a cycle of the channel that does not stop issues and leaves
  // what its control says.
  lemma UpdateFollowsControl(c: Config, s: ChannelState, end: nat)
    requires c.Valid() && WellFormed(c, s) && Safe(c, s) && Calm(c, s, end) && s.clock <= end && Update(c, s).Ok?
    ensures var s' := Update(c, s).value;
      && Fits(c, ControlOf(s)) && Calm(c, s', end)
      && ControlOf(s') == Next(c, ControlOf(s)).0 && s'.mc.issued == s.mc.issued + [Next(c, ControlOf(s)).1]
  {
    hide Update, FirstHalf, SecondHalf, DriveDataBus, Safe, AtDataBus, Calm, NoneFlagged, RefreshTimer, PopSpec,
         IssueAll, PowerAll, ExpandOne;
    UpdateInHalves(c, s);
    UpToPop(c, s, end);
    var s2 := DriveDataBus(c, FirstHalf(c, s).value).value;
    CalmParts(c, s2, end);
    FromPop(c, s2);
    PopStaysCalm(c, s.clock, s2.mc.banks, s2.mc.queue);
    ExpandStaysCalm(c, PopSpec(c, s.clock, s2.mc.banks, s2.mc.queue).0, s2.mc.transactionQueue);
    StaysCalm(c, s2, Update(c, s).value, end);
  }

  lemma CalmParts(c: Config, s: ChannelState, end: nat)
    requires Calm(c, s, end)
    ensures NoneFlagged(s) && !s.mc.queue.refreshWaiting && s.pending == []
  {
  }

  lemma ExpandStaysCalm(c: Config, q: QueueState, trs: seq<Transaction>)
    requires Shape(c, q) && !q.refreshWaiting
    ensures !ExpandOne(c, q, trs).0.refreshWaiting
  {
  }
}
