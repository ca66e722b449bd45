// The order in which transactions are taken up: in each cycle the first one with room for
// its commands, and the others keep their order; only a newcomer can get past those that
// wait outside the controller.
module ServiceOrder {
  import opened Wrappers
  import opened SystemConfiguration
  import opened AddressMapping
  import opened BankState
  import opened Scheduler
  import opened QueueInvariant
  import opened Channel
  import opened TimingSafety
  import opened Conservation
  import opened ChannelSafety
  import opened OneCycle
  import opened Runs
  import opened Sequences

  // All transactions that wait, those inside the controller first.
  function Line(s: ChannelState): seq<Transaction> {
    s.mc.transactionQueue + s.pending
  }

  // How many of them are inside once the controller has let one in.
  function Inside(c: Config, s: ChannelState): (n: nat)
    ensures |s.mc.transactionQueue| <= n <= |Line(s)|
  {
    |s.mc.transactionQueue| + if s.pending != [] && WillAcceptTransaction(c, s) then 1 else 0
  }

  predicate SameLine(s: ChannelState, s': ChannelState) {
    s'.mc.transactionQueue == s.mc.transactionQueue && s'.pending == s.pending
  }

  lemma AdmittedInOrder(c: Config, s: ChannelState)
    requires WellFormed(c, s)
    ensures var s', n := AdmitPending(c, s), Inside(c, s);
      s'.mc.transactionQueue == Line(s)[..n] && s'.pending == Line(s)[n..]
  {
  }

  lemma FirstHalfLine(c: Config, s: ChannelState)
    requires WellFormed(c, s) && FirstHalf(c, s).Ok?
    ensures var s', n := FirstHalf(c, s).value, Inside(c, s);
      s'.mc.transactionQueue == Line(s)[..n] && s'.pending == Line(s)[n..]
  {
    hide AdmitPending, DeliverCommand, AgeBanks, OutputsUpTo;
    var s1 := UpdateRanks(c, s).value;
    AdmittedInOrder(c, s1);
    AgeBanksMovesNothing(c, AdmitPending(c, s1));
    DeliveryLine(c, AgeBanks(c, AdmitPending(c, s1)));
  }

  lemma DeliveryLine(c: Config, s: ChannelState)
    requires WellFormed(c, s) && DeliverCommand(c, s).Ok?
    ensures SameLine(s, DeliverCommand(c, s).value)
  {
    hide Accepts, Apply;
  }

  lemma PopStateLine(c: Config, s: ChannelState)
    requires WellFormed(c, s) && PopState(c, s).Ok?
    ensures var s', n := PopState(c, s).value, Inside(c, s);
      s'.mc.transactionQueue == Line(s)[..n] && s'.pending == Line(s)[n..]
  {
    hide FirstHalf;
    FirstHalfLine(c, s);
  }

  lemma PopLine(c: Config, s: ChannelState)
    requires WellFormed(c, s) && IssueCommand(c, s).Ok?
    ensures SameLine(s, IssueCommand(c, s).value)
    ensures IssueCommand(c, s).value.mc.queue == PopSpec(c, s.clock, s.mc.banks, s.mc.queue).0
  {
    hide PopSpec, IssueAll;
  }

  lemma RestLine(c: Config, s: ChannelState)
    requires WellFormed(c, s) && ManagePower(c, s).Ok? && ReturnRead(c, ManagePower(c, s).value).Ok?
    ensures var s' := ReturnRead(c, ManagePower(c, s).value).value; SameLine(s, s') && s'.mc.queue == s.mc.queue
  {
    hide PowerRanks;
    if c.useLowPower {
      PowerMovesNoRead(c, s, c.NumRanks());
    }
  }

  // Transaction k of the line is taken up, or none if k is the number of those inside.
  ghost predicate Serves(c: Config, s: ChannelState, s': ChannelState, q: QueueState, k: nat)
    requires WellFormed(c, s) && Shape(c, q)
  {
    var line, n := Line(s), Inside(c, s);
    && k <= n && s'.pending == line[n..]
    && (forall j :: 0 <= j < k ==> !HasRoomFor(c, q, 2, Target(c, line[j])))
    && if k < n then
         && HasRoomFor(c, q, 2, Target(c, line[k])) && Expanded(c, q, line[k], s'.mc.queue)
         && s'.mc.transactionQueue == Drop(line[..n], k)
       else s'.mc.transactionQueue == line[..n] && s'.mc.queue.queues == q.queues
  }

  lemma SecondHalfServes(c: Config, s: ChannelState, s1: ChannelState)
    requires c.Valid() && WellFormed(c, s) && WellFormed(c, s1) && AtDataBus(c, s1) && SecondHalf(c, s1).Ok?
    requires var n := Inside(c, s); s1.mc.transactionQueue == Line(s)[..n] && s1.pending == Line(s)[n..]
    ensures var s2 := RefreshTimer(c, s1);
      var q := PopSpec(c, s2.clock, s2.mc.banks, s2.mc.queue).0;
      Serves(c, s, SecondHalf(c, s1).value, q, FirstWithRoom(c, q, Line(s)[..Inside(c, s)]))
  {
    hide AtDataBus, AfterPop, IssueCommand, ExpandTransaction, ManagePower, ReturnRead, RefreshTimer, PopSpec, Line, Inside,
         FirstWithRoom, Expanded;
    RefreshTimerKeepsAll(c, s1);
    TimerLine(c, s1);
    var s2 := RefreshTimer(c, s1);
    PopKeepsAll(c, s2);
    PopLine(c, s2);
    var s3 := IssueCommand(c, s2).value;
    ShortTargetsAt(c, s3);
    ExpandServes(c, s, s3);
    RestLine(c, ExpandTransaction(c, s3).value);
  }

  lemma ExpandKeepsPending(c: Config, s: ChannelState)
    requires WellFormed(c, s) && ExpandTransaction(c, s).Ok?
    ensures ExpandTransaction(c, s).value.pending == s.pending
  {
    hide Enqueue, FirstWithRoom, Target, CommandFor;
  }

  lemma ExpandServes(c: Config, s: ChannelState, s1: ChannelState)
    requires WellFormed(c, s) && WellFormed(c, s1)
    requires s1.mc.transactionQueue == Line(s)[..Inside(c, s)] && s1.pending == Line(s)[Inside(c, s)..]
    requires var i := FirstWithRoom(c, s1.mc.queue, s1.mc.transactionQueue);
      i < |s1.mc.transactionQueue| ==> |QueueAt(c, s1.mc.queue, Target(c, s1.mc.transactionQueue[i]))| <= c.cmdQueueDepth
    ensures ExpandTransaction(c, s1).Ok?
    ensures Serves(c, s, ExpandTransaction(c, s1).value, s1.mc.queue, FirstWithRoom(c, s1.mc.queue, Line(s)[..Inside(c, s)]))
  {
    hide FirstWithRoom, HasRoomFor, Put, Target, ExpandTransaction, Line, Inside, Decode;
    ExpandedState(c, s1);
    ExpandKeepsPending(c, s1);
    var line, n := Line(s), Inside(c, s);
    var k := FirstWithRoom(c, s1.mc.queue, line[..n]);
    forall j | 0 <= j < k ensures !HasRoomFor(c, s1.mc.queue, 2, Target(c, line[j])) {
      assert line[..n][j] == line[j];
    }
    assert k < n ==> line[..n][k] == line[k];
  }

  lemma DataBusLine(c: Config, s: ChannelState)
    requires WellFormed(c, s) && DriveDataBus(c, s).Ok?
    ensures SameLine(s, DriveDataBus(c, s).value)
  {
  }

  lemma TimerLine(c: Config, s: ChannelState)
    requires WellFormed(c, s)
    ensures SameLine(s, RefreshTimer(c, s))
  {
  }

  lemma ShortTargetsAt(c: Config, s: ChannelState)
    requires WellFormed(c, s) && AfterPop(c, s)
    ensures var i := FirstWithRoom(c, s.mc.queue, s.mc.transactionQueue);
      i < |s.mc.transactionQueue| ==> |QueueAt(c, s.mc.queue, Target(c, s.mc.transactionQueue[i]))| <= c.cmdQueueDepth
  {
    hide TimingSent;
    ShortTargets(c, s);
  }

  // Every cycle takes up the first transaction whose queue has room for two commands, if
  // there is one, and leaves the rest of the line in its order.
  lemma EveryCycleServesTheFirst(c: Config, s: ChannelState)
    requires c.Valid() && WellFormed(c, s) && Safe(c, s) && Update(c, s).Ok?
    ensures PopState(c, s).Ok? && Inside(c, s) <= |Line(s)|
    ensures Serves(c, s, Update(c, s).value, Popped(c, s).0, FirstWithRoom(c, Popped(c, s).0, Line(s)[..Inside(c, s)]))
  {
    hide Update, FirstHalf, SecondHalf, DriveDataBus, Safe, AtDataBus, RefreshTimer, PopSpec, Serves, Inside, Line, CycleEnd,
         FirstWithRoom, WellFormed;
    CycleShape(c, s);
    PopStateIs(c, s);
    UpdateInHalves(c, s);
    FirstHalfIsSafe(c, s);
    FirstHalfLine(c, s);
    var s1 := FirstHalf(c, s).value;
    DataBusKeepsRest(c, s1);
    DataBusLine(c, s1);
    SecondHalfServes(c, s, DriveDataBus(c, s1).value);
  }

  // ---- Newcomers ----

  // A new transaction goes to the end of the line, except that it gets past those that wait
  // outside exactly when there are some and the controller has room again.
  lemma NewcomerWaitsExactlyWhen(c: Config, s: ChannelState, tr: Transaction)
    requires WellFormed(c, s) && tr !in s.pending
    ensures Line(AddTransaction(c, s, tr)) == Line(s) + [tr] <==> s.pending == [] || !WillAcceptTransaction(c, s)
    ensures s.pending != [] && WillAcceptTransaction(c, s) ==>
      Line(AddTransaction(c, s, tr)) == s.mc.transactionQueue + [tr] + s.pending
  {
    var line, line', n := Line(s) + [tr], Line(AddTransaction(c, s, tr)), |s.mc.transactionQueue|;
    if s.pending == [] || !WillAcceptTransaction(c, s) {
      assert line' == line;
    } else {
      assert line'[n] == tr && line[n] == s.pending[0];
    }
  }

  lemma {:induction false} FullLine(c: Config, s: ChannelState, trs: seq<Transaction>)
    requires WellFormed(c, s) && !WillAcceptTransaction(c, s)
    ensures var s' := AddAll(c, s, trs); s'.mc == s.mc && s'.pending == s.pending + trs
    decreases trs
  {
    hide WellFormed;
    if trs != [] {
      FullLine(c, AddTransaction(c, s, trs[0]), trs[1..]);
      assert trs == [trs[0]] + trs[1..];
    }
  }

  lemma {:induction false} FilledLine(c: Config, s: ChannelState, trs: seq<Transaction>)
    requires WellFormed(c, s) && s.pending == [] && |s.mc.transactionQueue| <= c.transQueueDepth
    requires |s.mc.transactionQueue| + |trs| == c.transQueueDepth + 1
    ensures trs != []
    ensures var s', n := AddAll(c, s, trs), |trs| - 1;
      s'.mc.transactionQueue == s.mc.transactionQueue + trs[..n] && s'.pending == trs[n..] && s'.mc.queue == s.mc.queue
    decreases trs
  {
    hide WellFormed;
    if WillAcceptTransaction(c, s) {
      FilledLine(c, AddTransaction(c, s, trs[0]), trs[1..]);
      assert trs == [trs[0]] + trs[1..];
      assert trs[..|trs| - 1] == [trs[0]] + trs[1..][..|trs| - 2];
    } else {
      FullLine(c, s, trs);
    }
  }

  lemma StartLine(c: Config)
    ensures var s := Initial(c);
      s.mc.transactionQueue == [] && s.pending == [] && EmptySlotsOf(c, s.mc.queue) && s.mc.writeDataCountdown == []
  {
    hide Shape;
  }

  predicate EmptySlotsOf(c: Config, q: QueueState) {
    forall r, i :: 0 <= r < |q.queues| && 0 <= i < |q.queues[r]| ==> q.queues[r][i] == []
  }

  lemma NothingToPop(c: Config, t: int, banks: BankTable, q: QueueState)
    requires TableShape(c, banks) && Shape(c, q) && EmptySlotsOf(c, q)
    ensures EmptySlotsOf(c, PopSpec(c, t, banks, q).0)
  {
    hide AgeWindow, NextRankAndBank, Choose;
    var q0 := AgeWindows(q);
    SameSlots(c, q, q0);
    ChooseNothing(c, t, banks, q0);
    var (q1, p) := Choose(c, t, banks, q0);
    SameSlots(c, q1, PopSpec(c, t, banks, q).0);
  }

  lemma ChooseNothing(c: Config, t: int, banks: BankTable, q: QueueState)
    requires TableShape(c, banks) && Shape(c, q) && EmptySlotsOf(c, q)
    ensures Choose(c, t, banks, q).0.queues == q.queues
  {
    hide RefreshWork, ScanQueues, ScanBanks, EmptySlotsOf;
    RefreshNothing(c, t, banks, q);
    var q1 := RefreshWork(c, t, banks, q).0;
    SameSlots(c, q, q1);
    ScanNothing(c, t, banks, q1);
    ClosesNothing(c, t, banks, ScanQueues(c, t, banks, q1).0);
  }

  lemma RefreshNothing(c: Config, t: int, banks: BankTable, q: QueueState)
    requires TableShape(c, banks) && Shape(c, q) && EmptySlotsOf(c, q)
    ensures RefreshWork(c, t, banks, q).0.queues == q.queues
  {
    hide FirstBusy, Issuable, FirstTo;
  }

  lemma ScanNothing(c: Config, t: int, banks: BankTable, q: QueueState)
    requires TableShape(c, banks) && Shape(c, q) && EmptySlotsOf(c, q)
    ensures ScanQueues(c, t, banks, q) == (q, None)
  {
    hide TakeFrom, AdvanceQueue, Eligible;
  }

  lemma ClosesNothing(c: Config, t: int, banks: BankTable, q: QueueState)
    requires TableShape(c, banks) && Shape(c, q)
    ensures ScanBanks(c, t, banks, q).0.queues == q.queues
  {
    hide FirstClosable, AdvanceBank;
  }

  // In the first cycle there is no write that could meet the bus busy.
  lemma FirstCycleGoes(c: Config, s: ChannelState)
    requires c.Valid() && WellFormed(c, s) && Safe(c, s) && s.mc.writeDataCountdown == []
    ensures Update(c, s).Ok?
  {
    hide FirstHalf, SecondHalf, Safe, AtDataBus, Update;
    UpdateInHalves(c, s);
    FirstHalfIsSafe(c, s);
    FirstHalfMoves(c, s);
    DataBusKeepsRest(c, FirstHalf(c, s).value);
    SecondHalfIsSafe(c, DriveDataBus(c, FirstHalf(c, s).value).value);
  }

  // Into empty queues the first transaction goes.
  lemma FirstIsServed(c: Config, s: ChannelState, s': ChannelState, q: QueueState, trs: seq<Transaction>)
    requires c.Valid() && WellFormed(c, s) && Shape(c, q) && EmptySlotsOf(c, q) && |trs| == c.transQueueDepth + 1 >= 2
    requires s.mc.transactionQueue == trs[..|trs| - 1] && s.pending == trs[|trs| - 1..]
    requires Serves(c, s, s', q, FirstWithRoom(c, q, Line(s)[..Inside(c, s)]))
    ensures s'.mc.transactionQueue == trs[1..|trs| - 1] && s'.pending == trs[|trs| - 1..]
  {
    hide Expanded, Target, FirstWithRoom;
    var n := |trs| - 1;
    assert Line(s) == trs && Inside(c, s) == n;
    var k := FirstWithRoom(c, q, trs[..n]);
    assert HasRoomFor(c, q, 2, Target(c, trs[..n][0]));
    assert k == 0;
  }

  // Requests fill the controller and one has to wait outside; after one cycle, a newcomer
  // goes ahead of it.
  lemma NewcomerGetsPast(c: Config, trs: seq<Transaction>, tr: Transaction)
    requires c.Valid() && c.transQueueDepth >= 1 && |trs| == c.transQueueDepth + 1
    ensures Run(c, Initial(c), [trs]).Ok?
    ensures Line(AddTransaction(c, Run(c, Initial(c), [trs]).value, tr)) == trs[1..|trs| - 1] + [tr] + [trs[|trs| - 1]]
  {
    hide Safe, Initial, WellFormed, Update, PopState, Serves, PopSpec, EmptySlotsOf, AddAll;
    InitialIsSafe(c);
    StartLine(c);
    var s := AddAll(c, Initial(c), trs);
    AddAllKeeps(c, Initial(c), trs);
    AddAllOnlyRequests(c, Initial(c), trs);
    FilledLine(c, Initial(c), trs);
    FirstCycleGoes(c, s);
    EveryCycleServesTheFirst(c, s);
    PopStateIs(c, s);
    var s1 := PopState(c, s).value;
    NothingToPop(c, s1.clock, s1.mc.banks, s1.mc.queue) by {
      SameSlots(c, s.mc.queue, s1.mc.queue);
    }
    FirstIsServed(c, s, Update(c, s).value, Popped(c, s).0, trs);
    assert Run(c, Initial(c), [trs]) == Run(c, Update(c, s).value, []);
  }

  lemma SameSlots(c: Config, q: QueueState, q': QueueState)
    requires EmptySlotsOf(c, q) && q'.queues == q.queues
    ensures EmptySlotsOf(c, q')
  {
  }
}
