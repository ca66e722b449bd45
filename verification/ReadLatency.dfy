// The data of a read is handed to the host a fixed number of cycles after its command was
// issued, never earlier or later, and so in the order of the commands.
module ReadLatency {
  import opened Wrappers
  import opened SystemConfiguration
  import opened BankState
  import opened Bursts
  import opened Scheduler
  import opened QueueInvariant
  import opened Channel
  import opened TimingSafety
  import opened ReadPipeline
  import opened Conservation
  import opened ChannelSafety
  import opened OneCycle
  import opened Runs

  // ---- What a rank holds ----

  // From the time a rank takes a read to the time its data has been delivered.
  function Latency(c: Config): nat {
    c.CL + c.AL + c.BL / 2
  }

  function InPipe(c: Config, packets: seq<BusPacket>, countdowns: seq<nat>): (bursts: seq<Burst>)
    requires |packets| == |countdowns|
    ensures |bursts| == |packets|
    ensures forall i :: 0 <= i < |bursts| ==> bursts[i] == Burst(packets[i], countdowns[i] + c.BL / 2)
  {
    seq(|packets|, i requires 0 <= i < |packets| => Burst(packets[i], countdowns[i] + c.BL / 2))
  }

  // The burst in the output slot.
  function InOutput(k: RankState): seq<Burst> {
    if k.outgoing.Some? then [Burst(k.outgoing.value, k.dataCyclesLeft)] else []
  }

  // All bursts of a rank, the next one to be delivered first.
  function Held(c: Config, k: RankState): seq<Burst>
    requires |k.readReturnPacket| == |k.readReturnCountdown|
  {
    InOutput(k) + InPipe(c, k.readReturnPacket, k.readReturnCountdown)
  }

  // The rank's pipeline in one cycle.
  lemma PipeMoves(c: Config, k: RankState)
    requires c.Valid() && Spaced(c, k)
    ensures var w, d := k.readReturnCountdown, DecAll(k.readReturnCountdown);
      |d| == |w| == |k.readReturnPacket| && Later(InPipe(c, k.readReturnPacket, w)) == InPipe(c, k.readReturnPacket, d)
  {
    var w, d := k.readReturnCountdown, DecAll(k.readReturnCountdown);
    assert c.BL / 2 >= 1;
    LaterAll(InPipe(c, k.readReturnPacket, w), InPipe(c, k.readReturnPacket, d));
  }

  lemma OutputMoves(c: Config, k: RankState)
    requires Spaced(c, k)
    ensures Later(InOutput(k)) ==
      if k.outgoing.Some? && k.dataCyclesLeft > 1 then [Burst(k.outgoing.value, k.dataCyclesLeft - 1)] else []
  {
    if k.outgoing.Some? {
      LaterOne(InOutput(k)[0]);
    }
  }

  // The burst that is due leaves.
  lemma OutputIsDue(c: Config, k: RankState)
    requires c.Valid() && Spaced(c, k)
    ensures RankUpdate(c, k).1 == DueNow(Held(c, k))
  {
    assert c.BL / 2 >= 1;
  }

  // The first packet of the pipeline takes the output slot.
  lemma FirstStarts(c: Config, k: RankState)
    requires c.Valid() && Spaced(c, k) && |k.readReturnCountdown| > 0 && DecAll(k.readReturnCountdown)[0] == 0
    ensures Held(c, RankUpdate(c, k).0) == Later(InOutput(k)) + InPipe(c, k.readReturnPacket, DecAll(k.readReturnCountdown))
  {
    PopFirst(c, k);
    OutputMoves(c, k);
    hide RankUpdate, Later;
    var k', d := RankUpdate(c, k).0, DecAll(k.readReturnCountdown);
    assert InPipe(c, k.readReturnPacket, d)
        == [Burst(k.readReturnPacket[0], c.BL / 2)] + InPipe(c, k'.readReturnPacket, k'.readReturnCountdown);
  }

  lemma NoneStarts(c: Config, k: RankState)
    requires c.Valid() && Spaced(c, k) && (|k.readReturnCountdown| > 0 ==> DecAll(k.readReturnCountdown)[0] != 0)
    ensures Held(c, RankUpdate(c, k).0) == Later(InOutput(k)) + InPipe(c, k.readReturnPacket, DecAll(k.readReturnCountdown))
  {
    OutputMoves(c, k);
    hide Later;
  }

  // One cycle of a rank: everything it holds is one cycle nearer, and it delivers what is due.
  lemma RankMoves(c: Config, k: RankState)
    requires c.Valid() && Spaced(c, k)
    ensures var (k', out) := RankUpdate(c, k);
      Spaced(c, k') && Held(c, k') == Later(Held(c, k)) && out == DueNow(Held(c, k))
  {
    RankUpdateKeepsSpacing(c, k);
    OutputIsDue(c, k);
    PipeMoves(c, k);
    LaterConcat(InOutput(k), InPipe(c, k.readReturnPacket, k.readReturnCountdown));
    if |k.readReturnCountdown| > 0 && DecAll(k.readReturnCountdown)[0] == 0 {
      FirstStarts(c, k);
    } else {
      NoneStarts(c, k);
    }
    hide RankUpdate, InOutput, Later, DueNow, InPipe;
  }

  // ---- What the history says ----

  predicate IsReadOf(x: Option<BusPacket>, r: nat) {
    x.Some? && x.value.IsRead() && x.value.rank == r
  }

  function ReadsOf(r: nat): Option<BusPacket> -> bool {
    x => IsReadOf(x, r)
  }

  // The bursts of the reads that rank r has taken; the last command of h was taken `age`
  // cycles ago.
  function DueAt(c: Config, h: seq<Option<BusPacket>>, r: nat, age: nat): seq<Burst> {
    Due(Latency(c), ReadsOf(r), h, age)
  }

  // Addresses of the reads of a history.
  function ReadAddresses(h: seq<Option<BusPacket>>): seq<nat> {
    if h == [] then []
    else
      var x := h[|h| - 1];
      ReadAddresses(h[..|h| - 1]) + if x.Some? && x.value.IsRead() then [x.value.address] else []
  }

  // ---- The channel ----

  // The commands whose data has been delivered after t cycles.
  function Delivered(c: Config, t: nat): nat {
    if t > Latency(c) + 1 then t - Latency(c) - 1 else 0
  }

  // The commands the ranks have taken after t cycles.
  function Taken(t: nat): nat {
    if t == 0 then 0 else t - 1
  }

  ghost predicate RanksHold(c: Config, s: ChannelState, h: seq<Option<BusPacket>>, age: nat)
    requires WellFormed(c, s)
  {
    forall r :: 0 <= r < c.NumRanks() ==> Held(c, s.ranks[r]) == DueAt(c, h, r, age)
  }

  // Every command of the history goes to a rank of the channel.
  ghost predicate ToRanks(c: Config, h: seq<Option<BusPacket>>) {
    forall i :: 0 <= i < |h| && h[i].Some? ==> h[i].value.rank < c.NumRanks()
  }

  ghost predicate OnTime(c: Config, s: ChannelState)
    requires WellFormed(c, s)
  {
    var m, t := s.mc, s.clock;
    && |m.issued| == t && ToRanks(c, m.issued)
    && m.outgoingCmd == (if t == 0 then None else m.issued[t - 1])
    && RanksHold(c, s, m.issued[..Taken(t)], 0)
    && m.returned == ReadAddresses(m.issued[..Delivered(c, t)]) && m.returnTransaction == []
  }

  // ---- The ranks move ----

  // The command that was taken a latency ago, and the address it delivers if it is a read
  // of one of the first n ranks.
  function Oldest(c: Config, h: seq<Option<BusPacket>>): Option<BusPacket> {
    if Latency(c) > 0 && |h| >= Latency(c) then h[|h| - Latency(c)] else None
  }

  function AnswerBelow(x: Option<BusPacket>, n: nat): seq<nat> {
    if x.Some? && x.value.IsRead() && x.value.rank < n then [x.value.address] else []
  }

  lemma OutputIs(c: Config, s: ChannelState, h: seq<Option<BusPacket>>, r: nat)
    requires c.Valid() && WellFormed(c, s) && RanksHold(c, s, h, 0) && r < c.NumRanks() && Spaced(c, s.ranks[r])
    ensures var x := Oldest(c, h); Output(c, s, r) == if IsReadOf(x, r) then Some(x.value.(kind := DATA)) else None
  {
    hide Held, Spaced, Due, DueNow, RankUpdate;
    RankMoves(c, s.ranks[r]);
    DueIsOldest(Latency(c), ReadsOf(r), h, 0);
    assert Held(c, s.ranks[r]) == DueAt(c, h, r, 0);
  }

  lemma {:induction false} OutputsOf(c: Config, s: ChannelState, x: Option<BusPacket>, n: nat)
    requires WellFormed(c, s) && n <= c.NumRanks()
    requires forall r :: 0 <= r < c.NumRanks() ==>
      Output(c, s, r) == if IsReadOf(x, r) then Some(x.value.(kind := DATA)) else None
    ensures OutputsUpTo(c, s, n) == AnswerBelow(x, n)
    decreases n
  {
    hide WellFormed, Output;
    if n > 0 {
      OutputsOf(c, s, x, n - 1);
      var before, now := OutputsUpTo(c, s, n - 1), AddressesIn(Output(c, s, n - 1));
      if IsReadOf(x, n - 1) {
        assert before + now == now;
      } else {
        assert before + now == before;
      }
    }
  }

  lemma OutputsAre(c: Config, s: ChannelState, h: seq<Option<BusPacket>>)
    requires c.Valid() && WellFormed(c, s) && RanksHold(c, s, h, 0)
    requires forall r :: 0 <= r < c.NumRanks() ==> Spaced(c, s.ranks[r])
    ensures OutputsUpTo(c, s, c.NumRanks()) == AnswerBelow(Oldest(c, h), c.NumRanks())
  {
    hide RanksHold, Spaced, Oldest, Output, AnswerBelow;
    forall r | 0 <= r < c.NumRanks()
      ensures var x := Oldest(c, h); Output(c, s, r) == if IsReadOf(x, r) then Some(x.value.(kind := DATA)) else None
    {
      OutputIs(c, s, h, r);
    }
    OutputsOf(c, s, Oldest(c, h), c.NumRanks());
  }

  lemma RanksMove(c: Config, s: ChannelState, h: seq<Option<BusPacket>>)
    requires c.Valid() && WellFormed(c, s) && RanksHold(c, s, h, 0) && UpdateRanks(c, s).Ok?
    requires forall r :: 0 <= r < c.NumRanks() ==> Spaced(c, s.ranks[r])
    ensures RanksHold(c, UpdateRanks(c, s).value, h, 1)
  {
    hide Held, Spaced, Due, DueNow, RankUpdate, OutputsUpTo, Later;
    forall r | 0 <= r < c.NumRanks() ensures Held(c, UpdateRanks(c, s).value.ranks[r]) == DueAt(c, h, r, 1) {
      RankMoves(c, s.ranks[r]);
      DueLater(Latency(c), ReadsOf(r), h, 0);
    }
  }

  lemma RankTakes(c: Config, t: int, k: RankState, p: BusPacket)
    requires |k.readReturnPacket| == |k.readReturnCountdown| && RankReceive(c, t, k, p).Ok?
    ensures var k' := RankReceive(c, t, k, p).value;
      && |k'.readReturnPacket| == |k'.readReturnCountdown|
      && Held(c, k') == Held(c, k) + if p.IsRead() then [Burst(p.(kind := DATA), Latency(c))] else []
  {
    hide Accepts, Apply;
    var k' := RankReceive(c, t, k, p).value;
    if p.IsRead() {
      assert InPipe(c, k'.readReturnPacket, k'.readReturnCountdown)
          == InPipe(c, k.readReturnPacket, k.readReturnCountdown) + [Burst(p.(kind := DATA), Latency(c))];
    }
  }

  // The command on the bus reaches its rank.
  lemma CommandTaken(c: Config, s: ChannelState, h: seq<Option<BusPacket>>, x: Option<BusPacket>)
    requires c.Valid() && WellFormed(c, s) && DeliverCommand(c, s).Ok? && s.mc.outgoingCmd == x
    requires x.Some? ==> s.mc.cmdCyclesLeft == 1
    requires RanksHold(c, s, h, 1)
    ensures var s' := DeliverCommand(c, s).value;
      && RanksHold(c, s', h + [x], 0)
      && s'.mc == s.mc.(outgoingCmd := s'.mc.outgoingCmd, cmdCyclesLeft := s'.mc.cmdCyclesLeft)
  {
    hide Held, Accepts, Apply, RankReceive;
    var s' := DeliverCommand(c, s).value;
    assert (h + [x])[..|h|] == h;
    if x.Some? {
      RankTakes(c, s.clock, s.ranks[x.value.rank], x.value);
    }
    forall r | 0 <= r < c.NumRanks() ensures Held(c, s'.ranks[r]) == DueAt(c, h + [x], r, 0) {
      assert Held(c, s.ranks[r]) == DueAt(c, h, r, 1);
    }
  }

  // ---- The rest of the cycle ----

  ghost predicate SameOutput(s: ChannelState, s': ChannelState) {
    && |s'.ranks| == |s.ranks| && s'.mc.returned == s.mc.returned && s'.mc.returnTransaction == s.mc.returnTransaction
    && forall r :: 0 <= r < |s.ranks| ==>
         && s'.ranks[r].readReturnPacket == s.ranks[r].readReturnPacket
         && s'.ranks[r].readReturnCountdown == s.ranks[r].readReturnCountdown
         && s'.ranks[r].outgoing == s.ranks[r].outgoing && s'.ranks[r].dataCyclesLeft == s.ranks[r].dataCyclesLeft
  }

  lemma SameHeld(c: Config, s: ChannelState, s': ChannelState, h: seq<Option<BusPacket>>, age: nat)
    requires WellFormed(c, s) && WellFormed(c, s') && SameOutput(s, s') && RanksHold(c, s, h, age)
    ensures RanksHold(c, s', h, age)
  {
    hide Due, InPipe;
    forall r | 0 <= r < c.NumRanks() ensures Held(c, s'.ranks[r]) == DueAt(c, h, r, age) {
      assert Held(c, s.ranks[r]) == DueAt(c, h, r, age);
    }
  }

  lemma DataBusOutput(c: Config, s: ChannelState)
    requires WellFormed(c, s) && DriveDataBus(c, s).Ok?
    ensures SameOutput(s, DriveDataBus(c, s).value)
  {
  }

  lemma TimerOutput(c: Config, s: ChannelState)
    requires WellFormed(c, s)
    ensures SameOutput(s, RefreshTimer(c, s))
  {
  }

  lemma PopOutput(c: Config, s: ChannelState)
    requires WellFormed(c, s) && IssueCommand(c, s).Ok?
    ensures SameOutput(s, IssueCommand(c, s).value)
  {
    hide PopSpec, IssueAll;
  }

  lemma ExpandOutput(c: Config, s: ChannelState)
    requires WellFormed(c, s) && ExpandTransaction(c, s).Ok?
    ensures SameOutput(s, ExpandTransaction(c, s).value)
  {
    hide Enqueue, FirstWithRoom, Target, CommandFor;
  }

  lemma PowerOutput(c: Config, s: ChannelState)
    requires WellFormed(c, s) && ManagePower(c, s).Ok?
    ensures SameOutput(s, ManagePower(c, s).value)
  {
    hide PowerRanks;
    if c.useLowPower {
      PowerMovesNoRead(c, s, c.NumRanks());
    }
  }

  // The data that has come in is handed over at once.
  lemma ReturnOutput(c: Config, s: ChannelState)
    requires WellFormed(c, s) && ReturnRead(c, s).Ok? && |s.mc.returnTransaction| <= 1
    ensures var s' := ReturnRead(c, s).value;
      && s'.ranks == s.ranks && s'.mc.returned == s.mc.returned + s.mc.returnTransaction && s'.mc.returnTransaction == []
  {
  }

  // ---- Whole cycles ----

  // The reads whose data comes in during cycle t.
  function Arriving(c: Config, issued: seq<Option<BusPacket>>, t: nat): seq<nat>
    requires t <= |issued|
  {
    var i := t - 1 - Latency(c);
    if i >= 0 && issued[i].Some? && issued[i].value.IsRead() then [issued[i].value.address] else []
  }

  lemma ArrivingIsNext(c: Config, issued: seq<Option<BusPacket>>, t: nat)
    requires t <= |issued|
    ensures ReadAddresses(issued[..Delivered(c, t + 1)]) == ReadAddresses(issued[..Delivered(c, t)]) + Arriving(c, issued, t)
    ensures |Arriving(c, issued, t)| <= 1
  {
    hide Latency;
    if t > Latency(c) {
      var i := t - 1 - Latency(c);
      assert issued[..i + 1][..i] == issued[..i];
    }
  }

  // Up to the data bus: the ranks have moved on and taken the command in flight.
  lemma FirstHalfOnTime(c: Config, s: ChannelState)
    requires c.Valid() && WellFormed(c, s) && Safe(c, s) && OnTime(c, s) && FirstHalf(c, s).Ok?
    ensures var s' := FirstHalf(c, s).value;
      && RanksHold(c, s', s.mc.issued[..s.clock], 0)
      && s'.mc.returned == s.mc.returned && s'.mc.returnTransaction == Arriving(c, s.mc.issued, s.clock)
  {
    hide UpdateRanks, AdmitPending, DeliverCommand, AgeBanks, Matched, QueuesOK, PowerFlags, RanksHold, ReadAddresses, Latency,
         OutputsUpTo;
    PipesSpaced(c, s, s.clock - 1, 0, 0);
    InFlightDue(c, s);
    hide Safe;
    var h := s.mc.issued[..Taken(s.clock)];
    RanksMove(c, s, h);
    RanksOutput(c, s, h);
    RanksMoveNoWrite(c, s);
    var s1 := UpdateRanks(c, s).value;
    AdmitPendingMovesNothing(c, s1);
    var s2 := AdmitPending(c, s1);
    AgeBanksMovesNothing(c, s2);
    var s3 := AgeBanks(c, s2);
    SameHeld(c, s1, s3, h, 1);
    CommandTakenAt(c, s3, s.mc.issued, s.clock);
  }

  lemma RanksOutput(c: Config, s: ChannelState, h: seq<Option<BusPacket>>)
    requires c.Valid() && WellFormed(c, s) && OnTime(c, s) && UpdateRanks(c, s).Ok? && h == s.mc.issued[..Taken(s.clock)]
    requires forall r :: 0 <= r < c.NumRanks() ==> Spaced(c, s.ranks[r])
    ensures UpdateRanks(c, s).value.mc.returnTransaction == Arriving(c, s.mc.issued, s.clock)
  {
    hide RanksHold, ReadAddresses, OutputsUpTo;
    OutputsAre(c, s, h);
  }

  lemma CommandTakenAt(c: Config, s: ChannelState, issued: seq<Option<BusPacket>>, t: nat)
    requires c.Valid() && WellFormed(c, s) && DeliverCommand(c, s).Ok? && t <= |issued|
    requires s.mc.outgoingCmd == (if t == 0 then None else issued[t - 1])
    requires s.mc.outgoingCmd.Some? ==> s.mc.cmdCyclesLeft == 1
    requires RanksHold(c, s, issued[..Taken(t)], 1)
    ensures var s' := DeliverCommand(c, s).value;
      && RanksHold(c, s', issued[..t], 0)
      && s'.mc == s.mc.(outgoingCmd := s'.mc.outgoingCmd, cmdCyclesLeft := s'.mc.cmdCyclesLeft)
  {
    if t == 0 {
      hide Held;
      assert forall r :: DueAt(c, [], r, 0) == [] && DueAt(c, [], r, 1) == [];
    } else {
      hide DeliverCommand, RanksHold;
      CommandTaken(c, s, issued[..t - 1], issued[t - 1]);
      assert issued[..t - 1] + [issued[t - 1]] == issued[..t];
    }
  }

  // From the data bus to the end of the cycle.
  lemma SecondHalfOnTime(c: Config, s: ChannelState, h: seq<Option<BusPacket>>)
    requires c.Valid() && WellFormed(c, s) && AtDataBus(c, s) && SecondHalf(c, s).Ok?
    requires RanksHold(c, s, h, 0) && |s.mc.returnTransaction| <= 1
    ensures var s' := SecondHalf(c, s).value;
      RanksHold(c, s', h, 0) && s'.mc.returned == s.mc.returned + s.mc.returnTransaction && s'.mc.returnTransaction == []
  {
    hide AtDataBus, AfterPop, IssueCommand, ExpandTransaction, ManagePower, ReturnRead, RefreshTimer, RanksHold, Held;
    TimerOutput(c, s);
    var s2 := RefreshTimer(c, s);
    PopOutput(c, s2);
    var s3 := IssueCommand(c, s2).value;
    ExpandOutput(c, s3);
    var s4 := ExpandTransaction(c, s3).value;
    PowerOutput(c, s4);
    var s5 := ManagePower(c, s4).value;
    SameHeld(c, s, s5, h, 0);
    ReturnOutput(c, s5);
    HeldAtEnd(c, s5, SecondHalf(c, s).value, h);
  }

  lemma HeldAtEnd(c: Config, s: ChannelState, s': ChannelState, h: seq<Option<BusPacket>>)
    requires WellFormed(c, s) && WellFormed(c, s') && s'.ranks == s.ranks && RanksHold(c, s, h, 0)
    ensures RanksHold(c, s', h, 0)
  {
    hide Held;
  }

  lemma UpdateKeepsOnTime(c: Config, s: ChannelState)
    requires c.Valid() && WellFormed(c, s) && Safe(c, s) && Update(c, s).Ok? && OnTime(c, s)
    ensures OnTime(c, Update(c, s).value)
  {
    hide Update, FirstHalf, SecondHalf, DriveDataBus, Safe, AtDataBus, WellFormed, RanksHold, ReadAddresses, PopState, PopSpec,
         PoweredTable, Expanded, Latency, IssueAll, Arriving;
    UpdateInHalves(c, s);
    FirstHalfIsSafe(c, s);
    FirstHalfOnTime(c, s);
    var s1 := FirstHalf(c, s).value;
    DataBusKeepsRest(c, s1);
    DataBusOutput(c, s1);
    var s2 := DriveDataBus(c, s1).value;
    SameHeld(c, s1, s2, s.mc.issued[..s.clock], 0);
    ArrivingIsNext(c, s.mc.issued, s.clock);
    SecondHalfOnTime(c, s2, s.mc.issued[..s.clock]);
    CycleShape(c, s);
    PopStateIs(c, s);
    var s' := Update(c, s).value;
    assert s'.mc.issued[..Taken(s'.clock)] == s.mc.issued[..s.clock];
    assert s'.mc.issued[..Delivered(c, s'.clock)] == s.mc.issued[..Delivered(c, s'.clock)];
  }

  lemma InitialOnTime(c: Config)
    ensures OnTime(c, Initial(c))
  {
  }

  // In every run: the reads answered so far are exactly those whose command was issued at
  // least CL + AL + BL/2 + 1 cycles ago, one for the bus, in the order of their commands.
  lemma EveryReadIsOnTime(c: Config, requests: seq<seq<Transaction>>)
    requires c.Valid()
    ensures Run(c, Initial(c), requests).Ok? ==>
      var m := Run(c, Initial(c), requests).value.mc;
      m.returned == ReadAddresses(m.issued[..Max(0, |m.issued| - (c.CL + c.AL + c.BL / 2 + 1))]) && m.returnTransaction == []
  {
    hide Safe, Run, Initial, Update, WellFormed, OnTime, ReadAddresses;
    if Run(c, Initial(c), requests).Ok? {
      InitialOnTime(c);
      var inv := (s: ChannelState) => WellFormed(c, s) && OnTime(c, s);
      forall s, s' | Requested(c, s, s') && inv(s) ensures inv(s') {
        RequestsKeepOnTime(c, s, s');
      }
      forall s, s' | Cycle(c, s, s') && inv(s) ensures inv(s') {
        UpdateKeepsOnTime(c, s);
      }
      RunKeeps(c, inv, requests);
      AnsweredOnTime(c, Run(c, Initial(c), requests).value);
    }
  }

  lemma RequestsKeepOnTime(c: Config, s: ChannelState, s': ChannelState)
    requires Requested(c, s, s') && OnTime(c, s)
    ensures OnTime(c, s')
  {
    hide RanksHold, ReadAddresses, Latency;
    SameHeld(c, s, s', s.mc.issued[..Taken(s.clock)], 0);
  }

  lemma AnsweredOnTime(c: Config, s: ChannelState)
    requires WellFormed(c, s) && OnTime(c, s)
    ensures var m := s.mc;
      m.returned == ReadAddresses(m.issued[..Max(0, |m.issued| - (c.CL + c.AL + c.BL / 2 + 1))]) && m.returnTransaction == []
  {
    hide RanksHold, ReadAddresses, ToRanks;
  }
}
