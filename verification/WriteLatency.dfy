// The data of a write is on the data bus a fixed number of cycles after its command was
// issued, for the length of a burst, and at no other time.
module WriteLatency {
  import opened Wrappers
  import opened SystemConfiguration
  import opened BankState
  import opened Bursts
  import opened Scheduler
  import opened QueueInvariant
  import opened Channel
  import opened ChannelSafety
  import opened OneCycle
  import opened ReadLatency
  import opened Runs

  predicate IsWriteCommand(x: Option<BusPacket>) {
    x.Some? && x.value.IsWrite()
  }

  // From the command to the last beat of its data.
  function WriteTime(c: Config): nat
    requires c.Valid()
  {
    c.CL + c.AL - 1 + c.BL / 2
  }

  // What the data bus has before it: the burst on it and the writes that wait.
  function OnTheBus(m: ControllerState): seq<Burst> {
    if m.outgoingData.Some? then [Burst(m.outgoingData.value, m.dataCyclesLeft)] else []
  }

  function BusHolds(c: Config, m: ControllerState): seq<Burst>
    requires |m.writeDataToSend| == |m.writeDataCountdown|
  {
    OnTheBus(m) + InPipe(c, m.writeDataToSend, m.writeDataCountdown)
  }

  ghost predicate BusTidy(c: Config, m: ControllerState) {
    var w := m.writeDataCountdown;
    && |m.writeDataToSend| == |w|
    && (forall i :: 0 <= i < |w| ==> 1 <= w[i] <= c.CL + c.AL - 1)
    && (forall i, j :: 0 <= i < j < |w| ==> w[i] < w[j])
    && (m.outgoingData.Some? ==> 1 <= m.dataCyclesLeft <= c.BL / 2)
  }

  lemma CountdownsMove(c: Config, m: ControllerState)
    requires c.Valid() && BusTidy(c, m)
    ensures var w, d := m.writeDataCountdown, DecAll(m.writeDataCountdown);
      && |d| == |w| && (forall i :: 0 <= i < |w| ==> d[i] == w[i] - 1)
      && Later(InPipe(c, m.writeDataToSend, w)) == InPipe(c, m.writeDataToSend, d)
  {
    var w, d := m.writeDataCountdown, DecAll(m.writeDataCountdown);
    assert c.BL / 2 >= 1;
    LaterAll(InPipe(c, m.writeDataToSend, w), InPipe(c, m.writeDataToSend, d));
  }

  lemma BurstMoves(c: Config, m: ControllerState)
    requires BusTidy(c, m)
    ensures Later(OnTheBus(m)) == OnTheBus(AdvanceBursts(m))
    ensures AdvanceBursts(m).outgoingData.Some? ==> 1 <= AdvanceBursts(m).dataCyclesLeft <= c.BL / 2
  {
    if m.outgoingData.Some? {
      LaterOne(OnTheBus(m)[0]);
    }
  }

  // Some of the countdowns may have run out.
  ghost predicate Advanced(c: Config, m: ControllerState) {
    var w := m.writeDataCountdown;
    && |m.writeDataToSend| == |w|
    && (forall i :: 0 <= i < |w| ==> 0 <= w[i] < c.CL + c.AL - 1)
    && (forall i, j :: 0 <= i < j < |w| ==> w[i] < w[j])
    && (m.outgoingData.Some? ==> 1 <= m.dataCyclesLeft <= c.BL / 2)
  }

  lemma CountdownsAdvance(c: Config, m: ControllerState)
    requires c.Valid() && BusTidy(c, m)
    ensures Advanced(c, AdvanceBursts(m))
  {
    CountdownsMove(c, m);
    BurstMoves(c, m);
    hide Later, InPipe, OnTheBus, DecAll;
  }

  lemma BurstsAdvance(c: Config, m: ControllerState)
    requires c.Valid() && BusTidy(c, m)
    ensures |AdvanceBursts(m).writeDataToSend| == |AdvanceBursts(m).writeDataCountdown|
    ensures BusHolds(c, AdvanceBursts(m)) == Later(BusHolds(c, m))
  {
    CountdownsMove(c, m);
    BurstMoves(c, m);
    LaterConcat(OnTheBus(m), InPipe(c, m.writeDataToSend, m.writeDataCountdown));
    hide Later, OnTheBus, BusTidy, DecAll, InPipe, Dec32;
  }

  // The first write takes the free bus.
  lemma WriteStarts(c: Config, m: ControllerState, m': ControllerState)
    requires c.Valid() && Advanced(c, m) && |m.writeDataCountdown| > 0 && m.writeDataCountdown[0] == 0 && m.outgoingData.None?
    requires m' == m.(outgoingData := Some(m.writeDataToSend[0]), dataCyclesLeft := c.BL / 2,
                      writeDataCountdown := m.writeDataCountdown[1..], writeDataToSend := m.writeDataToSend[1..])
    ensures Advanced(c, m') && BusTidy(c, m') && BusHolds(c, m') == BusHolds(c, m)
  {
    assert InPipe(c, m.writeDataToSend, m.writeDataCountdown)
        == [Burst(m.writeDataToSend[0], c.BL / 2)] + InPipe(c, m'.writeDataToSend, m'.writeDataCountdown);
  }

  lemma NoneStartsTidy(c: Config, m: ControllerState)
    requires Advanced(c, m) && (|m.writeDataCountdown| > 0 ==> m.writeDataCountdown[0] != 0)
    ensures BusTidy(c, m)
  {
    forall i | 0 <= i < |m.writeDataCountdown| ensures m.writeDataCountdown[i] >= 1 {
      assert i > 0 ==> m.writeDataCountdown[0] < m.writeDataCountdown[i];
    }
  }

  // The data bus in one cycle: everything is one cycle nearer.
  lemma BusMoves(c: Config, s: ChannelState)
    requires c.Valid() && WellFormed(c, s) && BusTidy(c, s.mc) && DriveDataBus(c, s).Ok?
    ensures var m, m' := s.mc, DriveDataBus(c, s).value.mc;
      Advanced(c, m') && BusTidy(c, m') && BusHolds(c, m') == Later(BusHolds(c, m))
  {
    CountdownsAdvance(c, s.mc);
    BurstsAdvance(c, s.mc);
    var m := AdvanceBursts(s.mc);
    hide Later, BusHolds, AdvanceBursts, Advanced, BusTidy, WellFormed;
    if |m.writeDataCountdown| > 0 && m.writeDataCountdown[0] == 0 {
      WriteStarts(c, m, DriveDataBus(c, s).value.mc);
    } else {
      NoneStartsTidy(c, m);
    }
  }

  ghost predicate WritesOnTime(c: Config, s: ChannelState)
    requires c.Valid() && WellFormed(c, s)
  {
    && |s.mc.issued| == s.clock && BusTidy(c, s.mc)
    && BusHolds(c, s.mc) == Due(WriteTime(c), IsWriteCommand, s.mc.issued, 0)
  }

  // Same data bus.
  predicate SameWrites(m: ControllerState, m': ControllerState) {
    && m'.writeDataToSend == m.writeDataToSend && m'.writeDataCountdown == m.writeDataCountdown
    && m'.outgoingData == m.outgoingData && m'.dataCyclesLeft == m.dataCyclesLeft
  }

  lemma SameBusHolds(c: Config, m: ControllerState, m': ControllerState)
    requires SameWrites(m, m')
    ensures (BusTidy(c, m) ==> BusTidy(c, m')) && (Advanced(c, m) ==> Advanced(c, m'))
    ensures |m.writeDataToSend| == |m.writeDataCountdown| ==> BusHolds(c, m') == BusHolds(c, m)
  {
  }

  // The data of the popped write waits for its time.
  lemma WriteWaits(c: Config, m: ControllerState, m': ControllerState, h: seq<Option<BusPacket>>, p: Option<BusPacket>)
    requires c.Valid() && Advanced(c, m) && BusTidy(c, m) && BusHolds(c, m) == Due(WriteTime(c), IsWriteCommand, h, 1)
    requires if IsWriteCommand(p) then
               && m'.writeDataToSend == m.writeDataToSend + [p.value.(kind := DATA)]
               && m'.writeDataCountdown == m.writeDataCountdown + [c.CL + c.AL - 1]
               && m'.outgoingData == m.outgoingData && m'.dataCyclesLeft == m.dataCyclesLeft
             else SameWrites(m, m')
    ensures BusTidy(c, m') && BusHolds(c, m') == Due(WriteTime(c), IsWriteCommand, h + [p], 0)
  {
    assert (h + [p])[..|h|] == h;
    if IsWriteCommand(p) {
      assert InPipe(c, m'.writeDataToSend, m'.writeDataCountdown)
          == InPipe(c, m.writeDataToSend, m.writeDataCountdown) + [Burst(p.value.(kind := DATA), WriteTime(c))];
    }
  }

  lemma PopWrites(c: Config, s: ChannelState)
    requires c.Valid() && WellFormed(c, s) && IssueCommand(c, s).Ok?
    ensures var p, m, m' := PopSpec(c, s.clock, s.mc.banks, s.mc.queue).1, s.mc, IssueCommand(c, s).value.mc;
      if IsWriteCommand(p) then
        && m'.writeDataToSend == m.writeDataToSend + [p.value.(kind := DATA)]
        && m'.writeDataCountdown == m.writeDataCountdown + [c.CL + c.AL - 1]
        && m'.outgoingData == m.outgoingData && m'.dataCyclesLeft == m.dataCyclesLeft
      else SameWrites(m, m')
  {
    hide PopSpec, IssueAll;
  }

  lemma UpdateKeepsWrites(c: Config, s: ChannelState)
    requires c.Valid() && WellFormed(c, s) && Safe(c, s) && Update(c, s).Ok? && WritesOnTime(c, s)
    ensures WritesOnTime(c, Update(c, s).value)
  {
    hide Update, FirstHalf, SecondHalf, DriveDataBus, Safe, AtDataBus, BusTidy, BusHolds, Due, PopSpec, RefreshTimer,
         IssueCommand, Advanced, WriteTime, PoweredTable, Expanded, IssueAll;
    UpdateInHalves(c, s);
    FirstHalfIsSafe(c, s);
    FirstHalfMoves(c, s);
    var s1 := FirstHalf(c, s).value;
    SameBusHolds(c, s.mc, s1.mc);
    DataBusKeepsRest(c, s1);
    BusMoves(c, s1);
    DataBusMoves(c, s1);
    var s2 := DriveDataBus(c, s1).value;
    DueLater(WriteTime(c), IsWriteCommand, s.mc.issued, 0);
    RefreshTimerMoves(c, s2);
    var s3 := RefreshTimer(c, s2);
    SameBusHolds(c, s2.mc, s3.mc);
    SecondHalfEnds(c, s2);
    PopWrites(c, s3);
    var p := PopSpec(c, s3.clock, s3.mc.banks, s3.mc.queue).1;
    WriteWaits(c, s3.mc, IssueCommand(c, s3).value.mc, s.mc.issued, p);
    SameBusHolds(c, IssueCommand(c, s3).value.mc, Update(c, s).value.mc);
  }

  lemma InitialWritesOnTime(c: Config)
    requires c.Valid()
    ensures WritesOnTime(c, Initial(c))
  {
  }

  lemma RequestsKeepWrites(c: Config, s: ChannelState, s': ChannelState)
    requires c.Valid() && Requested(c, s, s') && WritesOnTime(c, s)
    ensures WritesOnTime(c, s')
  {
    hide WellFormed;
  }

  // Cycle t lies in the burst of a write of cycle i.
  predicate InBurst(c: Config, i: nat, t: int) {
    i + c.CL + c.AL - 1 <= t < i + c.CL + c.AL - 1 + c.BL / 2
  }

  // The burst on the bus belongs to the write that was issued the write latency ago.
  lemma BusCarries(c: Config, s: ChannelState, i: nat)
    requires c.Valid() && WellFormed(c, s) && WritesOnTime(c, s)
    ensures var m, t := s.mc, s.clock - 1;
      i < |m.issued| && IsWriteCommand(m.issued[i]) && InBurst(c, i, t) ==>
        && m.outgoingData == Some(m.issued[i].value.(kind := DATA))
        && m.dataCyclesLeft == i + c.CL + c.AL - 1 + c.BL / 2 - t
  {
    var m, t := s.mc, s.clock - 1;
    if i < |m.issued| && IsWriteCommand(m.issued[i]) && InBurst(c, i, t) {
      DueHolds(WriteTime(c), IsWriteCommand, m.issued, 0, i);
      var x := Burst(m.issued[i].value.(kind := DATA), i + c.CL + c.AL - 1 + c.BL / 2 - t);
      assert x in BusHolds(c, m);
      hide Due;
      assert x !in InPipe(c, m.writeDataToSend, m.writeDataCountdown);
    }
  }

  lemma BusCarriesOnly(c: Config, s: ChannelState) returns (i: nat)
    requires c.Valid() && WellFormed(c, s) && WritesOnTime(c, s) && s.mc.outgoingData.Some?
    ensures var m, t := s.mc, s.clock - 1;
      i < |m.issued| && IsWriteCommand(m.issued[i]) && InBurst(c, i, t)
  {
    assert BusHolds(c, s.mc)[0] == Burst(s.mc.outgoingData.value, s.mc.dataCyclesLeft);
    hide Due;
    i := DueComesFrom(WriteTime(c), IsWriteCommand, s.mc.issued, 0, BusHolds(c, s.mc)[0]);
  }

  // In every run and for every write: in the cycles from CL + AL - 1 after its command on,
  // for BL/2 of them, its data and no other is on the data bus; and in all other cycles
  // the controller drives no data.
  lemma EveryWriteIsOnTime(c: Config, requests: seq<seq<Transaction>>)
    requires c.Valid()
    ensures Run(c, Initial(c), requests).Ok? ==>
      var m := Run(c, Initial(c), requests).value.mc;
      var t := |m.issued| - 1;
      && (forall i :: 0 <= i < |m.issued| && IsWriteCommand(m.issued[i]) && InBurst(c, i, t) ==>
            m.outgoingData == Some(m.issued[i].value.(kind := DATA)))
      && (m.outgoingData.Some? ==> exists i :: 0 <= i < |m.issued| && IsWriteCommand(m.issued[i]) && InBurst(c, i, t))
  {
    hide Safe, Run, Initial, Update, WellFormed, BusTidy, BusHolds, Due;
    if Run(c, Initial(c), requests).Ok? {
      InitialWritesOnTime(c);
      var inv := (s: ChannelState) => WellFormed(c, s) && WritesOnTime(c, s);
      forall s, s' | Requested(c, s, s') && inv(s) ensures inv(s') {
        RequestsKeepWrites(c, s, s');
      }
      forall s, s' | Cycle(c, s, s') && inv(s) ensures inv(s') {
        UpdateKeepsWrites(c, s);
      }
      RunKeeps(c, inv, requests);
      var s := Run(c, Initial(c), requests).value;
      forall i | 0 <= i < |s.mc.issued| && IsWriteCommand(s.mc.issued[i]) && InBurst(c, i, |s.mc.issued| - 1)
        ensures s.mc.outgoingData == Some(s.mc.issued[i].value.(kind := DATA))
      {
        BusCarries(c, s, i);
      }
      if s.mc.outgoingData.Some? {
        var i := BusCarriesOnly(c, s);
      }
    }
  }
}
