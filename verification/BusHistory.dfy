// The data bus, read off the command history: a run that goes on has its write bursts
// apart, whatever the configuration.
module BusHistory {
  import opened Wrappers
  import opened SystemConfiguration
  import opened BankState
  import opened Scheduler
  import opened QueueInvariant
  import opened Channel
  import opened ChannelSafety
  import opened OneCycle
  import opened WriteSpacing
  import opened Runs

  // Writes in line for the bus have different turns, at most `high` cycles away.
  ghost predicate InLine(w: seq<nat>, high: int) {
    && (forall k :: 0 <= k < |w| ==> 1 <= w[k] <= high)
    && forall j, k :: 0 <= j < k < |w| ==> w[j] < w[k]
  }

  // When the bus has moved u times: the write of cycle i is in line until it takes the bus
  // in move i + WL, and then keeps it for a burst.
  ghost predicate Accounted(c: Config, u: int, m: ControllerState, i: nat) {
    if i + c.WL() >= u then exists k :: 0 <= k < |m.writeDataCountdown| && m.writeDataCountdown[k] == i + c.WL() + 1 - u
    else
      || i + c.WL() + c.BL / 2 + 1 <= u
      || (m.outgoingData.Some? && m.dataCyclesLeft >= i + c.WL() + c.BL / 2 + 1 - u)
  }

  // The bursts that have begun by move u do not overlap.
  ghost predicate BurstsDisjoint(c: Config, u: int, issued: seq<Option<BusPacket>>) {
    forall i: nat, j: nat :: i < j && WriteAt(issued, i) && WriteAt(issued, j) && j + c.WL() < u ==> j - i >= c.BL / 2
  }

  ghost predicate Line(c: Config, u: int, high: int, m: ControllerState) {
    && |m.writeDataToSend| == |m.writeDataCountdown| && InLine(m.writeDataCountdown, high)
    && (m.outgoingData.Some? ==> m.dataCyclesLeft >= 1)
    && (forall i: nat :: WriteAt(m.issued, i) ==> Accounted(c, u, m, i))
    && BurstsDisjoint(c, u, m.issued)
  }

  lemma SameBusLine(c: Config, u: int, high: int, m: ControllerState, m': ControllerState)
    requires SameBus(m, m') && Line(c, u, high, m)
    ensures Line(c, u, high, m')
  {
    hide InLine, BurstsDisjoint;
    forall i: nat | WriteAt(m'.issued, i) ensures Accounted(c, u, m', i) {
      assert Accounted(c, u, m, i);
    }
  }

  // ---- One move of the bus ----

  lemma CountedInLine(w: seq<nat>, high: int)
    requires InLine(w, high)
    ensures |DecAll(w)| == |w| && forall k :: 0 <= k < |w| ==> DecAll(w)[k] == w[k] - 1
    ensures |w| > 0 && w[0] == 1 ==> InLine(DecAll(w)[1..], high - 1)
    ensures |w| > 0 && w[0] > 1 ==> InLine(DecAll(w), high - 1)
    ensures forall k :: 0 < k < |w| ==> w[k] > 1
  {
    assert forall k :: 0 < k < |w| ==> w[0] < w[k];
  }

  // What the bus does to its own fields.
  lemma BusMoves(c: Config, s: ChannelState)
    requires WellFormed(c, s) && InLine(s.mc.writeDataCountdown, c.WL()) && DriveDataBus(c, s).Ok?
    requires s.mc.outgoingData.Some? ==> s.mc.dataCyclesLeft >= 1
    ensures var m, m' := s.mc, DriveDataBus(c, s).value.mc;
      var w, d := m.writeDataCountdown, DecAll(m.writeDataCountdown);
      && m'.issued == m.issued
      && if |w| > 0 && w[0] == 1 then
           && (m.outgoingData.Some? ==> m.dataCyclesLeft == 1)
           && m'.outgoingData.Some? && m'.dataCyclesLeft == c.BL / 2
           && m'.writeDataCountdown == d[1..] && m'.writeDataToSend == m.writeDataToSend[1..]
         else
           && m'.writeDataCountdown == d && m'.writeDataToSend == m.writeDataToSend
           && (m.outgoingData.Some? && m.dataCyclesLeft > 1 ==>
                 m'.outgoingData.Some? && m'.dataCyclesLeft == m.dataCyclesLeft - 1)
           && (m'.outgoingData.Some? ==> m'.dataCyclesLeft >= 1)
  {
    CountedInLine(s.mc.writeDataCountdown, c.WL());
    hide DecAll, InLine;
  }

  lemma MovedAccount(c: Config, u: int, s: ChannelState, i: nat)
    requires WellFormed(c, s) && Line(c, u, c.WL(), s.mc) && DriveDataBus(c, s).Ok?
    requires WriteAt(s.mc.issued, i)
    ensures Accounted(c, u + 1, DriveDataBus(c, s).value.mc, i)
  {
    var m, m' := s.mc, DriveDataBus(c, s).value.mc;
    var w := m.writeDataCountdown;
    BusMoves(c, s);
    CountedInLine(w, c.WL());
    hide DriveDataBus, DecAll, BurstsDisjoint;
    assert Accounted(c, u, m, i);
    if i + c.WL() >= u {
      var k :| 0 <= k < |w| && w[k] == i + c.WL() + 1 - u;
      if i + c.WL() > u {
        if w[0] == 1 {
          assert k > 0 && m'.writeDataCountdown[k - 1] == w[k] - 1;
        } else {
          assert m'.writeDataCountdown[k] == w[k] - 1;
        }
      } else {
        assert k == 0;
      }
    }
  }

  // A burst that begins finds the burst before it over.
  lemma MovedApart(c: Config, u: int, s: ChannelState)
    requires c.Valid() && WellFormed(c, s) && Line(c, u, c.WL(), s.mc) && DriveDataBus(c, s).Ok?
    ensures BurstsDisjoint(c, u + 1, s.mc.issued)
  {
    hide WellFormed, Shape, TableOf, TableShape;
    var m := s.mc;
    var w := m.writeDataCountdown;
    BusMoves(c, s);
    hide DriveDataBus, DecAll;
    forall i: nat, j: nat | i < j && WriteAt(m.issued, i) && WriteAt(m.issued, j) && j + c.WL() < u + 1
      ensures j - i >= c.BL / 2
    {
      if j + c.WL() == u {
        assert Accounted(c, u, m, j);
        var k :| 0 <= k < |w| && w[k] == 1;
        assert k == 0;
        assert Accounted(c, u, m, i);
      }
    }
  }

  lemma LineMoves(c: Config, u: int, s: ChannelState)
    requires c.Valid() && WellFormed(c, s) && Line(c, u, c.WL(), s.mc) && DriveDataBus(c, s).Ok?
    ensures Line(c, u + 1, c.WL() - 1, DriveDataBus(c, s).value.mc)
  {
    hide Shape, TableOf, TableShape;
    BusMoves(c, s);
    MovedApart(c, u, s);
    CountedInLine(s.mc.writeDataCountdown, c.WL());
    forall i: nat | WriteAt(s.mc.issued, i) ensures Accounted(c, u + 1, DriveDataBus(c, s).value.mc, i) {
      MovedAccount(c, u, s, i);
    }
    hide DriveDataBus, DecAll, BurstsDisjoint, Accounted;
  }

  // ---- One pop ----

  // A popped write joins the end of the line.
  lemma PoppedBus(c: Config, s: ChannelState)
    requires c.Valid() && WellFormed(c, s) && IssueCommand(c, s).Ok?
    ensures var popped := PopSpec(c, s.clock, s.mc.banks, s.mc.queue).1;
      var m, m' := s.mc, IssueCommand(c, s).value.mc;
      && m'.issued == m.issued + [popped]
      && m'.outgoingData == m.outgoingData && m'.dataCyclesLeft == m.dataCyclesLeft
      && if popped.Some? && popped.value.IsWrite() then
           && m'.writeDataCountdown == m.writeDataCountdown + [c.WL()]
           && |m'.writeDataToSend| == |m.writeDataToSend| + 1
         else m'.writeDataCountdown == m.writeDataCountdown && m'.writeDataToSend == m.writeDataToSend
  {
    hide PopSpec, IssueAll;
  }

  // The line after a write of cycle t, or none, has joined it.
  ghost predicate Joined(c: Config, t: nat, m: ControllerState, m': ControllerState) {
    && |m.issued| == t && |m'.issued| == t + 1 && m'.issued[..t] == m.issued
    && m'.outgoingData == m.outgoingData && m'.dataCyclesLeft == m.dataCyclesLeft
    && if WriteAt(m'.issued, t) then m'.writeDataCountdown == m.writeDataCountdown + [c.WL()]
       else m'.writeDataCountdown == m.writeDataCountdown
  }

  lemma JoinedAccount(c: Config, t: nat, m: ControllerState, m': ControllerState, i: nat)
    requires c.Valid() && Joined(c, t, m, m') && WriteAt(m'.issued, i)
    requires WriteAt(m.issued, i) ==> Accounted(c, t + 1, m, i)
    ensures Accounted(c, t + 1, m', i)
  {
    var w, w' := m.writeDataCountdown, m'.writeDataCountdown;
    if i < t {
      assert m'.issued[..t][i] == m'.issued[i];
      assert forall k :: 0 <= k < |w| ==> w'[k] == w[k];
    } else {
      assert w'[|w|] == c.WL();
    }
  }

  lemma JoinedDisjoint(c: Config, t: nat, m: ControllerState, m': ControllerState)
    requires c.Valid() && Joined(c, t, m, m') && BurstsDisjoint(c, t + 1, m.issued)
    ensures BurstsDisjoint(c, t + 1, m'.issued)
  {
    forall i: nat | WriteAt(m'.issued, i) && i < t ensures WriteAt(m.issued, i) {
      assert m'.issued[..t][i] == m'.issued[i];
    }
  }

  lemma JoinedLine(c: Config, t: nat, m: ControllerState, m': ControllerState)
    requires c.Valid() && Joined(c, t, m, m') && Line(c, t + 1, c.WL() - 1, m)
    requires |m'.writeDataToSend| == |m'.writeDataCountdown|
    ensures Line(c, t + 1, c.WL(), m')
  {
    JoinedDisjoint(c, t, m, m');
    forall i: nat | WriteAt(m'.issued, i) ensures Accounted(c, t + 1, m', i) {
      if WriteAt(m.issued, i) {
        assert Accounted(c, t + 1, m, i);
      }
      JoinedAccount(c, t, m, m', i);
    }
    hide Accounted, BurstsDisjoint, WriteAt;
  }

  lemma PopKeepsLine(c: Config, s: ChannelState)
    requires c.Valid() && WellFormed(c, s) && IssueCommand(c, s).Ok? && |s.mc.issued| == s.clock
    requires Line(c, s.clock + 1, c.WL() - 1, s.mc)
    ensures Line(c, s.clock + 1, c.WL(), IssueCommand(c, s).value.mc)
  {
    hide PopSpec, IssueCommand, WellFormed, Accounted, BurstsDisjoint, InLine;
    PoppedBus(c, s);
    var m, m' := s.mc, IssueCommand(c, s).value.mc;
    assert m'.issued[..s.clock] == m.issued;
    JoinedLine(c, s.clock, m, m');
  }

  // ---- Cycles and runs ----

  ghost predicate LineHistory(c: Config, s: ChannelState) {
    |s.mc.issued| == s.clock && Line(c, s.clock, c.WL(), s.mc)
  }

  lemma UpdateKeepsLine(c: Config, s: ChannelState)
    requires c.Valid() && WellFormed(c, s) && Safe(c, s) && LineHistory(c, s) && Update(c, s).Ok?
    ensures LineHistory(c, Update(c, s).value)
  {
    hide Update, FirstHalf, SecondHalf, DriveDataBus, Safe, AtDataBus, WellFormed, Line, SameBus, IssueCommand,
         RefreshTimer, PopSpec, CycleEnd;
    UpdateInHalves(c, s);
    FirstHalfIsSafe(c, s);
    FirstHalfMoves(c, s);
    var s1 := FirstHalf(c, s).value;
    SameIssued(s.mc, s1.mc);
    SameBusLine(c, s.clock, c.WL(), s.mc, s1.mc);
    DataBusKeepsRest(c, s1);
    DataBusMoves(c, s1);
    LineMoves(c, s.clock, s1);
    var s2 := DriveDataBus(c, s1).value;
    RefreshTimerKeepsAll(c, s2);
    RefreshTimerMoves(c, s2);
    SecondHalfEnds(c, s2);
    var s3 := RefreshTimer(c, s2);
    SameBusLine(c, s.clock + 1, c.WL() - 1, s2.mc, s3.mc);
    SameIssued(s2.mc, s3.mc);
    PopKeepsLine(c, s3);
    var s4, s' := IssueCommand(c, s3).value, Update(c, s).value;
    SameBusLine(c, s.clock + 1, c.WL(), s4.mc, s'.mc);
    SameIssued(s4.mc, s'.mc);
    PopCounts(c, s3);
    CycleCounts(c, s3, s');
  }

  lemma InitialLine(c: Config)
    ensures LineHistory(c, Initial(c))
  {
  }

  lemma BegunAreApart(c: Config, s: ChannelState, i: nat, j: nat)
    requires LineHistory(c, s) && i < j && WriteAt(s.mc.issued, i) && WriteAt(s.mc.issued, j) && j + c.WL() < s.clock
    ensures j - i >= c.BL / 2
  {
  }

  // In every run that has not stopped, on every configuration, any two writes whose bursts
  // have begun were issued at least the length of a burst apart: writes issued closer
  // together always end in the collision.
  lemma SurvivingWritesAreSpaced(c: Config, requests: seq<seq<Transaction>>, i: nat, j: nat)
    requires c.Valid() && i < j
    ensures Run(c, Initial(c), requests).Ok? ==>
      var s := Run(c, Initial(c), requests).value;
      WriteAt(s.mc.issued, i) && WriteAt(s.mc.issued, j) && j + c.WL() < s.clock ==> j - i >= c.BL / 2
  {
    hide Safe, Run, Initial, Update, WellFormed, Line;
    if Run(c, Initial(c), requests).Ok? {
      InitialLine(c);
      var inv := (s: ChannelState) => LineHistory(c, s);
      forall s, s' | Requested(c, s, s') && inv(s) ensures inv(s') {
        SameBusLine(c, s.clock, c.WL(), s.mc, s'.mc);
      }
      forall s, s' | Cycle(c, s, s') && inv(s) ensures inv(s') {
        UpdateKeepsLine(c, s);
      }
      RunKeeps(c, inv, requests);
      var s := Run(c, Initial(c), requests).value;
      if WriteAt(s.mc.issued, i) && WriteAt(s.mc.issued, j) && j + c.WL() < s.clock {
        BegunAreApart(c, s, i, j);
      }
    }
  }
}
