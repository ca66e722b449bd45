// When naps are not long enough, a run in which an activate comes too early.
module NapRun {
  import opened Wrappers
  import opened SystemConfiguration
  import opened AddressMapping
  import opened BankState
  import opened Scheduler
  import opened Channel
  import opened ChannelSafety
  import opened OneCycle
  import opened CommandHistory
  import opened WriteSpacing
  import opened BusHistory
  import opened SleepHistory
  import opened ControlPath
  import opened Visits
  import opened VisitPairs
  import opened CollisionRun
  import opened NapStages
  import opened NapCycles

  // ---- A lightly loaded bus ----

  // Writes on the data bus and in line for it.
  function BusLoad(m: ControllerState): nat {
    |m.writeDataCountdown| + if m.outgoingData.Some? then 1 else 0
  }

  lemma DriveLight(c: Config, s: ChannelState)
    requires WellFormed(c, s) && BusLoad(s.mc) <= 1
    ensures DriveDataBus(c, s).Ok? && BusLoad(DriveDataBus(c, s).value.mc) <= BusLoad(s.mc)
  {
  }

  // With one write at a time no burst meets another.
  lemma LightBusGoesOn(c: Config, s: ChannelState)
    requires c.Valid() && WellFormed(c, s) && Safe(c, s) && BusLoad(s.mc) <= 1
    ensures Update(c, s).Ok?
    ensures var m := Update(c, s).value.mc;
      |m.issued| == |s.mc.issued| + 1
      && BusLoad(m) <= BusLoad(s.mc) + if WriteAt(m.issued, |s.mc.issued|) then 1 else 0
  {
    hide Update, FirstHalf, SecondHalf, DriveDataBus, Safe, AtDataBus, WellFormed, IssueCommand, RefreshTimer,
         CycleEnd, PopSpec, Shape, AgeAll, TableOf, TableShape, Consistent;
    UpdateInHalves(c, s);
    FirstHalfIsSafe(c, s);
    FirstHalfMoves(c, s);
    FirstHalfMoves(c, s);
    var s1 := FirstHalf(c, s).value;
    DataBusKeepsRest(c, s1);
    DriveLight(c, s1);
    DataBusMoves(c, s1);
    var s2 := DriveDataBus(c, s1).value;
    RefreshTimerKeepsAll(c, s2);
    RefreshTimerMoves(c, s2);
    SecondHalfEnds(c, s2);
    PoppedBus(c, RefreshTimer(c, s2));
  }

  // ---- The run ----

  // Every cycle so far has sent what the nap sends in it.
  ghost predicate NapSoFar(c: Config, s: ChannelState, v: Visit, u: Visit) {
    && |s.mc.issued| == s.clock
    && forall t :: 0 <= t < s.clock ==> s.mc.issued[t] == SentInNap(c, v, u, t)
  }

  ghost predicate InNap(c: Config, s: ChannelState, v: Visit, u: Visit) {
    && s.clock <= u.act && WellFormed(c, s) && Safe(c, s) && Calm(c, s, u.act) && s.mc.transactionQueue == []
    && NapSoFar(c, s, v, u) && BusLoad(s.mc) <= (if s.clock > ColumnCycle(c, v) then 1 else 0)
    && NapScene(c, ControlOf(s), v, u)
  }

  // Only the first visit's column access writes.
  lemma NapWrites(c: Config, v: Visit, u: Visit, t: nat)
    requires NapsBetween(c, v, u)
    ensures SentInNap(c, v, u, t).Some? && SentInNap(c, v, u, t).value.IsWrite() ==> t == ColumnCycle(c, v)
  {
    PacketsOf(c, v);
    PacketsOf(c, u);
    hide ActOf, ColumnOf;
  }

  lemma NapSoFarGrows(c: Config, s: ChannelState, s': ChannelState, v: Visit, u: Visit)
    requires NapSoFar(c, s, v, u) && s'.clock == s.clock + 1
    requires s'.mc.issued == s.mc.issued + [SentInNap(c, v, u, s.clock)]
    ensures NapSoFar(c, s', v, u)
  {
    hide SentInNap;
  }

  lemma NapCycle(c: Config, s: ChannelState, v: Visit, u: Visit)
    requires c.Valid() && c.transQueueDepth >= 1 && InNap(c, s, v, u)
    ensures var r := Update(c, AddAll(c, s, Asked(v, u, s.clock)));
      && r.Ok? && r.value.clock == s.clock + 1 && NapSoFar(c, r.value, v, u)
      && (s.clock < u.act ==> InNap(c, r.value, v, u))
  {
    hide Update, AddAll, Safe, NapAt, OthersStill, Next, Asked, SentInNap, ColumnCycle, WriteSafe, NapsBetween,
         ColumnOf, Planned, Target, Fits, ActOf, CommandFor, Shape;
    AddAsked(c, s, v, u);
    AddAllKeeps(c, s, Asked(v, u, s.clock));
    var s1 := AddAll(c, s, Asked(v, u, s.clock));
    LightBusGoesOn(c, s1);
    UpdateIsSafe(c, s1);
    UpdateFollowsControl(c, s1, u.act);
    NapStep(c, ControlOf(s), v, u);
    assert ControlOf(s1) == ControlOf(s).(transactions := Asked(v, u, s.clock));
    NapSoFarGrows(c, s, Update(c, s1).value, v, u);
    NapWrites(c, v, u, s.clock);
  }

  lemma {:induction false} NapRuns(c: Config, s: ChannelState, v: Visit, u: Visit)
    requires c.Valid() && c.transQueueDepth >= 1 && InNap(c, s, v, u)
    ensures var r := Run(c, s, Schedule(v, u, s.clock, u.act + 1));
      r.Ok? && r.value.clock == u.act + 1 && NapSoFar(c, r.value, v, u)
    decreases u.act - s.clock
  {
    hide Update, AddAll, Safe, Asked, NapSoFar, Calm, OthersStill, NapScene, NapAt, SentInNap, NapsBetween,
         WellFormed, ColumnOf, Planned, Target, Fits;
    var requests := Schedule(v, u, s.clock, u.act + 1);
    assert requests[0] == Asked(v, u, s.clock) && requests[1..] == Schedule(v, u, s.clock + 1, u.act + 1);
    NapCycle(c, s, v, u);
    var s1 := Update(c, AddAll(c, s, requests[0])).value;
    if s.clock < u.act {
      NapRuns(c, s1, v, u);
    }
  }

  // ---- The two visits ----

  // A transaction in the first cycle, and one as soon as its rank may be woken again.
  function BeforeNap(c: Config, isWrite: bool): Visit {
    Visit(Cursor(0, 0), AccessTo(c, isWrite, 0, 0), 0, 1)
  }

  function AfterNap(c: Config, isWrite: bool, bank: nat): Visit
    requires c.Valid()
  {
    var entry := SleepCycle(c, BeforeNap(c, isWrite)) + Max(1, c.tCKE);
    Visit(Cursor(0, bank), AccessTo(c, true, 0, bank), entry, entry + Max(1, c.tXP))
  }

  lemma NapIsPlanned(c: Config, isWrite: bool, bank: nat)
    requires c.Valid() && c.useLowPower && bank < c.NumBanks()
    ensures NapsBetween(c, BeforeNap(c, isWrite), AfterNap(c, isWrite, bank))
  {
    AccessGoesTo(c, isWrite, 0, 0);
    AccessGoesTo(c, true, 0, bank);
    hide AccessTo, Target;
  }

  function NapRequests(c: Config, isWrite: bool, bank: nat): seq<seq<Transaction>>
    requires c.Valid()
  {
    Schedule(BeforeNap(c, isWrite), AfterNap(c, isWrite, bank), 0, AfterNap(c, isWrite, bank).act + 1)
  }

  lemma BlankNaps(c: Config, x: Control, v: Visit, u: Visit)
    requires Blank(c, x) && NapsBetween(c, v, u) && v.entry == 0 && v.act == 1
    ensures NapScene(c, x, v, u)
  {
    hide ActOf, ColumnOf, CloseCycle, SleepCycle, Opened, Coming, Closing, Shutting, Target, CommandFor, Decode, Fill,
         NoneQueued;
  }

  // The whole run, from the initial state.
  lemma NapHistory(c: Config, isWrite: bool, bank: nat)
    requires c.Valid() && c.useLowPower && bank < c.NumBanks() && c.transQueueDepth >= 1
    requires Share(c.refreshPeriod, c.NumRanks()) > AfterNap(c, isWrite, bank).act + c.tXP
    ensures var v, u := BeforeNap(c, isWrite), AfterNap(c, isWrite, bank);
      var r := Run(c, Initial(c), NapRequests(c, isWrite, bank));
      && r.Ok? && NapsBetween(c, v, u) && |r.value.mc.issued| == u.act + 1 && v.act < ColumnCycle(c, v) < u.act
      && r.value.mc.issued[v.act] == Some(ActOf(c, v)) && r.value.mc.issued[ColumnCycle(c, v)] == Some(ColumnOf(c, v))
      && r.value.mc.issued[u.act] == Some(ActOf(c, u))
  {
    hide Initial, Safe, NapScene, Blank, Calm, ActOf, ColumnOf, Run, SleepCycle, CloseCycle, NapsBetween, AccessTo, Schedule;
    var v, u, s := BeforeNap(c, isWrite), AfterNap(c, isWrite, bank), Initial(c);
    NapIsPlanned(c, isWrite, bank);
    InitialInNap(c, v, u);
    NapRuns(c, s, v, u);
    SentTimes(c, v, u);
  }

  lemma InitialInNap(c: Config, v: Visit, u: Visit)
    requires c.Valid() && NapsBetween(c, v, u) && v.entry == 0 && v.act == 1
    requires Share(c.refreshPeriod, c.NumRanks()) > u.act + c.tXP
    ensures InNap(c, Initial(c), v, u) && Initial(c).clock == 0
  {
    hide NapAt, SentInNap, InitialQueue, OthersStill, WellFormed, Planned, Target, Fits, CommandFor;
    var s := Initial(c);
    InitialIsSafe(c);
    InitialIsCalm(c, u.act);
    InitialIsBlank(c);
    BlankNaps(c, ControlOf(s), v, u);
    assert s.mc.transactionQueue == [] && s.mc.issued == [] && s.clock == 0 && BusLoad(s.mc) == 0;
    hide Initial, Safe, NapScene, Blank, Calm, ActOf, ColumnOf, NapsBetween;
  }

  lemma SentTimes(c: Config, v: Visit, u: Visit)
    requires NapsBetween(c, v, u)
    ensures SentInNap(c, v, u, v.act) == Some(ActOf(c, v)) && SentInNap(c, v, u, ColumnCycle(c, v)) == Some(ColumnOf(c, v))
    ensures SentInNap(c, v, u, u.act) == Some(ActOf(c, u)) && v.act < ColumnCycle(c, v) < u.act
  {
    hide ActOf, ColumnOf, CloseCycle;
  }

  // ---- Delays that are lost ----

  // The second activate comes exactly when what is kept of the delay has passed.
  lemma NapIsKept(c: Config, isWrite: bool, bank: nat)
    requires c.Valid() && c.useLowPower && bank < c.NumBanks()
    requires isWrite <==> c.WriteToPre() < c.ReadToPre()
    ensures var v, u := BeforeNap(c, isWrite), AfterNap(c, isWrite, bank);
      u.act - v.act == ToClose(c) + c.tRP + Nap(c)
  {
  }

  lemma ReadNapIsKept(c: Config, bank: nat)
    requires c.Valid() && c.useLowPower && c.policy == ClosePage && bank < c.NumBanks()
    ensures var v, u := BeforeNap(c, false), AfterNap(c, false, bank);
      u.act - ColumnCycle(c, v) == c.ReadToPre() + c.tRP + Nap(c)
  {
  }

  lemma ComesTooEarly(c: Config, issued: seq<Option<BusPacket>>, i: nat, p: BusPacket, j: nat, q: BusPacket)
    requires i < j < |issued| && issued[i] == Some(p) && issued[j] == Some(q)
    requires q.kind == ACTIVATE && j - i < BeforeActivate(c, p, q.rank, q.bank)
    ensures !DelaysKept(c, true, issued)
  {
    hide BeforeActivate;
    assert !KeepsAway(c, true, i, issued[i].value, j, issued[j].value);
  }

  // A run without room for the whole delay between two activates, or between a read with
  // auto-precharge and an activate.
  ghost predicate LosesDelay(c: Config, requests: seq<seq<Transaction>>) {
    Run(c, Initial(c), requests).Ok? && !DelaysKept(c, true, Run(c, Initial(c), requests).value.mc.issued)
  }

  lemma ActivateTooEarly(c: Config, bank: nat)
    requires c.Valid() && c.useLowPower && bank < c.NumBanks() && c.transQueueDepth >= 1
    requires (if bank == 0 then c.tRC else c.tRRD) > ToClose(c) + c.tRP + Nap(c)
    requires var isWrite := c.WriteToPre() < c.ReadToPre();
      Share(c.refreshPeriod, c.NumRanks()) > AfterNap(c, isWrite, bank).act + c.tXP
    ensures LosesDelay(c, NapRequests(c, c.WriteToPre() < c.ReadToPre(), bank))
  {
    hide Run, NapRequests, ActOf, ColumnOf, DelaysKept, Initial, ToClose, Nap, AccessTo, SleepCycle, ColumnCycle,
         WellFormed, KeepsAway, Planned, Target, DelayAfter, Kept, CommandFor, Shape, Decode;
    var isWrite := c.WriteToPre() < c.ReadToPre();
    var v, u := BeforeNap(c, isWrite), AfterNap(c, isWrite, bank);
    NapHistory(c, isWrite, bank);
    NapIsKept(c, isWrite, bank);
    PacketsOf(c, v);
    PacketsOf(c, u);
    ComesTooEarly(c, Run(c, Initial(c), NapRequests(c, isWrite, bank)).value.mc.issued, v.act, ActOf(c, v), u.act, ActOf(c, u));
  }

  lemma ActivateTooEarlyAfterRead(c: Config)
    requires c.Valid() && c.useLowPower && c.policy == ClosePage && c.transQueueDepth >= 1
    requires c.ReadAutoPre() > c.ReadToPre() + c.tRP + Nap(c)
    requires Share(c.refreshPeriod, c.NumRanks()) > AfterNap(c, false, 0).act + c.tXP
    ensures LosesDelay(c, NapRequests(c, false, 0))
  {
    hide Run, NapRequests, ActOf, ColumnOf, DelaysKept, Initial, Nap, Encode, SleepCycle, ColumnCycle, WellFormed,
         KeepsAway, Planned, Target, DelayAfter, Kept, CommandFor, Shape, Decode;
    var v, u := BeforeNap(c, false), AfterNap(c, false, 0);
    NapHistory(c, false, 0);
    ReadNapIsKept(c, 0);
    PacketsOf(c, v);
    PacketsOf(c, u);
    ComesTooEarly(c, Run(c, Initial(c), NapRequests(c, false, 0)).value.mc.issued, ColumnCycle(c, v), ColumnOf(c, v),
                  u.act, ActOf(c, u));
  }

  // The last cycle of any of these runs.
  function NapEnd(c: Config): nat
    requires c.Valid()
  {
    var w, r := AfterNap(c, true, 0).act, AfterNap(c, false, 0).act;
    if w >= r then w else r
  }

  // The exact condition: apart from refreshes and a host without room, all runs keep the
  // full delays if and only if naps are long enough, or there are none.
  lemma DelaysKeptExactlyWhen(c: Config)
    requires c.Valid() && c.transQueueDepth >= 1 && Share(c.refreshPeriod, c.NumRanks()) > NapEnd(c) + c.tXP
    ensures (exists requests :: LosesDelay(c, requests)) <==> !NapsAreLong(c)
  {
    if NapsAreLong(c) {
      forall requests ensures !LosesDelay(c, requests) {
        hide Run, NapsAreLong, DelaysKept;
        EveryRunKeepsFullDelays(c, requests);
      }
    } else {
      hide LosesDelay, Nap, ToClose, SleepCycle, ColumnCycle;
      if c.tRC > ToClose(c) + c.tRP + Nap(c) {
        ActivateTooEarly(c, 0);
      } else if c.NumBanks() >= 2 && c.tRRD > ToClose(c) + c.tRP + Nap(c) {
        ActivateTooEarly(c, 1);
      } else {
        ActivateTooEarlyAfterRead(c);
      }
    }
  }

  // ---- One such configuration ----

  // One rank of one bank whose activates should be forty cycles apart.
  const DROWSY := Config(ClosePage, PerRank, RankThenBankRoundRobin, Geometry(Scheme4, 0, 0, 0, 4, 4, 0, 0),
                         true, 8, 8, 1, 1_000_000, 2, 0, 4, 1, 1, 1, 40, 1, 1, 1, 1, 1, 1, 1, 1, 2, 2, 1)

  lemma DrowsyIsValid(c: Config)
    requires c == DROWSY
    ensures c.Valid() && c.NumRanks() == c.NumBanks() == 1
  {
  }

  lemma DrowsyVisits(c: Config)
    requires c == DROWSY
    ensures c.Valid()
    ensures BeforeNap(c, false) == Visit(Cursor(0, 0), AccessTo(c, false, 0, 0), 0, 1)
    ensures AfterNap(c, false, 0) == Visit(Cursor(0, 0), AccessTo(c, true, 0, 0), 7, 9)
  {
    hide Encode;
    DrowsyIsValid(c);
  }

  lemma DrowsyLoses(c: Config)
    requires c == DROWSY
    ensures c.Valid() && c.transQueueDepth >= 1 && c.useLowPower && !(c.WriteToPre() < c.ReadToPre())
    ensures c.tRC > ToClose(c) + c.tRP + Nap(c) && Share(c.refreshPeriod, c.NumRanks()) > 9 + c.tXP
  {
    DrowsyIsValid(c);
    hide Share;
    assert c.NumRanks() == 1;
    WholeShare(c.refreshPeriod);
  }

  lemma WholeShare(total: nat)
    ensures Share(total, 1) == total
  {
  }

  lemma TenCycleRun(c: Config)
    requires c.Valid() && c.transQueueDepth >= 1 && c.useLowPower && !(c.WriteToPre() < c.ReadToPre())
    requires c.tRC > ToClose(c) + c.tRP + Nap(c) && Share(c.refreshPeriod, c.NumRanks()) > 9 + c.tXP
    requires BeforeNap(c, false) == Visit(Cursor(0, 0), AccessTo(c, false, 0, 0), 0, 1)
    requires AfterNap(c, false, 0) == Visit(Cursor(0, 0), AccessTo(c, true, 0, 0), 7, 9)
    ensures var requests := NapRequests(c, false, 0);
      && LosesDelay(c, requests)
      && requests == [[AccessTo(c, false, 0, 0)], [], [], [], [], [], [], [AccessTo(c, true, 0, 0)], [], []]
      && var issued := Run(c, Initial(c), requests).value.mc.issued;
         |issued| == 10 && issued[1].Some? && issued[9].Some? && issued[1].value.kind == issued[9].value.kind == ACTIVATE
  {
    hide LosesDelay, AccessTo, Run, Initial, Schedule, Asked, BeforeNap, AfterNap, ActOf, ColumnOf, ToClose, Nap;
    ActivateTooEarly(c, 0);
    NapHistory(c, false, 0);
    var v, u := BeforeNap(c, false), AfterNap(c, false, 0);
    PacketsOf(c, v);
    PacketsOf(c, u);
    TenCycles(v, u);
    TenAsked(v, u);
  }

  // A read in cycle 0 and a write in cycle 7 open its bank in cycles 1 and 9.
  lemma FortyBecomesEight(c: Config)
    requires c == DROWSY
    ensures c.Valid()
    ensures var requests := NapRequests(c, false, 0);
      && LosesDelay(c, requests)
      && requests == [[AccessTo(c, false, 0, 0)], [], [], [], [], [], [], [AccessTo(c, true, 0, 0)], [], []]
      && var issued := Run(c, Initial(c), requests).value.mc.issued;
         |issued| == 10 && issued[1].Some? && issued[9].Some? && issued[1].value.kind == issued[9].value.kind == ACTIVATE
  {
    hide LosesDelay, AccessTo, Run, Initial, Schedule, Asked, BeforeNap, AfterNap, ToClose, Nap, NapRequests;
    DrowsyLoses(c);
    DrowsyVisits(c);
    TenCycleRun(c);
  }

  lemma TenAsked(v: Visit, u: Visit)
    requires v.entry == 0 && u.entry == 7
    ensures Asked(v, u, 0) == [v.transaction] && Asked(v, u, 7) == [u.transaction]
    ensures forall t :: 0 < t < 10 && t != 7 ==> Asked(v, u, t) == []
  {
  }

  lemma TenCycles(v: Visit, u: Visit)
    ensures Schedule(v, u, 0, 10) == [Asked(v, u, 0), Asked(v, u, 1), Asked(v, u, 2), Asked(v, u, 3), Asked(v, u, 4),
                                      Asked(v, u, 5), Asked(v, u, 6), Asked(v, u, 7), Asked(v, u, 8), Asked(v, u, 9)]
  {
    hide Asked;
    assert Schedule(v, u, 8, 10) == [Asked(v, u, 8), Asked(v, u, 9)] by {
      assert Schedule(v, u, 9, 10) == [Asked(v, u, 9)];
    }
    assert Schedule(v, u, 4, 10) == [Asked(v, u, 4), Asked(v, u, 5), Asked(v, u, 6), Asked(v, u, 7)] + Schedule(v, u, 8, 10);
  }
}
