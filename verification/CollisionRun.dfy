// On a bus that is not wide enough, two writes to different ranks collide: a run that
// shows it, for every such configuration.
module CollisionRun {
  import opened Wrappers
  import opened Bits
  import opened SystemConfiguration
  import opened AddressMapping
  import opened BankState
  import opened Scheduler
  import opened Channel
  import opened WriteBus
  import opened ChannelSafety
  import opened WriteSpacing
  import opened BusHistory
  import opened ControlPath
  import opened SinglePops
  import opened Visits
  import opened VisitCycles
  import opened VisitPairs

  // ---- Requests ----

  // An access to row 0 of a bank.
  function AccessTo(c: Config, isWrite: bool, rank: nat, bank: nat): Transaction {
    Transaction(isWrite, Encode(c.geometry, Location(0, rank, bank, 0, 0)))
  }

  lemma AccessGoesTo(c: Config, isWrite: bool, rank: nat, bank: nat)
    requires rank < c.NumRanks() && bank < c.NumBanks()
    ensures Target(c, AccessTo(c, isWrite, rank, bank)) == Cursor(rank, bank)
  {
    hide Encode, Decode;
    DecodeOfEncode(c.geometry, Location(0, rank, bank, 0, 0));
  }

  // What the host asks for in the cycles from `from` to end - 1.
  function Schedule(v: Visit, u: Visit, from: nat, end: nat): seq<seq<Transaction>>
    decreases end - from
  {
    if from >= end then [] else [Asked(v, u, from)] + Schedule(v, u, from + 1, end)
  }

  lemma AddAsked(c: Config, s: ChannelState, v: Visit, u: Visit)
    requires WellFormed(c, s) && c.transQueueDepth >= 1 && s.mc.transactionQueue == []
    ensures var trs := Asked(v, u, s.clock); AddAll(c, s, trs) == s.(mc := s.mc.(transactionQueue := trs))
  {
    var trs := Asked(v, u, s.clock);
    if trs != [] {
      assert trs[1..] == [] && [] + [trs[0]] == trs;
      assert AddAll(c, s, trs) == AddAll(c, AddTransaction(c, s, trs[0]), []);
    }
  }

  // ---- The run ----

  // Whatever the two visits have sent so far is in the history.
  ghost predicate SentSoFar(c: Config, s: ChannelState, v: Visit, u: Visit) {
    && |s.mc.issued| == s.clock
    && forall t :: 0 <= t < s.clock && SentBy(c, v, u, t).Some? ==> s.mc.issued[t] == SentBy(c, v, u, t)
  }

  ghost predicate InScene(c: Config, s: ChannelState, v: Visit, u: Visit, end: nat) {
    && WellFormed(c, s) && Safe(c, s) && Calm(c, s, end) && s.mc.transactionQueue == []
    && SentSoFar(c, s, v, u) && Scene(c, ControlOf(s), v, u)
  }

  lemma SceneCycle(c: Config, s: ChannelState, v: Visit, u: Visit, end: nat)
    requires c.Valid() && c.transQueueDepth >= 1 && InScene(c, s, v, u, end) && s.clock <= end
    requires Update(c, AddAll(c, s, Asked(v, u, s.clock))).Ok?
    ensures InScene(c, Update(c, AddAll(c, s, Asked(v, u, s.clock))).value, v, u, end)
    ensures Update(c, AddAll(c, s, Asked(v, u, s.clock))).value.clock == s.clock + 1
  {
    hide Update, AddAll, Safe, Scene, Next, Asked, SentBy;
    AddAsked(c, s, v, u);
    AddAllKeeps(c, s, Asked(v, u, s.clock));
    var s1 := AddAll(c, s, Asked(v, u, s.clock));
    UpdateIsSafe(c, s1);
    UpdateFollowsControl(c, s1, end);
    SceneStep(c, ControlOf(s), v, u);
    assert ControlOf(s1) == ControlOf(s).(transactions := Asked(v, u, s.clock));
  }

  lemma {:induction false} SceneRun(c: Config, s: ChannelState, v: Visit, u: Visit, end: nat)
    requires c.Valid() && c.transQueueDepth >= 1 && InScene(c, s, v, u, end) && s.clock <= end
    ensures var r := Run(c, s, Schedule(v, u, s.clock, end));
      r.Ok? ==> r.value.clock == end && SentSoFar(c, r.value, v, u)
    decreases end - s.clock
  {
    hide Update, AddAll, Safe, Scene, Asked, SentSoFar, Calm;
    if s.clock < end {
      var requests := Schedule(v, u, s.clock, end);
      assert requests[0] == Asked(v, u, s.clock) && requests[1..] == Schedule(v, u, s.clock + 1, end);
      if Update(c, AddAll(c, s, requests[0])).Ok? {
        SceneCycle(c, s, v, u, end);
        SceneRun(c, Update(c, AddAll(c, s, requests[0])).value, v, u, end);
      }
    }
  }

  // ---- The first cycle ----

  // Nothing is queued and no bank was ever used.
  ghost predicate Blank(c: Config, x: Control) {
    && Fits(c, x) && x.clock == 0 && x.transactions == [] && !x.queue.refreshWaiting
    && forall r :: 0 <= r < c.NumRanks() ==>
         && NoneQueued(c, x.queue.queues[r]) && x.queue.tFAWCountdown[r] == [] && !x.powerDown[r]
         && forall b :: 0 <= b < c.NumBanks() ==> x.banks[r][b] == FRESH_BANK && x.queue.rowAccessCounters[r][b] == 0
  }

  lemma InitialIsBlank(c: Config)
    ensures Blank(c, ControlOf(Initial(c)))
  {
  }

  lemma BlankSendsNothing(c: Config, x: Control)
    requires Blank(c, x)
    ensures var (q, p) := PopSpec(c, 0, AgeAll(c, x.banks), x.queue);
      p == None && q.queues == x.queue.queues && !q.refreshWaiting && PopMild(c, x.queue, q, p)
  {
    hide PopSpec, AgeAll, AgeWindow, Eligible, PopMild;
    forall cur | InGrid(c, cur) ensures Blocked(c, 0, AgeAll(c, x.banks), AgeWindows(x.queue), cur) {
      NoneQueuedBlocks(c, x, cur.rank);
      assert Cursor(cur.rank, cur.bank) == cur;
      assert RankBlocked(c, 0, AgeAll(c, x.banks), AgeWindows(x.queue), cur.rank);
    }
    SendsNoQueued(c, 0, AgeAll(c, x.banks), x.queue);
    NoneIsMild(c, 0, AgeAll(c, x.banks), x.queue);
    assert forall r, b :: 0 <= r < c.NumRanks() && 0 <= b < c.NumBanks() ==>
      AgeAll(c, x.banks)[r][b] == Age(c, FRESH_BANK);
  }

  // After the first cycle an idle rank sleeps if it may, and rests either way.
  lemma BlankRests(c: Config, x: Control, r: nat, v: Visit)
    requires c.Valid() && Blank(c, x) && r == v.cur.rank && Planned(c, v) && InGrid(c, v.cur)
    requires v.entry >= Max(1, c.tCKE) && v.act == v.entry + (if c.useLowPower then Max(1, c.tXP) else 1)
    ensures VisitAt(c, Next(c, x).0, v)
  {
    hide PopSpec, ExpandOne, PopMild, PowerAll, Next, AgeAll, IssuedRow, Opened, Coming, Issue, Target, IssueWrite,
         IssueRead, NoneQueued, TableOf;
    BlankSendsNothing(c, x);
    RankMoves(c, x, r);
    BlankQueues(c, x);
    var w := ViewOf(c, x, r);
    assert IssuedRow(c, 0, r, None, w.row) == w.row;
    assert AllIdle(w.row);
  }

  lemma BlankQueues(c: Config, x: Control)
    requires c.Valid() && Blank(c, x)
    ensures var (x', p) := Next(c, x);
      x'.queue.queues == x.queue.queues && !x'.queue.refreshWaiting && x'.transactions == [] && p == None
  {
    hide PopSpec, PopMild, PowerAll, AgeAll;
    BlankSendsNothing(c, x);
    ExpandNone(c, PopSpec(c, 0, AgeAll(c, x.banks), x.queue).0);
  }

  lemma FirstScene(c: Config, x: Control, v: Visit, u: Visit)
    requires c.Valid() && Blank(c, x) && Disjoint(c, v, u) && v.entry >= Max(1, c.tCKE)
    requires v.act - v.entry == u.act - u.entry == (if c.useLowPower then Max(1, c.tXP) else 1)
    ensures Scene(c, Next(c, x).0, v, u) && Next(c, x).0.transactions == [] && Next(c, x).1 == None
  {
    hide Next, VisitAt;
    BlankQueues(c, x);
    BlankRests(c, x, v.cur.rank, v);
    BlankRests(c, x, u.cur.rank, u);
  }

  lemma InitialIsCalm(c: Config, end: nat)
    requires Share(c.refreshPeriod, c.NumRanks()) > end + c.tXP
    ensures Calm(c, Initial(c), end)
  {
    var s, n := Initial(c), Share(c.refreshPeriod, c.NumRanks());
    forall r | 0 <= r < |s.mc.refreshCountdown| ensures s.mc.refreshCountdown[r] >= n {
      assert s.mc.refreshCountdown[r] == n * (r + 1) == n + n * r;
    }
  }

  // The whole schedule, from the initial state.
  lemma ScheduleRuns(c: Config, v: Visit, u: Visit, end: nat)
    requires c.Valid() && c.transQueueDepth >= 1 && Share(c.refreshPeriod, c.NumRanks()) > end + c.tXP && end >= 1
    requires Disjoint(c, v, u) && v.entry >= Max(1, c.tCKE)
    requires v.act - v.entry == u.act - u.entry == (if c.useLowPower then Max(1, c.tXP) else 1)
    ensures var r := Run(c, Initial(c), Schedule(v, u, 0, end));
      r.Ok? ==> r.value.clock == end && SentSoFar(c, r.value, v, u)
  {
    hide Update, Safe, Scene, SentSoFar, Calm, Initial, Next, Blank, WellFormed;
    var s, requests := Initial(c), Schedule(v, u, 0, end);
    InitialIsSafe(c);
    InitialIsCalm(c, end);
    InitialIsBlank(c);
    InitialIsIdle(c);
    assert requests[0] == [] && requests[1..] == Schedule(v, u, 1, end);
    hide Asked, Run;
    RunsFirst(c, s, requests);
    if Run(c, s, requests).Ok? {
      UpdateIsSafe(c, s);
      UpdateFollowsControl(c, s, end);
      FirstScene(c, ControlOf(s), v, u);
      var s1 := Update(c, s).value;
      FirstSent(c, s1, v, u);
      SceneRun(c, s1, v, u, end);
    }
  }

  // A run that adds nothing in its first cycle.
  lemma RunsFirst(c: Config, s: ChannelState, requests: seq<seq<Transaction>>)
    requires WellFormed(c, s) && requests != [] && requests[0] == []
    ensures Run(c, s, requests) == match Update(c, s) case Halt(e) => Halt(e) case Ok(s1) => Run(c, s1, requests[1..])
  {
    hide Update, WellFormed;
    assert AddAll(c, s, []) == s;
  }

  lemma InitialIsIdle(c: Config)
    ensures var s := Initial(c); s.mc.transactionQueue == [] && s.mc.issued == [] && s.clock == 0
  {
    hide Shape, TableShape;
  }

  lemma FirstSent(c: Config, s: ChannelState, v: Visit, u: Visit)
    requires Disjoint(c, v, u) && v.entry >= 1 && s.clock == 1 && |s.mc.issued| == 1
    ensures SentSoFar(c, s, v, u)
  {
    hide ActOf, ColumnOf;
  }

  // ---- The collision ----

  // Cycles from a transaction's entry to its activate.
  function Wake(c: Config): nat {
    if c.useLowPower then Max(1, c.tXP) else 1
  }

  // A write to rank 0, and one to rank 1 whose row is opened right after the first write.
  function FirstWrite(c: Config): Visit {
    var t := Max(1, c.tCKE);
    Visit(Cursor(0, 0), AccessTo(c, true, 0, 0), t, t + Wake(c))
  }

  function SecondWrite(c: Config): Visit {
    var t := Max(1, c.tCKE) + ToColumn(c) + 1;
    Visit(Cursor(1, 0), AccessTo(c, true, 1, 0), t, t + Wake(c))
  }

  // The cycle after the second write's data should have taken the bus.
  function CollisionEnd(c: Config): nat {
    ColumnCycle(c, SecondWrite(c)) + c.WL() + 1
  }

  function CollisionRequests(c: Config): seq<seq<Transaction>> {
    Schedule(FirstWrite(c), SecondWrite(c), 0, CollisionEnd(c))
  }

  // Whenever the bus is not wide enough, the host can make two writes collide, given room
  // for a transaction and no refresh while they are under way.
  lemma NarrowBusCollides(c: Config)
    requires c.Valid() && !BusWideEnough(c) && c.transQueueDepth >= 1
    requires Share(c.refreshPeriod, c.NumRanks()) > CollisionEnd(c) + c.tXP
    ensures Run(c, Initial(c), CollisionRequests(c)) == Halt(DataBusCollision)
  {
    var v, u, end := FirstWrite(c), SecondWrite(c), CollisionEnd(c);
    assert c.NumRanks() >= 2;
    AccessGoesTo(c, true, 0, 0);
    AccessGoesTo(c, true, 1, 0);
    hide AccessTo, Run, Schedule;
    ScheduleRuns(c, v, u, end);
    NoErrorExit(c, CollisionRequests(c));
    SurvivingWritesAreSpaced(c, CollisionRequests(c), ColumnCycle(c, v), ColumnCycle(c, u));
    var r := Run(c, Initial(c), CollisionRequests(c));
    if r.Ok? {
      BothWrite(c, r.value, v, u);
      assert false;
    }
  }

  lemma BothWrite(c: Config, s: ChannelState, v: Visit, u: Visit)
    requires Disjoint(c, v, u) && v.transaction.isWrite && u.transaction.isWrite
    requires SentSoFar(c, s, v, u) && ColumnCycle(c, u) < s.clock
    ensures WriteAt(s.mc.issued, ColumnCycle(c, v)) && WriteAt(s.mc.issued, ColumnCycle(c, u))
  {
    PacketsOf(c, v);
    PacketsOf(c, u);
    hide ActOf, ColumnOf;
    assert SentBy(c, v, u, ColumnCycle(c, v)) == Some(ColumnOf(c, v));
    assert SentBy(c, v, u, ColumnCycle(c, u)) == Some(ColumnOf(c, u));
  }

  // The exact condition: apart from refreshes and a host without room, the data bus is safe
  // on all runs if and only if it is wide enough.
  lemma CollidesExactlyWhen(c: Config)
    requires c.Valid() && c.transQueueDepth >= 1 && Share(c.refreshPeriod, c.NumRanks()) > CollisionEnd(c) + c.tXP
    ensures (forall requests :: Run(c, Initial(c), requests).Ok?) <==> BusWideEnough(c)
  {
    hide Run, Safe, Initial, WellFormed, CollisionRequests, CollisionEnd, SecondWrite, FirstWrite, Shape, AccessTo;
    if BusWideEnough(c) {
      forall requests ensures Run(c, Initial(c), requests).Ok? {
        NoErrorExit(c, requests);
      }
    } else {
      NarrowBusCollides(c);
    }
  }

  // ---- One such configuration ----

  // Two ranks of one bank, a burst of eight, and a row that can be written in the cycle
  // after its activate.
  const NARROW := Config(ClosePage, PerRank, RankThenBankRoundRobin, Geometry(Scheme4, 0, 1, 0, 4, 4, 0, 0),
                         false, 8, 8, 1, 1_000_000, 2, 0, 8, 1, 0, 1, 1, 1, 1, 1, 1, 1, 1, 1, 1, 1, 1, 1)

  lemma {:induction false} PackFive(g: Geometry, a: Field, b: Field, d: Field, e: Field, f: Field, loc: Location)
    ensures Pack(g, [a, b, d, e, f], loc)
         == loc.Get(a) + Pow2(Width(g, a)) * (loc.Get(b) + Pow2(Width(g, b)) * (loc.Get(d) + Pow2(Width(g, d)) *
            (loc.Get(e) + Pow2(Width(g, e)) * (loc.Get(f) + Pow2(Width(g, f)) * 0))))
  {
    hide Pow2, Width;
    assert [a, b, d, e, f][1..] == [b, d, e, f] && [b, d, e, f][1..] == [d, e, f];
    assert [d, e, f][1..] == [e, f] && [e, f][1..] == [f];
    assert Pack(g, [f], loc) == loc.Get(f) + Pow2(Width(g, f)) * 0;
    assert Pack(g, [e, f], loc) == loc.Get(e) + Pow2(Width(g, e)) * Pack(g, [f], loc);
    assert Pack(g, [d, e, f], loc) == loc.Get(d) + Pow2(Width(g, d)) * Pack(g, [e, f], loc);
    assert Pack(g, [b, d, e, f], loc) == loc.Get(b) + Pow2(Width(g, b)) * Pack(g, [d, e, f], loc);
  }

  lemma SmallPowers()
    ensures Pow2(0) == 1 && Pow2(1) == 2 && Pow2(4) == 16
  {
    assert Pow2(2) == 4;
  }

  // Only the rank is not zero.
  lemma RankAddress(c: Config, rank: nat, p: nat, q: nat)
    requires c.geometry.scheme == Scheme4 && c.geometry.bankBits == c.geometry.byteOffsetBits == c.geometry.colLowBits == 0
    requires p == Pow2(c.geometry.colHighBits) && q == Pow2(c.geometry.rowBits)
    ensures AccessTo(c, true, rank, 0) == Transaction(true, p * (q * rank))
  {
    hide Pow2, Pack;
    PackFive(c.geometry, Field.Column, Field.Row, Field.Bank, Field.Rank, Field.Chan, Location(0, rank, 0, 0, 0));
    SmallPowers();
  }

  lemma FourBitFields(c: Config, rank: nat)
    requires c.geometry.scheme == Scheme4 && c.geometry.bankBits == c.geometry.byteOffsetBits == c.geometry.colLowBits == 0
    requires c.geometry.colHighBits == c.geometry.rowBits == 4
    ensures AccessTo(c, true, rank, 0) == Transaction(true, 256 * rank)
  {
    hide AccessTo, Pow2;
    SmallPowers();
    RankAddress(c, rank, 16, 16);
  }

  lemma NarrowIsValid()
    ensures NARROW.Valid() && !BusWideEnough(NARROW) && CollisionEnd(NARROW) == 7
    ensures Share(NARROW.refreshPeriod, NARROW.NumRanks()) > CollisionEnd(NARROW) + NARROW.tXP
  {
    assert NARROW.NumRanks() == 2 && NARROW.NumBanks() == 1;
    hide AccessTo;
  }

  // Two writes, two cycles apart, end in the collision.
  lemma TwoWritesCollide()
    ensures CollisionRequests(NARROW)
         == [[], [Transaction(true, 0)], [], [Transaction(true, 256)], [], [], []]
    ensures Run(NARROW, Initial(NARROW), CollisionRequests(NARROW)) == Halt(DataBusCollision)
  {
    hide Run, AccessTo, Schedule, Initial, CollisionEnd, Pow2;
    NarrowIsValid();
    NarrowBusCollides(NARROW);
    FourBitFields(NARROW, 0);
    FourBitFields(NARROW, 1);
    UnrolledSchedule(FirstWrite(NARROW), SecondWrite(NARROW));
  }

  lemma UnrolledSchedule(v: Visit, u: Visit)
    ensures Schedule(v, u, 0, 7) == [Asked(v, u, 0), Asked(v, u, 1), Asked(v, u, 2), Asked(v, u, 3), Asked(v, u, 4),
                                     Asked(v, u, 5), Asked(v, u, 6)]
  {
    hide Asked;
    assert Schedule(v, u, 4, 7) == [Asked(v, u, 4), Asked(v, u, 5), Asked(v, u, 6)] by {
      assert Schedule(v, u, 6, 7) == [Asked(v, u, 6)];
    }
    assert Schedule(v, u, 1, 7) == [Asked(v, u, 1), Asked(v, u, 2), Asked(v, u, 3)] + Schedule(v, u, 4, 7);
  }
}
