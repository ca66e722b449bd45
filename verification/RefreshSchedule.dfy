// Refreshes are signalled exactly on their staggered schedule, one rank at a time.
module RefreshSchedule {
  import opened SystemConfiguration
  import opened Scheduler
  import opened Channel
  import opened ChannelSafety
  import opened OneCycle
  import opened Runs

  function Step(c: Config): nat {
    Share(c.refreshPeriod, c.NumRanks())
  }

  // The cycle in which rank i is due for the k-th time.
  function Due(c: Config, i: int, k: int): int {
    (i + 1) * Step(c) + k * c.refreshPeriod
  }

  lemma NextPeriod(c: Config, i: int, k: int)
    ensures Due(c, i, k + 1) == Due(c, i, k) + c.refreshPeriod
  {
  }

  lemma NextRank(c: Config, i: int, k: int)
    ensures Due(c, i + 1, k) == Due(c, i, k) + Step(c)
  {
  }

  lemma {:induction false} LaterRank(c: Config, i: int, j: int, k: int)
    requires i <= j && Step(c) >= 1
    ensures Due(c, i, k) + (j - i) <= Due(c, j, k)
    decreases j - i
  {
    if i < j {
      LaterRank(c, i, j - 1, k);
      NextRank(c, j - 1, k);
    }
  }

  lemma {:induction false} LaterPeriod(c: Config, i: int, k: int, n: int)
    requires k <= n
    ensures Due(c, i, k) + (if k < n then c.refreshPeriod else 0) <= Due(c, i, n)
    decreases n - k
  {
    if k < n {
      LaterPeriod(c, i, k, n - 1);
      NextPeriod(c, i, n - 1);
    }
  }

  // The last rank's turn ends before the first rank's next one.
  lemma RoundsDoNotOverlap(c: Config, k: int)
    requires Step(c) >= 1
    ensures Due(c, c.NumRanks() - 1, k) < Due(c, 0, k + 1)
  {
    NextPeriod(c, 0, k);
    assert c.NumRanks() * Step(c) <= c.refreshPeriod;
  }

  // Rank i's next turn when rank r is next in round k.
  function Turn(i: int, r: int, k: int): int {
    if i >= r then k else k + 1
  }

  // In cycle t every countdown shows the time to its rank's next turn, rank r is
  // next, and the turn before it has passed.
  ghost predicate OnSchedule(c: Config, t: int, countdowns: seq<nat>, r: nat, k: nat) {
    && |countdowns| == c.NumRanks() && r < c.NumRanks()
    && (forall i :: 0 <= i < c.NumRanks() ==> countdowns[i] == Due(c, i, Turn(i, r, k)) - t)
    && t <= Due(c, r, k)
    && (if r > 0 then Due(c, r - 1, k) < t else k > 0 ==> Due(c, c.NumRanks() - 1, k - 1) < t)
  }

  // Countdowns of ranks that are not next are still running.
  lemma OthersRun(c: Config, t: int, countdowns: seq<nat>, r: nat, k: nat, i: nat)
    requires OnSchedule(c, t, countdowns, r, k) && Step(c) >= 1 && i < c.NumRanks() && i != r
    ensures countdowns[i] > countdowns[r]
  {
    if i > r {
      LaterRank(c, r, i, k);
    } else {
      LaterRank(c, r, c.NumRanks() - 1, k);
      RoundsDoNotOverlap(c, k);
      LaterRank(c, 0, i, k + 1);
    }
  }

  // Countdowns increase in cyclic order from the rank that is next.
  lemma CyclicOrder(c: Config, t: int, countdowns: seq<nat>, r: nat, k: nat, i: nat)
    requires OnSchedule(c, t, countdowns, r, k) && Step(c) >= 1 && i + 1 < c.NumRanks()
    ensures i + 1 != r ==> countdowns[i] < countdowns[i + 1]
    ensures r > 0 && i + 1 == r ==> countdowns[c.NumRanks() - 1] < countdowns[0]
  {
    NextRank(c, i, k);
    NextRank(c, i, k + 1);
    if r > 0 {
      RoundsDoNotOverlap(c, k);
    }
  }

  // The timer of one cycle, on the countdowns alone.
  function Timer(c: Config, countdowns: seq<nat>, r: nat): (seq<nat>, nat)
    requires r < |countdowns| == c.NumRanks()
  {
    var (started, next) := Restarted(c, countdowns, r);
    (DecAll(started), next)
  }

  lemma TimerOnSchedule(c: Config, t: int, countdowns: seq<nat>, r: nat, k: nat)
    requires OnSchedule(c, t, countdowns, r, k) && Step(c) >= 1
    ensures var (countdowns', r') := Timer(c, countdowns, r);
      OnSchedule(c, t + 1, countdowns', r', if countdowns[r] == 0 && r' == 0 then k + 1 else k)
  {
    var (countdowns', r') := Timer(c, countdowns, r);
    forall i | 0 <= i < c.NumRanks() && i != r ensures countdowns[i] > countdowns[r] {
      OthersRun(c, t, countdowns, r, k, i);
    }
    hide Due;
    NextPeriod(c, r, k);
    if countdowns[r] == 0 {
      assert c.refreshPeriod >= 1 by {
        RoundsDoNotOverlap(c, k);
        LaterRank(c, 0, c.NumRanks() - 1, k);
        NextPeriod(c, 0, k);
      }
      if r + 1 == c.NumRanks() {
        RoundsDoNotOverlap(c, k);
      } else {
        LaterRank(c, r, r + 1, k);
      }
    }
  }

  // ---- The whole controller follows the timer ----

  lemma UpdateFollowsTimer(c: Config, s: ChannelState)
    requires c.Valid() && WellFormed(c, s) && Safe(c, s) && Update(c, s).Ok?
    ensures var m, m' := s.mc, Update(c, s).value.mc;
      (m'.refreshCountdown, m'.refreshRank) == Timer(c, m.refreshCountdown, m.refreshRank)
    ensures Update(c, s).value.clock == s.clock + 1
  {
    hide Update, PopState, PopSpec, Safe, AtDataBus, Restarted, DecAll, PoweredTable, Expanded, AgeAll;
    CycleShape(c, s);
    PopStateIs(c, s);
  }

  ghost predicate Scheduled(c: Config, s: ChannelState) {
    exists k: nat :: OnSchedule(c, s.clock, s.mc.refreshCountdown, s.mc.refreshRank, k)
  }

  lemma TimerKeepsSchedule(c: Config, s: ChannelState, s': ChannelState)
    requires Step(c) >= 1 && Scheduled(c, s) && s'.clock == s.clock + 1
    requires (s'.mc.refreshCountdown, s'.mc.refreshRank) == Timer(c, s.mc.refreshCountdown, s.mc.refreshRank)
    ensures Scheduled(c, s')
  {
    hide OnSchedule, Timer;
    var k: nat :| OnSchedule(c, s.clock, s.mc.refreshCountdown, s.mc.refreshRank, k);
    TimerOnSchedule(c, s.clock, s.mc.refreshCountdown, s.mc.refreshRank, k);
  }

  lemma InitialSchedule(c: Config)
    requires Step(c) >= 1
    ensures Scheduled(c, Initial(c))
  {
    var s := Initial(c);
    forall i | 0 <= i < c.NumRanks() ensures s.mc.refreshCountdown[i] == Due(c, i, Turn(i, 0, 0)) - 0 {
      assert Step(c) * (i + 1) == (i + 1) * Step(c);
    }
    assert OnSchedule(c, 0, s.mc.refreshCountdown, 0, 0);
  }

  // The controller signals rank i in the coming cycle.
  predicate Signals(s: ChannelState, i: nat) {
    s.mc.refreshRank == i && i < |s.mc.refreshCountdown| && s.mc.refreshCountdown[i] == 0
  }

  lemma EveryRunIsScheduled(c: Config, requests: seq<seq<Transaction>>)
    requires c.Valid() && Step(c) >= 1 && Run(c, Initial(c), requests).Ok?
    ensures Scheduled(c, Run(c, Initial(c), requests).value)
  {
    hide Safe, Run, Initial, Update, WellFormed, OnSchedule, Timer;
    InitialSchedule(c);
    var inv := (s: ChannelState) => Scheduled(c, s);
    forall s, s' | Cycle(c, s, s') && inv(s) ensures inv(s') {
      UpdateFollowsTimer(c, s);
      TimerKeepsSchedule(c, s, s');
    }
    RunKeeps(c, inv, requests);
  }

  // When the period holds at least one cycle per rank, rank i is signalled in cycle t
  // exactly when t is one of its staggered due times.
  lemma SignalledWhenDue(c: Config, requests: seq<seq<Transaction>>, i: nat)
    requires c.Valid() && i < c.NumRanks()
    requires Step(c) >= 1
    ensures Run(c, Initial(c), requests).Ok? ==>
      var s := Run(c, Initial(c), requests).value;
      Signals(s, i) <==> exists k: nat :: s.clock == Due(c, i, k)
  {
    hide Run, Due, Initial;
    if Run(c, Initial(c), requests).Ok? {
      EveryRunIsScheduled(c, requests);
      var s := Run(c, Initial(c), requests).value;
      var k: nat :| OnSchedule(c, s.clock, s.mc.refreshCountdown, s.mc.refreshRank, k);
      if exists n: nat :: s.clock == Due(c, i, n) {
        var n: nat :| s.clock == Due(c, i, n);
        DueMeansNext(c, s.clock, s.mc.refreshCountdown, s.mc.refreshRank, k, i, n);
      }
    }
  }

  lemma DueMeansNext(c: Config, t: int, countdowns: seq<nat>, r: nat, k: nat, i: nat, n: nat)
    requires OnSchedule(c, t, countdowns, r, k) && Step(c) >= 1 && i < c.NumRanks() && t == Due(c, i, n)
    ensures i == r && countdowns[i] == 0
  {
    hide Due;
    var turn := Turn(i, r, k);
    if i != r {
      OthersRun(c, t, countdowns, r, k, i);
    }
    if turn < n {
      LaterPeriod(c, i, turn, n);
    } else if n < turn {
      LaterPeriod(c, i, n, turn - 1);
      if i >= r {
        LaterRank(c, i, c.NumRanks() - 1, k - 1);
        if r > 0 {
          RoundsDoNotOverlap(c, k - 1);
          LaterRank(c, 0, r - 1, k);
        }
      } else {
        LaterRank(c, i, r - 1, k);
      }
    }
  }
}
