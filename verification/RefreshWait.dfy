// A refresh that has been asked for comes: how long it can take, unless another rank's
// request takes its place.
module RefreshWait {
  import opened Counting
  import opened Wrappers
  import opened SystemConfiguration
  import opened AddressMapping
  import opened BankState
  import opened Scheduler
  import opened QueueInvariant
  import opened SchedulerSafety
  import opened Channel
  import opened TimingSafety
  import opened ReadPipeline
  import opened Conservation
  import opened ChannelSafety
  import opened OneCycle
  import opened RowFairness
  import opened RowUse
  import opened RefreshPop
  import opened BankStages
  import opened RefreshFlag
  import opened Runs

  // ---- The potential of a rank ----

  function Sum(stages: seq<nat>): nat {
    if stages == [] then 0 else stages[0] + Sum(stages[1..])
  }

  // The cycles left to the first bank that is not ready.
  function Head(stages: seq<nat>, left: seq<nat>): nat
    requires |left| == |stages|
  {
    if stages == [] then 0 else if stages[0] > 0 then left[0] else Head(stages[1..], left[1..])
  }

  function Potential(k: nat, stages: seq<nat>, left: seq<nat>): nat
    requires |left| == |stages|
  {
    Sum(stages) * (k + 1) + Head(stages, left)
  }

  // Bank b is the first that is not ready.
  predicate FirstUnready(stages: seq<nat>, b: nat) {
    b < |stages| && stages[b] > 0 && forall i :: 0 <= i < b ==> stages[i] == 0
  }

  lemma {:induction false} SumFalls(stages: seq<nat>, stages': seq<nat>)
    requires |stages'| == |stages| && forall b :: 0 <= b < |stages| ==> stages'[b] <= stages[b]
    ensures Sum(stages') <= Sum(stages)
    ensures Sum(stages') == Sum(stages) ==> stages' == stages
    decreases |stages|
  {
    if stages != [] {
      SumFalls(stages[1..], stages'[1..]);
      assert stages == [stages[0]] + stages[1..] && stages' == [stages'[0]] + stages'[1..];
    }
  }

  lemma {:induction false} HeadIs(stages: seq<nat>, left: seq<nat>, b: nat)
    requires |left| == |stages| && FirstUnready(stages, b)
    ensures Head(stages, left) == left[b]
    decreases |stages|
  {
    if b > 0 {
      HeadIs(stages[1..], left[1..], b - 1);
    }
  }

  lemma {:induction false} HeadIsShort(k: nat, stages: seq<nat>, left: seq<nat>)
    requires |left| == |stages| && forall b :: 0 <= b < |left| ==> left[b] <= k
    ensures Head(stages, left) <= k
    decreases |stages|
  {
    if stages != [] {
      HeadIsShort(k, stages[1..], left[1..]);
    }
  }

  lemma {:induction false} SumIsShort(stages: seq<nat>)
    requires forall b :: 0 <= b < |stages| ==> stages[b] <= 3
    ensures Sum(stages) <= 3 * |stages|
    decreases |stages|
  {
    if stages != [] {
      SumIsShort(stages[1..]);
    }
  }

  lemma {:induction false} SomeUnready(stages: seq<nat>) returns (b: nat)
    requires exists i :: 0 <= i < |stages| && stages[i] > 0
    ensures FirstUnready(stages, b)
  {
    b := 0;
    while stages[b] == 0
      invariant b < |stages| && forall i :: 0 <= i < b ==> stages[i] == 0
      decreases |stages| - b
    {
      b := b + 1;
    }
  }

  // One cycle takes at least one off, or adds one delay.
  lemma PotentialFalls(k: nat, stages: seq<nat>, left: seq<nat>, stages': seq<nat>, left': seq<nat>, b: nat, delayed: bool)
    requires |left| == |stages| == |stages'| == |left'| && FirstUnready(stages, b)
    requires forall i :: 0 <= i < |stages| ==> stages'[i] <= stages[i] && left'[i] <= k
    requires delayed || stages'[b] < stages[b] || left'[b] < left[b]
    ensures Potential(k, stages', left') + 1 <= Potential(k, stages, left) + if delayed then k + 1 else 0
  {
    hide Sum, Head;
    SumFalls(stages, stages');
    HeadIsShort(k, stages', left');
    HeadIs(stages, left, b);
    if stages' == stages {
      HeadIs(stages', left', b);
    }
    ProductFalls(k, Sum(stages), Head(stages, left), Sum(stages'), Head(stages', left'), delayed);
  }

  lemma ProductFalls(k: nat, n: nat, h: nat, n': nat, h': nat, delayed: bool)
    requires n' <= n && h' <= k && (delayed || n' < n || h' < h)
    ensures n' * (k + 1) + h' + 1 <= n * (k + 1) + h + if delayed then k + 1 else 0
  {
    if n' < n {
      MulLe(n' + 1, n, k + 1);
    }
  }

  // ---- The rank before a pop ----

  ghost function StagesOf(c: Config, t: int, banks: BankTable, q: QueueState, r: nat): (stages: seq<nat>)
    requires TableShape(c, banks) && Shape(c, q) && r < c.NumRanks()
    ensures |stages| == c.NumBanks()
    ensures forall b :: 0 <= b < |stages| ==> stages[b] == Stage(t, banks[r][b], BareFor(c, q, r, b))
  {
    seq(c.NumBanks(), b requires 0 <= b < c.NumBanks() => Stage(t, banks[r][b], BareFor(c, q, r, b)))
  }

  ghost function LeftsOf(c: Config, t: int, banks: BankTable, q: QueueState, r: nat): (left: seq<nat>)
    requires TableShape(c, banks) && Shape(c, q) && r < c.NumRanks()
    ensures |left| == c.NumBanks()
    ensures forall b :: 0 <= b < |left| ==> left[b] == Left(t, banks[r][b], BareFor(c, q, r, b))
  {
    seq(c.NumBanks(), b requires 0 <= b < c.NumBanks() => Left(t, banks[r][b], BareFor(c, q, r, b)))
  }

  ghost predicate TidyTable(c: Config, t: int, banks: BankTable) {
    forall r, b :: 0 <= r < |banks| && 0 <= b < |banks[r]| ==> Tidy(c, t, banks[r][b])
  }

  // In close page, a column access waits for every open row.
  ghost predicate ClosersWait(c: Config, banks: BankTable, q: QueueState)
    requires TableShape(c, banks) && Shape(c, q)
  {
    c.policy == ClosePage ==>
      forall r, b :: 0 <= r < c.NumRanks() && 0 <= b < c.NumBanks() && Open(banks[r][b]) ==> BareFor(c, q, r, b)
  }

  // What is known at a pop that leaves the request of rank r waiting.
  ghost predicate AtPop(c: Config, t: int, banks: BankTable, q: QueueState, r: nat) {
    && c.Valid() && TableShape(c, banks) && Shape(c, q) && QueuesOK(c, t + 1, banks, q)
    && TidyTable(c, t, banks) && ClosersWait(c, banks, q)
    && q.refreshWaiting && q.refreshRank == r
    && PopSpec(c, t, banks, q).0.refreshWaiting
  }

  lemma BareOf(queue: seq<BusPacket>, p: BusPacket)
    requires exists j :: 0 <= j < |queue| && Bare(queue, j) && queue[j] == p
    ensures BareIn(queue, p.bank)
  {
  }

  // Whatever is popped, it serves the waiting rank or leaves it alone.
  lemma PoppedServes(c: Config, t: int, banks: BankTable, q: QueueState, r: nat, b: nat)
    requires AtPop(c, t, banks, q, r) && r < c.NumRanks() && b < c.NumBanks()
    ensures var (q', p) := PopSpec(c, t, banks, q);
      var bare, bare' := BareFor(c, q, r, b), BareFor(c, q', r, b);
      if p.Some? then Serves(c, p.value, r, b, banks[r][b], bare, bare') else bare' == bare
  {
    hide PopSpec, BareIn, QueuesOK, RankOK, RefreshIsDue, KeepsBack, IssueAll, TidyTable, Bare;
    WaitingRankIsSpared(c, t, banks, q);
    RefreshIsSentExactlyWhen(c, t, banks, q);
    PopIsFair(c, t, banks, q);
    PopIsSafe(c, t, banks, q);
    var (q', p) := PopSpec(c, t, banks, q);
    if p.Some? {
      assert PopAt(p.value, r, b, q.rowAccessCounters[r][b], q'.rowAccessCounters[r][b],
                   BareFor(c, q, r, b), BareFor(c, q', r, b));
      if p.value.rank == r && p.value.bank == b && p.value.IsColumn() {
        BareOf(q.queues[r][Slot(c, b)], p.value);
      }
    }
  }

  // A rank that is ready is refreshed, so while the request waits some bank is not ready.
  lemma SomeBankKeepsBack(c: Config, t: int, banks: BankTable, q: QueueState, r: nat)
    requires AtPop(c, t, banks, q, r) && r < c.NumRanks()
    ensures exists b :: 0 <= b < c.NumBanks() && StagesOf(c, t, banks, q, r)[b] > 0
  {
    hide PopSpec, QueuesOK, TidyTable, ClosersWait, BareIn;
    RefreshIsSentExactlyWhen(c, t, banks, q);
    if banks[r][0].state == PowerDown {
      assert StagesOf(c, t, banks, q, r)[0] > 0;
    } else {
      var b :| 0 <= b < c.NumBanks() && !Quiet(t, banks[r][b]);
      assert StagesOf(c, t, banks, q, r)[b] > 0;
    }
  }

  // A waiting column access is the first packet to the open row.
  lemma BareIsFirst(c: Config, t: int, banks: BankTable, q: QueueState, r: nat, b: nat, j: nat)
    requires QueuesOK(c, t + 1, banks, q) && r < c.NumRanks() && b < c.NumBanks()
    requires var queue := q.queues[r][Slot(c, b)]; j < |queue| && Bare(queue, j) && queue[j].bank == b
    ensures FirstToOpenRow(q.queues[r][Slot(c, b)], j, b, banks[r][b]) && q.queues[r][Slot(c, b)][j].rank == r
    ensures q.rowAccessCounters[r][b] == 0
  {
    SlotFacts(c, t, banks, q, r, Slot(c, b));
    hide QueuesOK, Static;
    var queue := q.queues[r][Slot(c, b)];
    assert Held(banks[r][b], q.rowAccessCounters[r][b], queue[j].row) && FirstOfBank(queue, j);
  }

  // The first packet to a row that no column access waits for is an activate.
  lemma FirstIsActivate(c: Config, t: int, banks: BankTable, q: QueueState, r: nat, b: nat, j: nat)
    requires QueuesOK(c, t + 1, banks, q) && r < c.NumRanks() && b < c.NumBanks() && !BareFor(c, q, r, b)
    requires var queue := q.queues[r][Slot(c, b)]; j < |queue| && FirstToOpenRow(queue, j, b, banks[r][b])
    ensures q.queues[r][Slot(c, b)][j].kind == ACTIVATE
  {
    SlotFacts(c, t, banks, q, r, Slot(c, b));
    hide QueuesOK, BareReady;
    var queue := q.queues[r][Slot(c, b)];
    assert Entry(c, r, Slot(c, b), queue[j]);
    assert j > 0 && queue[j - 1].kind == ACTIVATE ==> PairOf(queue[j - 1], queue[j]);
    assert !Bare(queue, j);
  }

  lemma SomeFirst(queue: seq<BusPacket>, b: nat, m: Bank) returns (j: nat)
    ensures j <= |queue|
    ensures if j < |queue| then FirstToOpenRow(queue, j, b, m)
            else forall i :: 0 <= i < |queue| ==> !(queue[i].bank == b && queue[i].row == m.openRow)
  {
    j := FirstTo(queue, b, m.openRow);
    forall i | 0 <= i < j ensures !(queue[i].bank == b && queue[i].row == m.openRow) {
      assert !GoesTo(queue[i], b, m.openRow);
    }
  }

  lemma BareLeaves(c: Config, t: int, banks: BankTable, q: QueueState, r: nat, b: nat, j: nat)
    requires AtPop(c, t, banks, q, r) && r < c.NumRanks() && b < c.NumBanks() && KeepsBack(c, t, banks, r, b)
    requires banks[r][b].state == RowActive && t >= Max(banks[r][b].nextRead, banks[r][b].nextWrite)
    requires var queue := q.queues[r][Slot(c, b)]; j < |queue| && Bare(queue, j) && queue[j].bank == b
    ensures PopSpec(c, t, banks, q).1 == Some(q.queues[r][Slot(c, b)][j]) && q.queues[r][Slot(c, b)][j].rank == r
  {
    hide PopSpec, QueuesOK, TidyTable, ClosersWait, KeepsBack, FirstToOpenRow;
    OpenBankIsServed(c, t, banks, q, b);
    BareIsFirst(c, t, banks, q, r, b, j);
  }

  lemma UnusedRowCloses(c: Config, t: int, banks: BankTable, q: QueueState, r: nat, b: nat)
    requires AtPop(c, t, banks, q, r) && r < c.NumRanks() && b < c.NumBanks() && KeepsBack(c, t, banks, r, b)
    requires banks[r][b].state == RowActive && t >= banks[r][b].nextPrecharge && !BareFor(c, q, r, b) && c.policy == OpenPage
    ensures PopSpec(c, t, banks, q).1 == Some(BusPacket(PRECHARGE, 0, 0, 0, r, b))
  {
    hide PopSpec, QueuesOK, TidyTable, ClosersWait, KeepsBack, FirstToOpenRow, ColumnLeaves, BareFor, Put;
    OpenBankIsServed(c, t, banks, q, b);
    var j := SomeFirst(q.queues[r][Slot(c, b)], b, banks[r][b]);
    if j < |q.queues[r][Slot(c, b)]| {
      FirstIsActivate(c, t, banks, q, r, b, j);
    }
  }

  // When the first bank that is not ready has an open row and nothing left to wait for,
  // the next command goes to it.
  lemma OpenRowIsHelped(c: Config, t: int, banks: BankTable, q: QueueState, r: nat, b: nat)
    requires AtPop(c, t, banks, q, r) && r < c.NumRanks() && FirstUnready(StagesOf(c, t, banks, q, r), b)
    requires Open(banks[r][b]) && Left(t, banks[r][b], BareFor(c, q, r, b)) == 0
    ensures var p := PopSpec(c, t, banks, q).1; p.Some? && p.value.rank == r && p.value.bank == b
  {
    hide PopSpec, QueuesOK, TidyTable, Bare;
    var queue := q.queues[r][Slot(c, b)];
    assert KeepsBack(c, t, banks, r, b) by {
      forall i | 0 <= i < b ensures Quiet(t, banks[r][i]) {
        assert StagesOf(c, t, banks, q, r)[i] == 0;
      }
    }
    if BareFor(c, q, r, b) {
      var j :| 0 <= j < |queue| && Bare(queue, j) && queue[j].bank == b;
      BareLeaves(c, t, banks, q, r, b, j);
    } else {
      UnusedRowCloses(c, t, banks, q, r, b);
    }
  }

  // A column access to another rank: the only command that can hold the refresh up.
  predicate ColumnElsewhere(p: Option<BusPacket>, r: nat) {
    p.Some? && p.value.IsColumn() && p.value.rank != r
  }

  // A column access of the rank itself goes to the first bank that is not ready.
  lemma OwnColumnIsFirst(c: Config, t: int, banks: BankTable, q: QueueState, r: nat, b: nat)
    requires AtPop(c, t, banks, q, r) && r < c.NumRanks() && FirstUnready(StagesOf(c, t, banks, q, r), b)
    ensures var p := PopSpec(c, t, banks, q).1; Delays(p, r, b) ==> ColumnElsewhere(p, r)
  {
    hide PopSpec, QueuesOK, TidyTable, ClosersWait, BareIn, Bare;
    WaitingRankIsSpared(c, t, banks, q);
    PopIsSafe(c, t, banks, q);
    var p := PopSpec(c, t, banks, q).1;
    if Delays(p, r, b) && p.value.rank == r {
      var a := p.value.bank;
      assert KeepsBack(c, t, banks, r, a) && Open(banks[r][a]);
      assert StagesOf(c, t, banks, q, r)[a] > 0 && StagesOf(c, t, banks, q, r)[b] > 0;
      assert b < a && Quiet(t, banks[r][b]);
      OneAsleepAllAsleep(c, t, banks, q, r, b, a);
    }
  }

  lemma OneAsleepAllAsleep(c: Config, t: int, banks: BankTable, q: QueueState, r: nat, b: nat, a: nat)
    requires QueuesOK(c, t + 1, banks, q) && r < c.NumRanks() && a < c.NumBanks() && b < c.NumBanks()
    ensures banks[r][b].state == PowerDown ==> banks[r][a].state == PowerDown
  {
    hide Static, BareReady, CountersOK;
    assert RankOK(c, t + 1, r, banks[r], q.rowAccessCounters[r], q.queues[r]);
  }

  // ---- One cycle ----

  ghost predicate Waiting(c: Config, s: ChannelState, r: nat)
    requires WellFormed(c, s)
  {
    s.mc.queue.refreshWaiting && s.mc.queue.refreshRank == r
  }

  ghost function Wait(c: Config, s: ChannelState, r: nat): nat
    requires WellFormed(c, s) && r < c.NumRanks()
  {
    var banks := AgeAll(c, s.mc.banks);
    Potential(LongestDelay(c), StagesOf(c, s.clock, banks, s.mc.queue, r), LeftsOf(c, s.clock, banks, s.mc.queue, r))
  }

  // What every run keeps, for the bound.
  ghost predicate WaitInv(c: Config, s: ChannelState) {
    WellFormed(c, s) && UseHistory(c, s) && Flagged(c, s) && TidyTable(c, s.clock, s.mc.banks)
  }

  // Pops and what follows, bank by bank.
  lemma NextEntries(c: Config, s: ChannelState, s1: ChannelState, s': ChannelState, r: nat, b: nat)
    requires Cycled(c, s, s1, s') && AtPop(c, s.clock, s1.mc.banks, s1.mc.queue, r) && r < c.NumRanks() && b < c.NumBanks()
    requires RowWoken(c, s.clock, PoppedTable(c, s1)[r], s'.mc.banks[r])
    ensures var p := PopSpec(c, s.clock, s1.mc.banks, s1.mc.queue).1;
      AgeAll(c, s'.mc.banks)[r][b] == NextEntry(c, s.clock, p, r, b, s1.mc.banks[r][b])
  {
    hide PopSpec, AtPop, Issue, Age, Woken, CycleEnd;
  }

  // s1 is the state at the pop of the cycle from s to s'.
  ghost predicate Cycled(c: Config, s: ChannelState, s1: ChannelState, s': ChannelState) {
    && WellFormed(c, s) && WellFormed(c, s1) && WellFormed(c, s')
    && s1.clock == s.clock && s'.clock == s.clock + 1 && s1.mc.banks == AgeAll(c, s.mc.banks) && s1.mc.issued == s.mc.issued
    && s1.mc.queue.queues == s.mc.queue.queues && CycleEnd(c, s1, s')
  }

  lemma BaresStay(c: Config, s1: ChannelState, s': ChannelState, r: nat, b: nat)
    requires WellFormed(c, s1) && WellFormed(c, s') && CycleEnd(c, s1, s') && r < c.NumRanks() && b < c.NumBanks()
    ensures BareFor(c, s'.mc.queue, r, b) == BareFor(c, PopSpec(c, s1.clock, s1.mc.banks, s1.mc.queue).0, r, b)
  {
    hide PopSpec, BareIn, Expanded, PoweredTable, IssueAll;
    var q := PopSpec(c, s1.clock, s1.mc.banks, s1.mc.queue).0;
    if s'.mc.queue.queues != q.queues {
      var tr :| Expanded(c, q, tr, s'.mc.queue);
      ExpandedBares(c, q, tr, s'.mc.queue, r, b);
      AppendedBares(c, q, tr, s'.mc.queue, r, b);
    }
  }

  // One bank over a whole cycle.
  lemma BankNears(c: Config, s: ChannelState, s1: ChannelState, s': ChannelState, r: nat, b: nat)
    requires Cycled(c, s, s1, s') && AtPop(c, s.clock, s1.mc.banks, s1.mc.queue, r) && r < c.NumRanks() && b < c.NumBanks()
    requires RowWoken(c, s.clock, PoppedTable(c, s1)[r], s'.mc.banks[r])
    ensures var p := PopSpec(c, s.clock, s1.mc.banks, s1.mc.queue).1;
      var m, m' := s1.mc.banks[r][b], AgeAll(c, s'.mc.banks)[r][b];
      var bare, bare' := BareFor(c, s1.mc.queue, r, b), BareFor(c, s'.mc.queue, r, b);
      && Stage(s'.clock, m', bare') <= Stage(s.clock, m, bare)
      && (Stage(s.clock, m, bare) > 0 && Helped(s.clock, p, r, b, m, bare) && !Delays(p, r, b) ==>
            Stage(s'.clock, m', bare') < Stage(s.clock, m, bare) || Left(s'.clock, m', bare') < Left(s.clock, m, bare))
  {
    hide PopSpec, AtPop, CycleEnd, PoppedTable, RowWoken, AgeAll, NextEntry, Serves, Stage, Left, Helped, Delays, BareFor;
    var q := s1.mc.queue;
    NextEntries(c, s, s1, s', r, b);
    BaresStay(c, s1, s', r, b);
    PoppedServes(c, s.clock, s1.mc.banks, q, r, b);
    ConsistentAt(c, s.clock, s1.mc.banks, q, r, b);
    var p := PopSpec(c, s.clock, s1.mc.banks, q).1;
    StageStays(c, s.clock, p, r, b, s1.mc.banks[r][b], BareFor(c, q, r, b), BareFor(c, s'.mc.queue, r, b));
    if Stage(s.clock, s1.mc.banks[r][b], BareFor(c, q, r, b)) > 0 && Helped(s.clock, p, r, b, s1.mc.banks[r][b], BareFor(c, q, r, b))
       && !Delays(p, r, b) {
      StageEnds(c, s.clock, p, r, b, s1.mc.banks[r][b], BareFor(c, q, r, b), BareFor(c, s'.mc.queue, r, b));
    }
  }

  lemma ConsistentAt(c: Config, t: int, banks: BankTable, q: QueueState, r: nat, b: nat)
    requires AtPop(c, t, banks, q, r) && r < c.NumRanks() && b < c.NumBanks()
    ensures c.Valid() && Consistent(t + 1, banks[r][b])
  {
    hide PopSpec, TidyTable, ClosersWait;
    RowConsistent(c, t + 1, banks, q, r);
  }

  // One cycle takes one off the wait, unless a column access to another rank comes in.
  lemma CycleFalls(c: Config, s: ChannelState, s1: ChannelState, s': ChannelState, r: nat)
    requires Cycled(c, s, s1, s') && AtPop(c, s.clock, s1.mc.banks, s1.mc.queue, r) && r < c.NumRanks()
    requires RowWoken(c, s.clock, PoppedTable(c, s1)[r], s'.mc.banks[r]) && TidyTable(c, s'.clock, AgeAll(c, s'.mc.banks))
    ensures var p := PopSpec(c, s.clock, s1.mc.banks, s1.mc.queue).1;
      Wait(c, s', r) + 1 <= Wait(c, s, r) + if ColumnElsewhere(p, r) then LongestDelay(c) + 1 else 0
  {
    hide PopSpec, AtPop, CycleEnd, PoppedTable, RowWoken, AgeAll, Stage, Left, Helped, Delays, BareFor, LongestDelay, Potential;
    var k, t, banks, q := LongestDelay(c), s.clock, s1.mc.banks, s1.mc.queue;
    var p := PopSpec(c, t, banks, q).1;
    var banks' := AgeAll(c, s'.mc.banks);
    var stages, left := StagesOf(c, t, banks, q, r), LeftsOf(c, t, banks, q, r);
    var stages', left' := StagesOf(c, s'.clock, banks', s'.mc.queue, r), LeftsOf(c, s'.clock, banks', s'.mc.queue, r);
    SameWaits(c, t, banks, s.mc.queue, q, r);
    SomeBankKeepsBack(c, t, banks, q, r);
    var b := SomeUnready(stages);
    OpenRowHelped(c, t, banks, q, r, b);
    OwnColumnIsFirst(c, t, banks, q, r, b);
    forall i | 0 <= i < |stages| ensures stages'[i] <= stages[i] && left'[i] <= k {
      BankNears(c, s, s1, s', r, i);
      LeftIsShort(c, s'.clock, banks'[r][i], BareFor(c, s'.mc.queue, r, i));
    }
    BankNears(c, s, s1, s', r, b);
    PotentialFalls(k, stages, left, stages', left', b, ColumnElsewhere(p, r));
  }

  lemma OpenRowHelped(c: Config, t: int, banks: BankTable, q: QueueState, r: nat, b: nat)
    requires AtPop(c, t, banks, q, r) && r < c.NumRanks() && FirstUnready(StagesOf(c, t, banks, q, r), b)
    ensures Helped(t, PopSpec(c, t, banks, q).1, r, b, banks[r][b], BareFor(c, q, r, b))
  {
    hide PopSpec, QueuesOK, TidyTable, ClosersWait, BareFor, Left;
    if Open(banks[r][b]) && Left(t, banks[r][b], BareFor(c, q, r, b)) == 0 {
      OpenRowIsHelped(c, t, banks, q, r, b);
    }
  }

  lemma SameWaits(c: Config, t: int, banks: BankTable, q: QueueState, q': QueueState, r: nat)
    requires TableShape(c, banks) && Shape(c, q) && Shape(c, q') && q'.queues == q.queues && r < c.NumRanks()
    ensures StagesOf(c, t, banks, q', r) == StagesOf(c, t, banks, q, r)
    ensures LeftsOf(c, t, banks, q', r) == LeftsOf(c, t, banks, q, r)
  {
    hide Stage, Left, BareIn;
  }

  // ---- What every run keeps ----

  lemma AgedTable(c: Config, s: ChannelState)
    requires WellFormed(c, s) && Safe(c, s) && TidyTable(c, s.clock, s.mc.banks)
    ensures TidyTable(c, s.clock, AgeAll(c, s.mc.banks))
  {
    hide Consistent, Reads, Matched, QueuesOK, Tracking, PowerFlags, Tidy, Age;
    forall r, b | 0 <= r < c.NumRanks() && 0 <= b < c.NumBanks() ensures Tidy(c, s.clock, AgeAll(c, s.mc.banks)[r][b]) {
      RowConsistent(c, s.clock, s.mc.banks, s.mc.queue, r);
      AgedTidy(c, s.clock, s.mc.banks[r][b]);
    }
  }

  lemma PoppedTidy(c: Config, s: ChannelState)
    requires c.Valid() && WellFormed(c, s) && QueuesOK(c, s.clock + 1, s.mc.banks, s.mc.queue)
    requires TidyTable(c, s.clock, s.mc.banks)
    ensures TidyTable(c, s.clock + 1, PoppedTable(c, s))
  {
    PopIsSafe(c, s.clock, s.mc.banks, s.mc.queue);
    hide PopSpec, QueuesOK, Tidy, Issue, MayIssue;
    var p := PopSpec(c, s.clock, s.mc.banks, s.mc.queue).1;
    forall r, b | 0 <= r < c.NumRanks() && 0 <= b < c.NumBanks() ensures Tidy(c, s.clock + 1, PoppedTable(c, s)[r][b]) {
      if p.Some? {
        IssuedTidy(c, s.clock, p.value, r, b, s.mc.banks[r][b]);
      } else {
        LaterTidy(c, s.clock, s.mc.banks[r][b]);
      }
    }
  }

  lemma LaterTidy(c: Config, t: int, m: Bank)
    requires Tidy(c, t, m)
    ensures Tidy(c, t + 1, m)
  {
  }

  lemma PoweredTidyTable(c: Config, t: int, banks: BankTable, banks': BankTable)
    requires TidyTable(c, t + 1, banks) && PoweredTable(c, t, banks, banks')
    ensures TidyTable(c, t + 1, banks')
  {
    hide Tidy, PoweredFrom;
    forall r, b | 0 <= r < |banks'| && 0 <= b < |banks'[r]| ensures Tidy(c, t + 1, banks'[r][b]) {
      PoweredTidy(c, t, banks[r][b], banks'[r][b]);
    }
  }

  // At the pop of a cycle.
  lemma PopIsTidy(c: Config, s: ChannelState, s': ChannelState)
    requires Cycle(c, s, s') && WaitInv(c, s)
    ensures PopState(c, s).Ok?
    ensures var s1 := PopState(c, s).value;
      && Cycled(c, s, s1, s') && QueuesOK(c, s.clock + 1, s1.mc.banks, s1.mc.queue)
      && TidyTable(c, s.clock, s1.mc.banks) && ClosersWait(c, s1.mc.banks, s1.mc.queue)
      && (s1.mc.queue.refreshWaiting ==> s1.ranks[s1.mc.queue.refreshRank].refreshWaiting)
  {
    hide Safe, Update, PopState, PopSpec, AgeAll, TidyTable, UseHistory, Flagged, ClosersWait, AtDataBus, QueuesOK, IssueAll,
         PoweredTable, Expanded;
    CycleShape(c, s);
    PopStateIs(c, s);
    PopStateFlags(c, s);
    var s1 := PopState(c, s).value;
    AgedTable(c, s);
    QueuesAtPop(c, s1);
    AwaitedHere(c, s, s1);
  }

  lemma AwaitedHere(c: Config, s: ChannelState, s1: ChannelState)
    requires WellFormed(c, s) && WellFormed(c, s1) && Safe(c, s) && UseHistory(c, s)
    requires s1.mc.banks == AgeAll(c, s.mc.banks) && s1.mc.queue.queues == s.mc.queue.queues
    requires TidyTable(c, s.clock, s1.mc.banks)
    ensures ClosersWait(c, s1.mc.banks, s1.mc.queue)
  {
    hide Safe, AgeAll, RowsUsed, BareFor, ColumnsSince, Open;
    AgedAwaited(c, s, s1.mc.queue);
    forall r, b | c.policy == ClosePage && 0 <= r < c.NumRanks() && 0 <= b < c.NumBanks() && Open(s1.mc.banks[r][b])
      ensures BareFor(c, s1.mc.queue, r, b)
    {
      assert Tidy(c, s.clock, s1.mc.banks[r][b]);
      assert Awaited(s1.mc.banks[r][b], BareFor(c, s1.mc.queue, r, b), ColumnsSince(s.mc.issued, r, b));
    }
  }

  lemma TidySleeps(c: Config, t: int, banks: BankTable, r: nat)
    requires TidyTable(c, t, banks) && r < |banks|
    ensures MaySleep(c, banks[r])
  {
    hide Tidy;
    forall b | 0 <= b < |banks[r]| && banks[r][b].state == PowerDown ensures c.useLowPower {
      TidySleeper(c, t, banks[r][b]);
    }
  }

  lemma TidySleeper(c: Config, t: int, m: Bank)
    requires Tidy(c, t, m)
    ensures m.state == PowerDown ==> c.useLowPower
  {
  }

  // One cycle keeps the invariant, and takes one off the wait of the rank whose request
  // it leaves waiting, unless a column access to another rank comes in.
  lemma CycleKeepsWait(c: Config, s: ChannelState, s': ChannelState)
    requires Cycle(c, s, s') && WaitInv(c, s)
    ensures WaitInv(c, s') && |s'.mc.issued| == |s.mc.issued| + 1 && s'.mc.issued[..|s.mc.issued|] == s.mc.issued
    ensures s'.mc.queue.refreshWaiting ==>
      var r, p := s'.mc.queue.refreshRank, s'.mc.issued[|s.mc.issued|];
      && Wait(c, s', r) + 1 <= Wait(c, s, r) + (if ColumnElsewhere(p, r) then LongestDelay(c) + 1 else 0)
      && (c.NumRanks() == 1 ==> !ColumnElsewhere(p, r))
  {
    hide Safe, Update, PopState, PopSpec, AgeAll, TidyTable, UseHistory, QueuesOK, ClosersWait, Wait, RowWoken, PoweredTable,
         Expanded, RefreshIsDue, MaySleep, LongestDelay;
    PopIsTidy(c, s, s');
    UpdateKeepsUse(c, s);
    UpdateIsSafe(c, s);
    var s1 := PopState(c, s).value;
    var (q, p) := PopSpec(c, s.clock, s1.mc.banks, s1.mc.queue);
    PoppedTidy(c, s1);
    PoweredTidyTable(c, s.clock, PoppedTable(c, s1), s'.mc.banks);
    RefreshIsSentExactlyWhen(c, s.clock, s1.mc.banks, s1.mc.queue);
    if s'.mc.queue.refreshWaiting {
      var r := s'.mc.queue.refreshRank;
      TidySleeps(c, s'.clock, PoppedTable(c, s1), r);
      CycleWakes(c, s, r);
      AgedTable(c, s');
      CycleFalls(c, s, s1, s', r);
    }
  }

  // ---- Runs ----

  // Column accesses to other ranks.
  function ColumnsElsewhere(issued: seq<Option<BusPacket>>, r: nat): nat {
    if issued == [] then 0
    else ColumnsElsewhere(issued[..|issued| - 1], r) + if ColumnElsewhere(issued[|issued| - 1], r) then 1 else 0
  }

  // The request of rank r is neither served nor replaced in any cycle.
  ghost predicate StaysWaiting(c: Config, s: ChannelState, during: seq<seq<Transaction>>, r: nat)
    requires WellFormed(c, s)
  {
    forall n :: 0 < n <= |during| ==> Run(c, s, during[..n]).Ok? && Waiting(c, Run(c, s, during[..n]).value, r)
  }

  lemma StillWaiting(c: Config, s: ChannelState, during: seq<seq<Transaction>>, r: nat)
    requires WellFormed(c, s) && StaysWaiting(c, s, during, r) && during != []
    ensures var s1 := Update(c, AddAll(c, s, during[0]));
      s1.Ok? && Waiting(c, s1.value, r) && StaysWaiting(c, s1.value, during[1..], r)
      && Run(c, s, during) == Run(c, s1.value, during[1..])
  {
    hide Update, WellFormed, AddAll, Waiting;
    assert during[..1][1..] == [] && during[..1][0] == during[0];
    assert Run(c, s, during[..1]).Ok?;
    var s1 := Update(c, AddAll(c, s, during[0])).value;
    forall n | 0 < n <= |during[1..]|
      ensures Run(c, s1, during[1..][..n]).Ok? && Waiting(c, Run(c, s1, during[1..][..n]).value, r)
    {
      assert during[..n + 1][1..] == during[1..][..n] && during[..n + 1][0] == during[0];
      assert Run(c, s, during[..n + 1]).Ok?;
    }
  }

  lemma RequestsKeepWait(c: Config, s: ChannelState, s': ChannelState)
    requires Requested(c, s, s') && WaitInv(c, s)
    ensures WaitInv(c, s') && s'.mc.issued == s.mc.issued
    ensures forall r :: 0 <= r < c.NumRanks() ==> Wait(c, s', r) == Wait(c, s, r)
  {
    hide RowsAwaited, RowsUsed, TidyTable, StagesOf, LeftsOf, Potential, AgeAll;
  }

  lemma {:induction false} WaitFalls(c: Config, s: ChannelState, during: seq<seq<Transaction>>, r: nat)
    requires c.Valid() && WaitInv(c, s) && Safe(c, s) && r < c.NumRanks() && StaysWaiting(c, s, during, r)
    ensures Run(c, s, during).Ok?
    ensures var s' := Run(c, s, during).value;
      |during| + Wait(c, s', r) + ColumnsElsewhere(s.mc.issued, r) * (LongestDelay(c) + 1)
      <= Wait(c, s, r) + ColumnsElsewhere(s'.mc.issued, r) * (LongestDelay(c) + 1)
      && (c.NumRanks() == 1 ==> ColumnsElsewhere(s'.mc.issued, r) == ColumnsElsewhere(s.mc.issued, r))
    decreases during
  {
    hide Safe, Update, AddAll, UseHistory, Flagged, TidyTable, StaysWaiting, Wait, LongestDelay, ColumnElsewhere;
    if during != [] {
      StillWaiting(c, s, during, r);
      var s1 := AddAll(c, s, during[0]);
      var s2 := Update(c, s1).value;
      AddAllKeeps(c, s, during[0]);
      AddAllOnlyRequests(c, s, during[0]);
      RequestsKeepWait(c, s, s1);
      UpdateIsSafe(c, s1);
      CycleKeepsWait(c, s1, s2);
      WaitFalls(c, s2, during[1..], r);
      OneMore(c, s1.mc.issued, s2.mc.issued, r);
    }
  }

  lemma OneMore(c: Config, issued: seq<Option<BusPacket>>, issued': seq<Option<BusPacket>>, r: nat)
    requires |issued'| == |issued| + 1 && issued'[..|issued|] == issued
    ensures ColumnsElsewhere(issued', r) == ColumnsElsewhere(issued, r) + if ColumnElsewhere(issued'[|issued|], r) then 1 else 0
    ensures ColumnsElsewhere(issued', r) * (LongestDelay(c) + 1)
      == ColumnsElsewhere(issued, r) * (LongestDelay(c) + 1)
         + if ColumnElsewhere(issued'[|issued|], r) then LongestDelay(c) + 1 else 0
  {
    hide LongestDelay, ColumnElsewhere;
  }

  lemma WaitIsShort(c: Config, s: ChannelState, r: nat)
    requires c.Valid() && WaitInv(c, s) && Safe(c, s) && r < c.NumRanks()
    ensures Wait(c, s, r) < (3 * c.NumBanks() + 1) * (LongestDelay(c) + 1)
  {
    hide Safe, UseHistory, Flagged, TidyTable, AgeAll, LongestDelay, Sum, Head, Stage, Left, BareFor;
    AgedTable(c, s);
    var k, banks := LongestDelay(c), AgeAll(c, s.mc.banks);
    var stages, left := StagesOf(c, s.clock, banks, s.mc.queue, r), LeftsOf(c, s.clock, banks, s.mc.queue, r);
    forall b | 0 <= b < c.NumBanks() ensures stages[b] <= 3 && left[b] <= k {
      TidyLeft(c, s.clock, banks, r, b, BareFor(c, s.mc.queue, r, b));
    }
    SumIsShort(stages);
    HeadIsShort(k, stages, left);
    ProductIsShort(k, Sum(stages), Head(stages, left), 3 * c.NumBanks());
  }

  lemma ProductIsShort(k: nat, n: nat, h: nat, bound: nat)
    requires n <= bound && h <= k
    ensures n * (k + 1) + h < (bound + 1) * (k + 1)
  {
    MulLe(n, bound, k + 1);
    assert (bound + 1) * (k + 1) == bound * (k + 1) + k + 1;
  }

  lemma TidyLeft(c: Config, t: int, banks: BankTable, r: nat, b: nat, bare: bool)
    requires TidyTable(c, t, banks) && r < |banks| && b < |banks[r]|
    ensures Stage(t, banks[r][b], bare) <= 3 && Left(t, banks[r][b], bare) <= LongestDelay(c)
  {
    LeftIsShort(c, t, banks[r][b], bare);
  }

  lemma InitialWaits(c: Config)
    requires c.Valid()
    ensures WaitInv(c, Initial(c))
  {
    InitialUse(c);
  }

  lemma BoundOf(n: int, d: int, w: int, x: int, y: int, k: int)
    requires d + x * k <= w + y * k && w < n * k
    ensures d < (n + (y - x)) * k
  {
    assert (n + (y - x)) * k == n * k + y * k - x * k;
  }

  // In every run, from every point on: the cycles in which the request of rank r keeps
  // waiting are bounded by the device delays, one bank after the other, and by the column
  // accesses that other ranks put in between. In particular a request that is not replaced
  // is served, and with a single rank, at the latest after so many cycles.
  lemma EveryRefreshComes(c: Config, before: seq<seq<Transaction>>, during: seq<seq<Transaction>>, r: nat)
    requires c.Valid() && r < c.NumRanks() && Run(c, Initial(c), before).Ok?
    requires StaysWaiting(c, Run(c, Initial(c), before).value, during, r)
    ensures Run(c, Run(c, Initial(c), before).value, during).Ok?
    ensures var s := Run(c, Initial(c), before).value;
      var elsewhere := ColumnsElsewhere(Run(c, s, during).value.mc.issued, r) - ColumnsElsewhere(s.mc.issued, r);
      |during| < (3 * c.NumBanks() + 1 + elsewhere) * (LongestDelay(c) + 1) && (c.NumRanks() == 1 ==> elsewhere == 0)
  {
    hide Safe, Run, Initial, UseHistory, Flagged, TidyTable, WellFormed, StaysWaiting, Cycle, Requested, ColumnsElsewhere,
         LongestDelay, Wait;
    InitialWaits(c);
    var inv := (s: ChannelState) => WaitInv(c, s);
    forall s, s' | Requested(c, s, s') && inv(s) ensures inv(s') {
      RequestsKeepWait(c, s, s');
    }
    forall s, s' | Cycle(c, s, s') && inv(s) ensures inv(s') {
      CycleKeepsWait(c, s, s');
    }
    RunKeeps(c, inv, before);
    NoErrorExit(c, before);
    var s := Run(c, Initial(c), before).value;
    WaitFalls(c, s, during, r);
    WaitIsShort(c, s, r);
    BoundOf(3 * c.NumBanks() + 1, |during|, Wait(c, s, r), ColumnsElsewhere(s.mc.issued, r),
            ColumnsElsewhere(Run(c, s, during).value.mc.issued, r), LongestDelay(c) + 1);
  }
}
