// The channel around a rank that takes a nap between two transactions.
module NapCycles {
  import opened Wrappers
  import opened SystemConfiguration
  import opened BankState
  import opened Scheduler
  import opened QueueInvariant
  import opened Channel
  import opened WriteBus
  import opened ControlPath
  import opened SinglePops
  import opened Visits
  import opened VisitCycles
  import opened VisitPairs
  import opened NapStages

  // Where the two visits of a nap are at the start of cycle x.clock.
  ghost predicate NapAt(c: Config, x: Control, v: Visit, u: Visit)
    requires Fits(c, x) && InGrid(c, v.cur) && InGrid(c, u.cur)
  {
    var t, w := x.clock, ViewOf(c, x, v.cur.rank);
    && t <= u.act && |w.window| <= (if t > v.act then 1 else 0)
    && if t <= ColumnCycle(c, v) then VisitAt(c, x, v)
       else if t <= CloseCycle(c, v) then Closing(c, t, w, v)
       else if t <= SleepCycle(c, v) then Shutting(c, t, w, v)
       else if t <= u.entry then Resting(c, t, w, u)
       else Coming(c, t, w, u)
  }

  // The other ranks are idle or asleep, with nothing queued.
  ghost predicate Still(row: seq<Bank>) {
    forall b :: 0 <= b < |row| ==> (row[b].state == Idle || row[b].state == PowerDown) && row[b].countdown == 0
  }

  ghost predicate OthersStill(c: Config, x: Control, r: nat)
    requires Fits(c, x)
  {
    forall i :: 0 <= i < c.NumRanks() && i != r ==> NoneQueued(c, x.queue.queues[i]) && Still(x.banks[i])
  }

  ghost predicate NapScene(c: Config, x: Control, v: Visit, u: Visit) {
    && Fits(c, x) && NapsBetween(c, v, u) && v.entry < v.act && !x.queue.refreshWaiting
    && NapAt(c, x, v, u) && OthersStill(c, x, v.cur.rank)
  }

  // What is sent in cycle t.
  function SentInNap(c: Config, v: Visit, u: Visit, t: nat): Option<BusPacket> {
    if SentIn(c, v, t).Some? then SentIn(c, v, t)
    else if t == CloseCycle(c, v) && c.policy == OpenPage then Some(BusPacket(PRECHARGE, 0, 0, 0, v.cur.rank, v.cur.bank))
    else if t == u.act then Some(ActOf(c, u))
    else None
  }

  // ---- The other ranks ----

  lemma StillStays(c: Config, t: nat, r: nat, w: View, w': View, p: Option<BusPacket>)
    requires ViewFits(c, w) && ViewFits(c, w') && Moves(c, t, r, w, w', p) && Foreign(p, r) && Still(w.row)
    ensures Still(w'.row)
  {
    QuietRow(c, t, r, p, w.row);
    hide IssuedRow;
  }

  lemma OthersAreBlocked(c: Config, x: Control, r: nat, cur: Cursor)
    requires Fits(c, x) && OthersStill(c, x, r) && InGrid(c, cur) && cur.rank != r
    ensures Blocked(c, x.clock, AgeAll(c, x.banks), AgeWindows(x.queue), cur)
    ensures !Closable(c, x.clock, AgeAll(c, x.banks), AgeWindows(x.queue), cur)
  {
    NoneQueuedBlocks(c, x, cur.rank);
    AgedStill(c, x.banks[cur.rank], cur.bank);
    hide Blocked, NoneQueued, Age, AgeWindow;
    assert RankBlocked(c, x.clock, AgeAll(c, x.banks), AgeWindows(x.queue), cur.rank);
    assert Cursor(cur.rank, cur.bank) == cur;
  }

  // ---- The napping rank ----

  // Between column access and sleep nothing is queued, and the row is closed when its time
  // has come.
  lemma ClosingCloses(c: Config, x: Control, v: Visit, b: nat)
    requires Fits(c, x) && InGrid(c, v.cur) && b < c.NumBanks()
    requires Closing(c, x.clock, ViewOf(c, x, v.cur.rank), v)
    ensures c.policy == OpenPage ==>
      Closable(c, x.clock, AgeAll(c, x.banks), AgeWindows(x.queue), Cursor(v.cur.rank, b))
        == (b == v.cur.bank && x.clock == CloseCycle(c, v))
  {
    if c.policy == OpenPage {
      AgedStill(c, x.banks[v.cur.rank], b);
    }
    hide Age;
  }

  lemma ShuttingNotClosable(c: Config, x: Control, v: Visit, b: nat)
    requires Fits(c, x) && InGrid(c, v.cur) && b < c.NumBanks()
    requires Shutting(c, x.clock, ViewOf(c, x, v.cur.rank), v)
    ensures !Closable(c, x.clock, AgeAll(c, x.banks), AgeWindows(x.queue), Cursor(v.cur.rank, b))
  {
  }

  // The cycle's packet does not come from a queue.
  predicate Unqueued(c: Config, v: Visit, u: Visit, t: nat) {
    SentIn(c, v, t) == None && t != u.act
  }

  lemma NapBlocks(c: Config, x: Control, v: Visit, u: Visit)
    requires c.Valid() && NapScene(c, x, v, u) && Unqueued(c, v, u, x.clock)
    ensures RankBlocked(c, x.clock, AgeAll(c, x.banks), AgeWindows(x.queue), v.cur.rank)
  {
    hide RankBlocked, AgeAll, AgeWindow, Opened, ActOf, ColumnOf, CloseCycle, SleepCycle, VisitAt, Coming,
         OthersStill, SentIn, Planned, Target, Fits, CommandFor, Shape;
    var t := x.clock;
    if t <= ColumnCycle(c, v) {
      VisitBlocks(c, x, v);
    } else if t <= u.entry {
      NoneQueuedBlocks(c, x, v.cur.rank);
    } else {
      ComingBlocks(c, x, u);
    }
  }

  lemma NapCloses(c: Config, x: Control, v: Visit, u: Visit, b: nat)
    requires c.Valid() && NapScene(c, x, v, u) && b < c.NumBanks() && c.policy == OpenPage
    ensures Closable(c, x.clock, AgeAll(c, x.banks), AgeWindows(x.queue), Cursor(v.cur.rank, b))
         == (b == v.cur.bank && x.clock == CloseCycle(c, v))
  {
    hide Closable, AgeAll, AgeWindow, Opened, Closing, Shutting, Resting, Coming;
    var t := x.clock;
    if t <= ColumnCycle(c, v) {
      VisitNotClosable(c, x, v, b);
    } else if t <= CloseCycle(c, v) {
      ClosingCloses(c, x, v, b);
    } else if t <= SleepCycle(c, v) {
      ShuttingNotClosable(c, x, v, b);
    } else {
      NotClosable(c, x, u, b);
    }
  }

  lemma NapPopsUnqueued(c: Config, x: Control, v: Visit, u: Visit)
    requires c.Valid() && NapScene(c, x, v, u) && Unqueued(c, v, u, x.clock)
    ensures var (q, p) := PopSpec(c, x.clock, AgeAll(c, x.banks), x.queue);
      && p == SentInNap(c, v, u, x.clock)
      && !q.refreshWaiting && PopMild(c, x.queue, q, p) && q.queues == x.queue.queues
  {
    hide NapAt, SentIn, Blocked, AgeAll, AgeWindow, NoneQueued, PopSpec, PopMild, Closable, CloseCycle, Still;
    NapBlocks(c, x, v, u);
    forall cur | InGrid(c, cur) ensures Blocked(c, x.clock, AgeAll(c, x.banks), AgeWindows(x.queue), cur) {
      if cur.rank == v.cur.rank {
        assert Cursor(v.cur.rank, cur.bank) == cur;
      } else {
        OthersAreBlocked(c, x, v.cur.rank, cur);
      }
    }
    SendsNoQueued(c, x.clock, AgeAll(c, x.banks), x.queue);
    NoneIsMild(c, x.clock, AgeAll(c, x.banks), x.queue);
    var p := PopSpec(c, x.clock, AgeAll(c, x.banks), x.queue).1;
    if c.policy == OpenPage {
      NapCloses(c, x, v, u, v.cur.bank);
      if p.Some? {
        if p.value.rank == v.cur.rank {
          NapCloses(c, x, v, u, p.value.bank);
        } else {
          OthersAreBlocked(c, x, v.cur.rank, Cursor(p.value.rank, p.value.bank));
        }
      } else {
        assert !Closable(c, x.clock, AgeAll(c, x.banks), AgeWindows(x.queue), v.cur);
        assert Cursor(v.cur.rank, v.cur.bank) == v.cur;
      }
    }
  }

  // The front of the napping rank's queue goes.
  lemma NapPopsFront(c: Config, x: Control, v: Visit, u: Visit, cur: Cursor)
    requires NapScene(c, x, v, u) && InGrid(c, cur) && cur.rank == v.cur.rank
    requires |QueueAt(c, x.queue, cur)| > 0
    requires Issuable(c, x.clock, AgeAll(c, x.banks), AgeWindows(x.queue), QueueAt(c, x.queue, cur)[0])
    requires forall b: nat :: InGrid(c, Cursor(cur.rank, b)) && Slot(c, b) != Slot(c, cur.bank) ==>
      Blocked(c, x.clock, AgeAll(c, x.banks), AgeWindows(x.queue), Cursor(cur.rank, b))
    ensures var (q, p) := PopSpec(c, x.clock, AgeAll(c, x.banks), x.queue);
      && p == Some(QueueAt(c, x.queue, cur)[0]) && !q.refreshWaiting && PopMild(c, x.queue, q, p)
      && q.queues == Put(x.queue.queues, cur.rank, Slot(c, cur.bank), QueueAt(c, x.queue, cur)[1..])
  {
    hide NapAt, Blocked, AgeAll, AgeWindow, NoneQueued, PopSpec, PopMild, Issuable, Put, Still, OthersStill,
         NapsBetween, Closable, Planned, Target, QueueAt, SleepCycle, CloseCycle, TableOf;
    forall other | InGrid(c, other) && !SameQueue(c, other, cur)
      ensures Blocked(c, x.clock, AgeAll(c, x.banks), AgeWindows(x.queue), other)
    {
      if other.rank == cur.rank {
        assert Cursor(cur.rank, other.bank) == other;
      } else {
        OthersAreBlocked(c, x, cur.rank, other);
      }
    }
    SendsFront(c, x.clock, AgeAll(c, x.banks), x.queue, cur);
    FrontIsMild(c, x.clock, AgeAll(c, x.banks), x.queue, cur);
  }

  // ---- One cycle ----

  // The queues of the napping rank after cycle t.
  ghost predicate NapSlots(c: Config, t: nat, slots: seq<seq<BusPacket>>, slots': seq<seq<BusPacket>>, v: Visit, u: Visit)
    requires |slots| >= NumSlots(c) && |slots'| >= NumSlots(c) && InGrid(c, v.cur) && InGrid(c, u.cur)
  {
    if t <= ColumnCycle(c, v) then SlotsFollow(c, t, slots, slots', v)
    else if t == u.entry then OnlyQueued(c, slots', u.cur.bank, [ActOf(c, u), ColumnOf(c, u)])
    else slots' == slots
  }

  lemma NoneIsForeign(r: nat)
    ensures Foreign(None, r) && Opening(None)
  {
  }

  lemma WindowFollows(c: Config, t: nat, w: View, w': View, v: Visit, u: Visit)
    requires ViewFits(c, w) && ViewFits(c, w') && NapsBetween(c, v, u) && t < u.act
    requires Moves(c, t, v.cur.rank, w, w', SentInNap(c, v, u, t)) && |w.window| <= (if t > v.act then 1 else 0)
    ensures |w'.window| <= (if t + 1 > v.act then 1 else 0)
  {
    PacketsOf(c, v);
    hide ActOf, ColumnOf, PowerRow, CloseCycle, SleepCycle, ToColumn;
  }

  lemma NapAdvances(c: Config, x: Control, x': Control, v: Visit, u: Visit)
    requires c.Valid() && NapScene(c, x, v, u) && Fits(c, x') && x'.clock == x.clock + 1 && x.clock < u.act
    requires var r := v.cur.rank;
      && Moves(c, x.clock, r, ViewOf(c, x, r), ViewOf(c, x', r), SentInNap(c, v, u, x.clock))
      && NapSlots(c, x.clock, x.queue.queues[r], x'.queue.queues[r], v, u)
    ensures NapAt(c, x', v, u)
  {
    var t, r, p := x.clock, v.cur.rank, SentInNap(c, v, u, x.clock);
    var w, w' := ViewOf(c, x, r), ViewOf(c, x', r);
    WindowFollows(c, t, w, w', v, u);
    NoneIsForeign(r);
    hide Moves, ActOf, ColumnOf, VisitAt, Resting, Coming, Opened, Closing, Shutting, OnlyQueued, ToColumn, Foreign, Opening;
    if t <= ColumnCycle(c, v) {
      NapBegins(c, x, x', v, u);
    } else if t < CloseCycle(c, v) {
      ClosingStays(c, t, w, w', v);
    } else if t == CloseCycle(c, v) {
      ClosingEnds(c, w, w', v, p);
    } else if t < SleepCycle(c, v) {
      ShuttingStays(c, t, w, w', v);
    } else if t == SleepCycle(c, v) {
      ShuttingEnds(c, w, w', v, u);
    } else if t < u.entry {
      EmptyStays(c, t, w, u);
      RestStays(c, t, w, w', p, u);
    } else if t == u.entry {
      RestEnds(c, w, w', p, u);
    } else {
      ComingStays(c, t, w, w', p, u);
    }
  }

  // The first visit.
  lemma NapBegins(c: Config, x: Control, x': Control, v: Visit, u: Visit)
    requires c.Valid() && NapScene(c, x, v, u) && Fits(c, x') && x'.clock == x.clock + 1 && x.clock <= ColumnCycle(c, v)
    requires var r := v.cur.rank;
      && Moves(c, x.clock, r, ViewOf(c, x, r), ViewOf(c, x', r), SentInNap(c, v, u, x.clock))
      && SlotsFollow(c, x.clock, x.queue.queues[r], x'.queue.queues[r], v)
    ensures if x.clock == ColumnCycle(c, v) then Closing(c, x'.clock, ViewOf(c, x', v.cur.rank), v) else VisitAt(c, x', v)
  {
    hide Opened, OthersStill, Shutting, Planned, Target, CommandFor, CloseCycle, NoneQueued, TableOf;
    var t, r, p := x.clock, v.cur.rank, SentInNap(c, v, u, x.clock);
    NoneIsForeign(r);
    hide Moves, ActOf, ColumnOf, Resting, Coming, Closing, OnlyQueued, Foreign, Opening, SleepCycle;
    VisitAdvances(c, x, x', v, p);
    if t == ColumnCycle(c, v) {
      ColumnSent(c, ViewOf(c, x, r), ViewOf(c, x', r), v, u);
    }
  }

  // What the pop of a cycle sends and leaves; the packet of the second visit ends the nap.
  lemma NapPops(c: Config, x: Control, v: Visit, u: Visit)
    requires c.Valid() && NapScene(c, x, v, u)
    ensures var (q, p) := PopSpec(c, x.clock, AgeAll(c, x.banks), x.queue);
      && p == SentInNap(c, v, u, x.clock) && !q.refreshWaiting && PopMild(c, x.queue, q, p)
      && (forall r :: 0 <= r < c.NumRanks() && r != v.cur.rank ==> q.queues[r] == x.queue.queues[r])
      && (if SentIn(c, v, x.clock).Some? then
            SlotsFollow(c, x.clock, x.queue.queues[v.cur.rank], q.queues[v.cur.rank], v)
          else x.clock < u.act ==> q.queues[v.cur.rank] == x.queue.queues[v.cur.rank])
  {
    hide VisitAt, SentIn, Blocked, AgeAll, AgeWindow, NoneQueued, PopSpec, PopMild, Issuable, SlotsFollow, ActOf, ColumnOf,
         CloseCycle, Closing, Shutting, Resting, Coming;
    var t := x.clock;
    SendTimes(c, v, u, t);
    if SentIn(c, v, t).Some? {
      VisitSends(c, x, v);
      NapPopsFront(c, x, v, u, v.cur);
      SlotsAfterSend(c, x, v, PopSpec(c, t, AgeAll(c, x.banks), x.queue).0.queues);
    } else if t == u.act {
      ActIssuable(c, x, u);
      ComingAlone(c, x, u);
      NapPopsFront(c, x, v, u, u.cur);
    } else {
      NapPopsUnqueued(c, x, v, u);
    }
  }

  lemma SendTimes(c: Config, v: Visit, u: Visit, t: nat)
    requires NapsBetween(c, v, u)
    ensures SentIn(c, v, t).Some? ==> t <= ColumnCycle(c, v) && t < u.act && SentInNap(c, v, u, t) == SentIn(c, v, t)
    ensures t == u.act ==> t > u.entry > SleepCycle(c, v) && SentInNap(c, v, u, t) == Some(ActOf(c, u))
    ensures SleepCycle(c, v) > CloseCycle(c, v) > ColumnCycle(c, v) > v.act
  {
    hide ActOf, ColumnOf, CloseCycle;
  }

  lemma ComingAlone(c: Config, x: Control, u: Visit)
    requires c.Valid() && Fits(c, x) && InGrid(c, u.cur) && Coming(c, x.clock, ViewOf(c, x, u.cur.rank), u)
    ensures forall b: nat :: InGrid(c, Cursor(u.cur.rank, b)) && Slot(c, b) != Slot(c, u.cur.bank) ==>
      Blocked(c, x.clock, AgeAll(c, x.banks), AgeWindows(x.queue), Cursor(u.cur.rank, b))
  {
    hide Issuable, ActOf, ColumnOf, AgeAll;
  }

  // The queues after the expansion.
  lemma NapExpands(c: Config, x: Control, q: QueueState, v: Visit, u: Visit)
    requires c.Valid() && NapScene(c, x, v, u) && Shape(c, q)
    requires forall r :: 0 <= r < c.NumRanks() && r != v.cur.rank ==> q.queues[r] == x.queue.queues[r]
    requires if SentIn(c, v, x.clock).Some? then
               SlotsFollow(c, x.clock, x.queue.queues[v.cur.rank], q.queues[v.cur.rank], v)
             else q.queues[v.cur.rank] == x.queue.queues[v.cur.rank]
    ensures var (q', trs) := ExpandOne(c, q, Asked(v, u, x.clock));
      && trs == [] && q' == q.(queues := q'.queues)
      && (forall r :: 0 <= r < c.NumRanks() && r != v.cur.rank ==> q'.queues[r] == x.queue.queues[r])
      && NapSlots(c, x.clock, x.queue.queues[v.cur.rank], q'.queues[v.cur.rank], v, u)
  {
    hide ExpandOne, VisitAt, ActOf, ColumnOf, NoneQueued, OnlyQueued, CloseCycle, Closing, Shutting, Coming, Still,
         SentInNap, OthersStill, Resting, Planned, Target, Fits, CommandFor, Shape, TableOf;
    var t := x.clock;
    SendTimes(c, v, u, t);
    if t == v.entry {
      EntersEmpty(c, x, v);
      EntryOf(c, q, v);
    } else if t == u.entry {
      EmptyStays(c, t, ViewOf(c, x, u.cur.rank), u);
      EntryOf(c, q, u);
    } else {
      ExpandNone(c, q);
    }
  }

  lemma NapStep(c: Config, x: Control, v: Visit, u: Visit)
    requires c.Valid() && NapScene(c, x, v, u)
    ensures var (x', p) := Next(c, x.(transactions := Asked(v, u, x.clock)));
      && p == SentInNap(c, v, u, x.clock)
      && (x.clock < u.act ==> NapScene(c, x', v, u) && x'.transactions == [] && x'.clock == x.clock + 1)
  {
    hide Issue, ColumnOf, Planned, Target, ActOf, CommandFor, Shape, IssueWrite, IssueRead;
    var y := x.(transactions := Asked(v, u, x.clock));
    hide NapAt, SentInNap, AgeAll, PopSpec, PopMild, ExpandOne, PowerAll, IssueAll, Moves, SlotsFollow, NapSlots, OthersStill,
         Asked, SentIn, ViewOf;
    NapPops(c, x, v, u);
    var (q, p) := PopSpec(c, x.clock, AgeAll(c, x.banks), x.queue);
    if x.clock < u.act {
      NapExpands(c, x, q, v, u);
      var x' := Next(c, y).0;
      RankMoves(c, y, v.cur.rank);
      SameView(c, x, y, v.cur.rank);
      NapAdvances(c, x, x', v, u);
      OthersFollow(c, x, y, x', v, u);
    }
  }

  lemma SameView(c: Config, x: Control, y: Control, r: nat)
    requires Fits(c, x) && Fits(c, y) && r < c.NumRanks() && y == x.(transactions := y.transactions)
    ensures ViewOf(c, y, r) == ViewOf(c, x, r)
  {
  }

  lemma OthersFollow(c: Config, x: Control, y: Control, x': Control, v: Visit, u: Visit)
    requires NapScene(c, x, v, u) && y == x.(transactions := y.transactions) && Fits(c, y) && Fits(c, x')
    requires x' == Next(c, y).0 && Next(c, y).1 == SentInNap(c, v, u, x.clock)
    requires var (q, p) := PopSpec(c, y.clock, AgeAll(c, y.banks), y.queue); PopMild(c, y.queue, q, p)
    requires forall r :: 0 <= r < c.NumRanks() && r != v.cur.rank ==> x'.queue.queues[r] == x.queue.queues[r]
    ensures OthersStill(c, x', v.cur.rank)
  {
    hide NapAt, SentInNap, AgeAll, PopSpec, PopMild, Next, Moves, NoneQueued, Still;
    NapIsHome(c, v, u, x.clock);
    forall i | 0 <= i < c.NumRanks() && i != v.cur.rank ensures NoneQueued(c, x'.queue.queues[i]) && Still(x'.banks[i]) {
      RankMoves(c, y, i);
      StillStays(c, x.clock, i, ViewOf(c, y, i), ViewOf(c, x', i), SentInNap(c, v, u, x.clock));
    }
  }

  // All packets of a nap go to its rank.
  lemma NapIsHome(c: Config, v: Visit, u: Visit, t: nat)
    requires NapsBetween(c, v, u)
    ensures forall i: nat :: i != v.cur.rank ==> Foreign(SentInNap(c, v, u, t), i)
  {
    PacketsOf(c, v);
    PacketsOf(c, u);
    hide ActOf, ColumnOf;
  }
}
