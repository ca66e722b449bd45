// Two visits to different ranks, in a channel that is empty otherwise.
module VisitPairs {
  import opened Wrappers
  import opened SystemConfiguration
  import opened BankState
  import opened Scheduler
  import opened QueueInvariant
  import opened Channel
  import opened ControlPath
  import opened SinglePops
  import opened Visits
  import opened VisitCycles

  // The visits are apart: they enter and send in different cycles, and u has not been
  // activated while the column access of v can be sent.
  predicate Disjoint(c: Config, v: Visit, u: Visit) {
    && Planned(c, v) && Planned(c, u) && InGrid(c, v.cur) && InGrid(c, u.cur) && v.cur.rank != u.cur.rank
    && v.entry < u.entry && ColumnCycle(c, v) < u.act && ColumnCycle(c, v) > v.act && ColumnCycle(c, u) > u.act
  }

  ghost predicate OthersEmpty(c: Config, x: Control, v: Visit, u: Visit)
    requires Fits(c, x)
  {
    forall r :: 0 <= r < c.NumRanks() && r != v.cur.rank && r != u.cur.rank ==> NoneQueued(c, x.queue.queues[r])
  }

  ghost predicate Scene(c: Config, x: Control, v: Visit, u: Visit) {
    && Fits(c, x) && Disjoint(c, v, u) && !x.queue.refreshWaiting
    && VisitAt(c, x, v) && VisitAt(c, x, u) && OthersEmpty(c, x, v, u)
  }

  // What the host asks for in cycle t.
  function Asked(v: Visit, u: Visit, t: nat): seq<Transaction> {
    if t == v.entry then [v.transaction] else if t == u.entry then [u.transaction] else []
  }

  function SentBy(c: Config, v: Visit, u: Visit, t: nat): Option<BusPacket> {
    if SentIn(c, v, t).Some? then SentIn(c, v, t) else SentIn(c, u, t)
  }

  lemma AllOthersBlocked(c: Config, x: Control, v: Visit, u: Visit, cur: Cursor)
    requires c.Valid() && Scene(c, x, v, u) && InGrid(c, cur)
    requires cur.rank == v.cur.rank ==> SentIn(c, v, x.clock) == None
    requires cur.rank == u.cur.rank ==> SentIn(c, u, x.clock) == None
    ensures Blocked(c, x.clock, AgeAll(c, x.banks), AgeWindows(x.queue), cur)
  {
    hide VisitAt, SentIn, Blocked, AgeAll, AgeWindow, NoneQueued;
    if cur.rank == v.cur.rank {
      VisitBlocks(c, x, v);
    } else if cur.rank == u.cur.rank {
      VisitBlocks(c, x, u);
    } else {
      NoneQueuedBlocks(c, x, cur.rank);
    }
    assert RankBlocked(c, x.clock, AgeAll(c, x.banks), AgeWindows(x.queue), cur.rank);
    assert Cursor(cur.rank, cur.bank) == cur;
  }

  // The queues after the pop of a cycle in which the visit a, one of the two, sends.
  lemma PopSends(c: Config, x: Control, v: Visit, u: Visit, a: Visit)
    requires c.Valid() && Scene(c, x, v, u) && (a == v || a == u) && SentIn(c, a, x.clock).Some?
    requires a == v ==> SentIn(c, u, x.clock) == None
    requires a == u ==> SentIn(c, v, x.clock) == None
    ensures var (q, p) := PopSpec(c, x.clock, AgeAll(c, x.banks), x.queue);
      && p == SentIn(c, a, x.clock) && !q.refreshWaiting && PopMild(c, x.queue, q, p)
      && q.queues == Put(x.queue.queues, a.cur.rank, Slot(c, a.cur.bank), QueueAt(c, x.queue, a.cur)[1..])
  {
    hide VisitAt, SentIn, Blocked, AgeAll, AgeWindow, NoneQueued, Issuable, PopSpec, Put, PopMild, OthersEmpty,
         ColumnOf, Target, ActOf, QueueAt, CommandFor, TableOf;
    VisitSends(c, x, a);
    forall other | InGrid(c, other) && !SameQueue(c, other, a.cur)
      ensures Blocked(c, x.clock, AgeAll(c, x.banks), AgeWindows(x.queue), other)
    {
      if other.rank == a.cur.rank {
        assert Cursor(a.cur.rank, other.bank) == other;
      } else {
        AllOthersBlocked(c, x, v, u, other);
      }
    }
    SendsFront(c, x.clock, AgeAll(c, x.banks), x.queue, a.cur);
    FrontIsMild(c, x.clock, AgeAll(c, x.banks), x.queue, a.cur);
  }

  // A visit that is not over keeps its rank's rows from being closed.
  lemma VisitNotClosable(c: Config, x: Control, v: Visit, b: nat)
    requires c.Valid() && Fits(c, x) && Planned(c, v) && InGrid(c, v.cur) && VisitAt(c, x, v) && b < c.NumBanks()
    requires x.clock <= ColumnCycle(c, v)
    ensures !Closable(c, x.clock, AgeAll(c, x.banks), AgeWindows(x.queue), Cursor(v.cur.rank, b))
  {
    hide Closable, AgeAll, AgeWindow, Resting, Coming, Opened;
    NotClosable(c, x, v, b);
  }

  lemma PopQuiet(c: Config, x: Control, v: Visit, u: Visit)
    requires c.Valid() && Scene(c, x, v, u) && SentIn(c, v, x.clock) == None && SentIn(c, u, x.clock) == None
    ensures var (q, p) := PopSpec(c, x.clock, AgeAll(c, x.banks), x.queue);
      && !q.refreshWaiting && PopMild(c, x.queue, q, p) && q.queues == x.queue.queues && Opening(p)
      && (x.clock <= ColumnCycle(c, v) ==> Foreign(p, v.cur.rank))
      && (x.clock <= ColumnCycle(c, u) ==> Foreign(p, u.cur.rank))
  {
    hide VisitAt, SentIn, Blocked, AgeAll, AgeWindow, NoneQueued, PopSpec, PopMild, OthersEmpty, Closable, ColumnCycle;
    forall cur | InGrid(c, cur) ensures Blocked(c, x.clock, AgeAll(c, x.banks), AgeWindows(x.queue), cur) {
      AllOthersBlocked(c, x, v, u, cur);
    }
    SendsNoQueued(c, x.clock, AgeAll(c, x.banks), x.queue);
    NoneIsMild(c, x.clock, AgeAll(c, x.banks), x.queue);
    var p := PopSpec(c, x.clock, AgeAll(c, x.banks), x.queue).1;
    if p.Some? && x.clock <= ColumnCycle(c, v) && p.value.rank == v.cur.rank {
      VisitNotClosable(c, x, v, p.value.bank);
    }
    if p.Some? && x.clock <= ColumnCycle(c, u) && p.value.rank == u.cur.rank {
      VisitNotClosable(c, x, u, p.value.bank);
    }
  }

  // ---- The queues after a whole cycle ----

  // The rank of a visit after one of its packets was sent.
  lemma SlotsAfterSend(c: Config, x: Control, v: Visit, queues: seq<seq<seq<BusPacket>>>)
    requires c.Valid() && Fits(c, x) && Planned(c, v) && InGrid(c, v.cur) && VisitAt(c, x, v)
    requires SentIn(c, v, x.clock).Some? && v.act < ColumnCycle(c, v)
    requires queues == Put(x.queue.queues, v.cur.rank, Slot(c, v.cur.bank), QueueAt(c, x.queue, v.cur)[1..])
    ensures SlotsFollow(c, x.clock, x.queue.queues[v.cur.rank], queues[v.cur.rank], v)
  {
    hide Resting, Target, QueueAt, CommandFor, TableOf, TableShape;
    VisitSends(c, x, v);
    hide ActOf, ColumnOf, Blocked, Issuable, AgeAll, AgeWindows, Unused;
  }

  lemma EntersEmpty(c: Config, x: Control, v: Visit)
    requires Fits(c, x) && Planned(c, v) && InGrid(c, v.cur) && VisitAt(c, x, v) && x.clock == v.entry
    ensures NoneQueued(c, x.queue.queues[v.cur.rank])
  {
    hide ActOf, ColumnOf, Unused;
  }

  // A transaction that enters: only its own queue changes.
  lemma EntryOf(c: Config, q: QueueState, v: Visit)
    requires c.Valid() && Shape(c, q) && Planned(c, v) && InGrid(c, v.cur) && NoneQueued(c, q.queues[v.cur.rank])
    ensures var (q', trs) := ExpandOne(c, q, [v.transaction]);
      && trs == [] && q' == q.(queues := q'.queues)
      && OnlyQueued(c, q'.queues[v.cur.rank], v.cur.bank, [ActOf(c, v), ColumnOf(c, v)])
      && forall r :: 0 <= r < c.NumRanks() && r != v.cur.rank ==> q'.queues[r] == q.queues[r]
  {
    hide ExpandOne, CommandFor, CommandKind, Target;
    ExpandsOne(c, q, v.transaction);
  }

  // The queues of all ranks after the expansion of cycle t, in which `sender`, if any, has
  // sent.
  ghost predicate QueuesFollow(c: Config, x: Control, q': QueueState, v: Visit, u: Visit)
    requires Fits(c, x) && Shape(c, q') && InGrid(c, v.cur) && InGrid(c, u.cur)
  {
    && SlotsFollow(c, x.clock, x.queue.queues[v.cur.rank], q'.queues[v.cur.rank], v)
    && SlotsFollow(c, x.clock, x.queue.queues[u.cur.rank], q'.queues[u.cur.rank], u)
    && forall r :: 0 <= r < c.NumRanks() && r != v.cur.rank && r != u.cur.rank ==> q'.queues[r] == x.queue.queues[r]
  }

  // The same for queues right after the pop.
  ghost predicate Popped(c: Config, x: Control, q: QueueState, v: Visit, u: Visit)
    requires Fits(c, x) && Shape(c, q) && InGrid(c, v.cur) && InGrid(c, u.cur)
  {
    && (if SentIn(c, v, x.clock).Some? then SlotsFollow(c, x.clock, x.queue.queues[v.cur.rank], q.queues[v.cur.rank], v)
        else q.queues[v.cur.rank] == x.queue.queues[v.cur.rank])
    && (if SentIn(c, u, x.clock).Some? then SlotsFollow(c, x.clock, x.queue.queues[u.cur.rank], q.queues[u.cur.rank], u)
        else q.queues[u.cur.rank] == x.queue.queues[u.cur.rank])
    && forall r :: 0 <= r < c.NumRanks() && r != v.cur.rank && r != u.cur.rank ==> q.queues[r] == x.queue.queues[r]
  }

  lemma PoppedSends(c: Config, x: Control, v: Visit, u: Visit, a: Visit, q: QueueState)
    requires c.Valid() && Scene(c, x, v, u) && (a == v || a == u) && SentIn(c, a, x.clock).Some? && Shape(c, q)
    requires a == v ==> SentIn(c, u, x.clock) == None
    requires a == u ==> SentIn(c, v, x.clock) == None
    requires q.queues == Put(x.queue.queues, a.cur.rank, Slot(c, a.cur.bank), QueueAt(c, x.queue, a.cur)[1..])
    ensures Popped(c, x, q, v, u)
  {
    hide PopSpec, Opened, Coming, WellFormed, ViewOf, Resting, ColumnOf, Target, Fits;
    SlotsAfterSend(c, x, a, q.queues);
    hide VisitAt, SentIn, SlotsFollow, OthersEmpty;
  }

  // What the pop of a cycle sends and leaves.
  lemma PopOf(c: Config, x: Control, v: Visit, u: Visit)
    requires c.Valid() && Scene(c, x, v, u)
    ensures var (q, p) := PopSpec(c, x.clock, AgeAll(c, x.banks), x.queue);
      && !q.refreshWaiting && PopMild(c, x.queue, q, p) && Popped(c, x, q, v, u)
      && (if SentBy(c, v, u, x.clock).Some? then p == SentBy(c, v, u, x.clock)
          else Opening(p) && (x.clock <= ColumnCycle(c, v) ==> Foreign(p, v.cur.rank))
                          && (x.clock <= ColumnCycle(c, u) ==> Foreign(p, u.cur.rank)))
  {
    hide ScanQueues, ScanBanks, WellFormed, Issuable, Finish, ColumnOf, Planned, Target, FirstTo;
    SentOnce(c, v, u, x.clock);
    hide VisitAt, SentIn, AgeAll, PopSpec, PopMild, OthersEmpty, ColumnCycle, Disjoint, SlotsFollow;
    var q := PopSpec(c, x.clock, AgeAll(c, x.banks), x.queue).0;
    if SentIn(c, v, x.clock).Some? {
      PopSends(c, x, v, u, v);
      PoppedSends(c, x, v, u, v, q);
    } else if SentIn(c, u, x.clock).Some? {
      PopSends(c, x, v, u, u);
      PoppedSends(c, x, v, u, u, q);
    } else {
      PopQuiet(c, x, v, u);
    }
  }

  lemma SentOnce(c: Config, v: Visit, u: Visit, t: nat)
    requires Disjoint(c, v, u)
    ensures SentIn(c, v, t) == None || SentIn(c, u, t) == None
  {
  }

  // Queues after the expansion.
  lemma ExpandOf(c: Config, x: Control, q: QueueState, v: Visit, u: Visit)
    requires c.Valid() && Scene(c, x, v, u) && Shape(c, q) && Popped(c, x, q, v, u)
    ensures var (q', trs) := ExpandOne(c, q, Asked(v, u, x.clock));
      trs == [] && q' == q.(queues := q'.queues) && QueuesFollow(c, x, q', v, u)
  {
    hide ExpandOne, VisitAt, OthersEmpty, ActOf, ColumnOf, NoneQueued, OnlyQueued, PopSpec, WellFormed, Target, Fits,
         CommandFor, Shape, TableOf, TableShape;
    var t := x.clock;
    if t == v.entry {
      EntersEmpty(c, x, v);
      EntryOf(c, q, v);
    } else if t == u.entry {
      EntersEmpty(c, x, u);
      EntryOf(c, q, u);
    } else {
      ExpandNone(c, q);
    }
  }

  // ---- One cycle of the scene ----

  lemma SceneStep(c: Config, x: Control, v: Visit, u: Visit)
    requires c.Valid() && Scene(c, x, v, u)
    ensures var (x', p) := Next(c, x.(transactions := Asked(v, u, x.clock)));
      && Scene(c, x', v, u) && x'.clock == x.clock + 1 && x'.transactions == []
      && (SentBy(c, v, u, x.clock).Some? ==> p == SentBy(c, v, u, x.clock))
  {
    hide Issue, WellFormed, SentBy, ViewOf, ColumnOf, Planned, Target, ActOf, CommandFor;
    var y := x.(transactions := Asked(v, u, x.clock));
    hide VisitAt, SentIn, AgeAll, PopSpec, PopMild, ColumnCycle, ExpandOne, PowerAll, IssueAll, Moves, SlotsFollow,
         Popped, QueuesFollow, OthersEmpty, Asked;
    PopOf(c, x, v, u);
    var (q, p) := PopSpec(c, x.clock, AgeAll(c, x.banks), x.queue);
    ExpandOf(c, x, q, v, u);
    var x' := Next(c, y).0;
    RankMoves(c, y, v.cur.rank);
    RankMoves(c, y, u.cur.rank);
    SentOnce(c, v, u, x.clock);
    SceneFollows(c, x, y, x', p, v, u);
  }

  lemma SceneFollows(c: Config, x: Control, y: Control, x': Control, p: Option<BusPacket>, v: Visit, u: Visit)
    requires c.Valid() && Scene(c, x, v, u) && y == x.(transactions := y.transactions)
    requires Fits(c, x') && x'.clock == x.clock + 1 && !x'.queue.refreshWaiting && QueuesFollow(c, x, x'.queue, v, u)
    requires Moves(c, x.clock, v.cur.rank, ViewOf(c, y, v.cur.rank), ViewOf(c, x', v.cur.rank), p)
    requires Moves(c, x.clock, u.cur.rank, ViewOf(c, y, u.cur.rank), ViewOf(c, x', u.cur.rank), p)
    requires if SentBy(c, v, u, x.clock).Some? then p == SentBy(c, v, u, x.clock)
             else Opening(p) && (x.clock <= ColumnCycle(c, v) ==> Foreign(p, v.cur.rank))
                             && (x.clock <= ColumnCycle(c, u) ==> Foreign(p, u.cur.rank))
    ensures Scene(c, x', v, u)
  {
    SentForeign(c, v, u, x.clock);
    hide VisitAt, Moves, SlotsFollow, ActOf, ColumnOf, Opening, Foreign, ColumnCycle;
    assert ViewOf(c, y, v.cur.rank) == ViewOf(c, x, v.cur.rank) && ViewOf(c, y, u.cur.rank) == ViewOf(c, x, u.cur.rank);
    VisitAdvances(c, x, x', v, p);
    VisitAdvances(c, x, x', u, p);
  }

  // What one visit sends leaves the other alone.
  lemma SentForeign(c: Config, v: Visit, u: Visit, t: nat)
    requires Disjoint(c, v, u)
    ensures SentIn(c, v, t) == None || SentIn(c, u, t) == None
    ensures SentIn(c, v, t).Some? ==> Foreign(SentIn(c, v, t), u.cur.rank) && t <= u.act
    ensures SentIn(c, u, t).Some? ==> Foreign(SentIn(c, u, t), v.cur.rank) && t > ColumnCycle(c, v)
  {
    PacketsOf(c, v);
    PacketsOf(c, u);
    hide ActOf, ColumnOf;
  }
}
