// The four-activation window: the counters of a rank are exactly its activations of
// the last tFAW cycles, so five activations always span at least tFAW cycles.
module ActivationWindow {
  import opened Wrappers
  import opened SystemConfiguration
  import opened BankState
  import opened Scheduler
  import opened Channel
  import opened ChannelSafety
  import opened OneCycle
  import opened Runs

  // Cycle i activated a bank of rank r.
  predicate Activated(issued: seq<Option<BusPacket>>, i: int, r: nat) {
    0 <= i < |issued| && issued[i].Some? && issued[i].value.kind == ACTIVATE && issued[i].value.rank == r
  }

  // The activations of rank r that are still inside the window in cycle e, oldest
  // first, each as the number of cycles it has left.
  function Recent(c: Config, r: nat, issued: seq<Option<BusPacket>>, e: int): seq<nat> {
    if issued == [] then []
    else
      var i := |issued| - 1;
      Recent(c, r, issued[..i], e)
      + if Activated(issued, i, r) && i + c.tFAW > e then [i + c.tFAW - e] else []
  }

  // Activations of rank r in cycle lo or later.
  function Activations(r: nat, issued: seq<Option<BusPacket>>, lo: int): nat {
    if issued == [] then 0
    else
      var i := |issued| - 1;
      Activations(r, issued[..i], lo) + if Activated(issued, i, r) && i >= lo then 1 else 0
  }

  ghost predicate Windows(c: Config, ws: seq<seq<nat>>, issued: seq<Option<BusPacket>>, e: int) {
    forall r :: 0 <= r < |ws| ==> ws[r] == Recent(c, r, issued, e)
  }

  // Any five activations of one rank span at least tFAW cycles.
  ghost predicate FiveSpan(c: Config, issued: seq<Option<BusPacket>>) {
    forall r: nat, i1, i2, i3, i4, i5 ::
      i1 < i2 < i3 < i4 < i5
      && Activated(issued, i1, r) && Activated(issued, i2, r) && Activated(issued, i3, r)
      && Activated(issued, i4, r) && Activated(issued, i5, r)
      ==> i5 - i1 >= c.tFAW
  }

  lemma {:induction false} RecentBounds(c: Config, r: nat, issued: seq<Option<BusPacket>>, e: int)
    ensures forall k :: 0 <= k < |Recent(c, r, issued, e)| ==> 1 <= Recent(c, r, issued, e)[k] <= |issued| - 1 + c.tFAW - e
    ensures |Recent(c, r, issued, e)| == Activations(r, issued, e - c.tFAW + 1)
  {
    if issued != [] {
      RecentBounds(c, r, issued[..|issued| - 1], e);
    }
  }

  // Only the oldest counter can reach zero.
  lemma AgeAppend(w: seq<nat>, v: nat)
    requires v >= 1 && (w == [] || v >= 2) && forall k :: 0 <= k < |w| ==> w[k] >= 1
    ensures AgeWindow(w + [v]) == AgeWindow(w) + if v == 1 then [] else [v - 1]
  {
    var down := seq(|w|, i requires 0 <= i < |w| => Dec32(w[i]));
    assert seq(|w + [v]|, i requires 0 <= i < |w + [v]| => Dec32((w + [v])[i])) == down + [Dec32(v)];
  }

  lemma {:induction false} AgedWindow(c: Config, r: nat, issued: seq<Option<BusPacket>>, e: int)
    ensures AgeWindow(Recent(c, r, issued, e)) == Recent(c, r, issued, e + 1)
  {
    if issued == [] {
      assert AgeWindow([]) == [];
    } else {
      var i := |issued| - 1;
      AgedWindow(c, r, issued[..i], e);
      RecentBounds(c, r, issued[..i], e);
      if Activated(issued, i, r) && i + c.tFAW > e {
        AgeAppend(Recent(c, r, issued[..i], e), i + c.tFAW - e);
      } else {
        assert Recent(c, r, issued, e) == Recent(c, r, issued[..i], e);
      }
    }
  }

  // One more activation counts once.
  lemma {:induction false} OneMoreActivation(r: nat, issued: seq<Option<BusPacket>>, lo: int, i: int)
    requires Activated(issued, i, r) && i >= lo
    ensures Activations(r, issued, lo) >= Activations(r, issued[..i], lo) + 1
  {
    var n := |issued| - 1;
    if i < n {
      assert issued[..n][..i] == issued[..i];
      OneMoreActivation(r, issued[..n], lo, i);
    }
  }

  // With room in the window a fifth activation is far from the first.
  lemma FifthIsFar(c: Config, r: nat, issued: seq<Option<BusPacket>>, i1: int, i2: int, i3: int, i4: int)
    requires |Recent(c, r, issued, |issued|)| < 4
    requires i1 < i2 < i3 < i4
    requires Activated(issued, i1, r) && Activated(issued, i2, r) && Activated(issued, i3, r) && Activated(issued, i4, r)
    ensures |issued| - i1 >= c.tFAW
  {
    var lo := |issued| - c.tFAW + 1;
    RecentBounds(c, r, issued, |issued|);
    if i1 >= lo {
      OneMoreActivation(r, issued, lo, i4);
      assert issued[..i4][..i3] == issued[..i3] && issued[..i3][..i2] == issued[..i2] && issued[..i2][..i1] == issued[..i1];
      OneMoreActivation(r, issued[..i4], lo, i3);
      OneMoreActivation(r, issued[..i3], lo, i2);
      OneMoreActivation(r, issued[..i2], lo, i1);
    }
  }

  lemma GrownWindow(c: Config, r: nat, issued: seq<Option<BusPacket>>, x: Option<BusPacket>)
    requires c.tFAW >= 1
    ensures Recent(c, r, issued + [x], |issued|)
         == Recent(c, r, issued, |issued|)
            + if x.Some? && x.value.kind == ACTIVATE && x.value.rank == r then [c.tFAW] else []
  {
    assert (issued + [x])[..|issued|] == issued;
  }

  lemma EarlierActivation(issued: seq<Option<BusPacket>>, x: Option<BusPacket>, i: int, r: nat)
    requires Activated(issued + [x], i, r)
    ensures i <= |issued| && (i < |issued| ==> Activated(issued, i, r))
  {
  }

  lemma LastActivation(issued: seq<Option<BusPacket>>, x: Option<BusPacket>, r: nat)
    requires Activated(issued + [x], |issued|, r)
    ensures x.Some? && x.value.kind == ACTIVATE && x.value.rank == r
  {
  }

  lemma FiveApart(c: Config, ws: seq<seq<nat>>, issued: seq<Option<BusPacket>>, x: Option<BusPacket>, r: nat, i1: int, i2: int,
                  i3: int, i4: int, i5: int)
    requires FiveSpan(c, issued) && Windows(c, ws, issued, |issued|) && i1 < i2 < i3 < i4 < i5
    requires x.Some? && x.value.kind == ACTIVATE ==> x.value.rank < |ws| && |ws[x.value.rank]| < 4
    requires Activated(issued + [x], i1, r) && Activated(issued + [x], i2, r) && Activated(issued + [x], i3, r)
    requires Activated(issued + [x], i4, r) && Activated(issued + [x], i5, r)
    ensures i5 - i1 >= c.tFAW
  {
    EarlierActivation(issued, x, i1, r);
    EarlierActivation(issued, x, i2, r);
    EarlierActivation(issued, x, i3, r);
    EarlierActivation(issued, x, i4, r);
    EarlierActivation(issued, x, i5, r);
    hide Activated;
    if i5 == |issued| {
      LastActivation(issued, x, r);
      FifthIsFar(c, r, issued, i1, i2, i3, i4);
    }
  }

  lemma GrownSpan(c: Config, ws: seq<seq<nat>>, issued: seq<Option<BusPacket>>, x: Option<BusPacket>)
    requires FiveSpan(c, issued) && Windows(c, ws, issued, |issued|)
    requires x.Some? && x.value.kind == ACTIVATE ==> x.value.rank < |ws| && |ws[x.value.rank]| < 4
    ensures FiveSpan(c, issued + [x])
  {
    hide Activated, Windows;
    var more := issued + [x];
    forall r: nat, i1, i2, i3, i4, i5 |
      i1 < i2 < i3 < i4 < i5
      && Activated(more, i1, r) && Activated(more, i2, r) && Activated(more, i3, r)
      && Activated(more, i4, r) && Activated(more, i5, r)
      ensures i5 - i1 >= c.tFAW
    {
      FiveApart(c, ws, issued, x, r, i1, i2, i3, i4, i5);
    }
  }

  // ---- The scheduler and the windows ----

  lemma ChooseKeepsWindows(c: Config, t: int, banks: BankTable, q: QueueState)
    requires TableShape(c, banks) && Shape(c, q)
    ensures var (q', p) := Choose(c, t, banks, q);
      && q'.tFAWCountdown == q.tFAWCountdown
      && (p.Some? && p.value.kind == ACTIVATE ==> |q.tFAWCountdown[p.value.rank]| < 4)
  {
    hide FirstReady, Ready, FirstClosable, FirstEligible, Eligible, TakeFrom, Closable, QueueAt, Shape;
    RefreshWorkKeepsWindows(c, t, banks, q);
    hide RefreshWork;
    ScanQueuesKeepsWindows(c, t, banks, RefreshWork(c, t, banks, q).0);
  }

  lemma RefreshWorkKeepsWindows(c: Config, t: int, banks: BankTable, q: QueueState)
    requires TableShape(c, banks) && Shape(c, q)
    ensures var (q', p) := RefreshWork(c, t, banks, q);
      && q'.tFAWCountdown == q.tFAWCountdown && (p.Some? ==> p.value.kind != ACTIVATE)
  {
    hide Issuable;
  }

  lemma ScanQueuesKeepsWindows(c: Config, t: int, banks: BankTable, q: QueueState)
    requires TableShape(c, banks) && Shape(c, q)
    ensures var (q', p) := ScanQueues(c, t, banks, q);
      && q'.tFAWCountdown == q.tFAWCountdown
      && (p.Some? && p.value.kind == ACTIVATE ==> |q.tFAWCountdown[p.value.rank]| < 4)
  {
    hide FirstReady, QueueAt, AdvanceQueue, Put, TableOf, TableShape, EarlierColumn;
    var k := FirstReady(c, t, banks, q);
    if k < Lap(c) {
      var cur := AdvanceQueue(c, q.next, k);
      assert Eligible(c, t, banks, q, QueueAt(c, q, cur), FirstEligible(c, t, banks, q, QueueAt(c, q, cur)));
    }
  }

  // What pop does to the windows.
  lemma PoppedWindows(c: Config, t: int, banks: BankTable, q: QueueState)
    requires TableShape(c, banks) && Shape(c, q)
    ensures var aged := AgeWindows(q).tFAWCountdown;
      var (q', p) := PopSpec(c, t, banks, q);
      if p.Some? && p.value.kind == ACTIVATE then
        |aged[p.value.rank]| < 4
        && q'.tFAWCountdown == aged[p.value.rank := aged[p.value.rank] + [c.tFAW]]
      else q'.tFAWCountdown == aged
  {
    hide Choose, AgeWindow;
    ChooseKeepsWindows(c, t, banks, AgeWindows(q));
  }

  ghost predicate WindowHistory(c: Config, ws: seq<seq<nat>>, issued: seq<Option<BusPacket>>) {
    |ws| == c.NumRanks() && Windows(c, ws, issued, |issued| - 1) && FiveSpan(c, issued)
  }

  lemma UpdateKeepsWindows(c: Config, s: ChannelState)
    requires c.Valid() && WellFormed(c, s) && Safe(c, s) && Update(c, s).Ok?
    requires WindowHistory(c, s.mc.queue.tFAWCountdown, s.mc.issued)
    ensures var m' := Update(c, s).value.mc; WindowHistory(c, m'.queue.tFAWCountdown, m'.issued)
  {
    hide Safe, Update, PopState, PopSpec, PoweredTable, Expanded, FiveSpan, Recent, AgeWindow, AtDataBus, Issue,
         Target, QueueAt, CommandFor, Shape, IssueWrite, IssueRead, AgeAll;
    CycleShape(c, s);
    PopStateIs(c, s);
    var m := PopState(c, s).value.mc;
    var m' := Update(c, s).value.mc;
    PoppedWindows(c, s.clock, m.banks, m.queue);
    WindowStep(c, m.queue.tFAWCountdown, AgeWindows(m.queue).tFAWCountdown, m'.queue.tFAWCountdown, m.issued,
               PopSpec(c, s.clock, m.banks, m.queue).1);
  }

  lemma WindowStep(c: Config, ws: seq<seq<nat>>, aged: seq<seq<nat>>, ws': seq<seq<nat>>,
                   issued: seq<Option<BusPacket>>, x: Option<BusPacket>)
    requires c.Valid() && WindowHistory(c, ws, issued)
    requires |aged| == |ws| && forall r :: 0 <= r < |ws| ==> aged[r] == AgeWindow(ws[r])
    requires if x.Some? && x.value.kind == ACTIVATE then
        x.value.rank < |ws| && |aged[x.value.rank]| < 4
        && ws' == aged[x.value.rank := aged[x.value.rank] + [c.tFAW]]
      else ws' == aged
    ensures WindowHistory(c, ws', issued + [x])
  {
    hide FiveSpan, Recent, AgeWindow;
    forall r | 0 <= r < |ws|
      ensures aged[r] == Recent(c, r, issued, |issued|)
      ensures ws'[r] == Recent(c, r, issued + [x], |issued|)
    {
      AgedWindow(c, r, issued, |issued| - 1);
      GrownWindow(c, r, issued, x);
    }
    GrownSpan(c, aged, issued, x);
  }

  lemma InitialWindows(c: Config)
    ensures WindowHistory(c, Initial(c).mc.queue.tFAWCountdown, Initial(c).mc.issued)
  {
    hide EmptyQueues, Staggered, Share, Shape, TableShape;
  }

  // In every run the counters are the recent activations, and five activations of a
  // rank span at least tFAW cycles.
  lemma EveryRunKeepsWindow(c: Config, requests: seq<seq<Transaction>>)
    requires c.Valid()
    ensures Run(c, Initial(c), requests).Ok? ==>
      var m := Run(c, Initial(c), requests).value.mc;
      Windows(c, m.queue.tFAWCountdown, m.issued, |m.issued| - 1) && FiveSpan(c, m.issued)
  {
    hide Safe, Run, Initial, Update, FiveSpan, Windows, WellFormed;
    if Run(c, Initial(c), requests).Ok? {
      InitialWindows(c);
      var inv := (s: ChannelState) => WindowHistory(c, s.mc.queue.tFAWCountdown, s.mc.issued);
      forall s, s' | Cycle(c, s, s') && inv(s) ensures inv(s') {
        UpdateKeepsWindows(c, s);
      }
      RunKeeps(c, inv, requests);
    }
  }
}
