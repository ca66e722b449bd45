// The clock-domain crosser: a counter per domain, both set back whenever they meet.
module ClockDomains {

  function Times(k: nat, d: nat): nat {
    k * d
  }

  lemma TimesNext(k: nat, d: nat)
    ensures Times(k + 1, d) == Times(k, d) + d
  {
  }

  lemma TimesMonotone(j: nat, k: nat, d: nat)
    requires j <= k
    ensures Times(j, d) <= Times(k, d)
    decreases k
  {
    if j < k {
      TimesMonotone(j, k - 1, d);
      TimesNext(k - 1, d);
    }
  }

  // The least number of ticks of clock2 that reach n ticks of clock1: n * clock1 / clock2,
  // rounded up.
  function CallsAfter(clock1: nat, clock2: nat, n: nat): nat
    requires clock2 > 0
  {
    (Times(n, clock1) + clock2 - 1) / clock2
  }

  lemma LeastReaching(clock1: nat, clock2: nat, n: nat, m: nat)
    requires clock2 > 0
    ensures m == CallsAfter(clock1, clock2, n) <==> 0 <= Times(m, clock2) - Times(n, clock1) < clock2
  {
    var x, calls := Times(n, clock1), CallsAfter(clock1, clock2, n);
    Parts(x + clock2 - 1, clock2);
    hide CallsAfter, Times;
    if m < calls {
      TimesMonotone(m + 1, calls, clock2);
      TimesNext(m, clock2);
    } else if m > calls {
      TimesMonotone(calls + 1, m, clock2);
      TimesNext(calls, clock2);
    }
  }

  lemma Parts(x: nat, d: nat)
    requires d > 0
    ensures 0 <= x - Times(x / d, d) < d
  {
    assert x == d * (x / d) + x % d;
  }

  // The crossing never drifts: any clock2 updates in a row fire exactly clock1 callbacks.
  lemma RateIsExact(clock1: nat, clock2: nat, n: nat)
    requires clock2 > 0
    ensures CallsAfter(clock1, clock2, n + clock2) == CallsAfter(clock1, clock2, n) + clock1
  {
    var m := CallsAfter(clock1, clock2, n);
    LeastReaching(clock1, clock2, n, m);
    assert Times(m + clock1, clock2) - Times(n + clock2, clock1) == Times(m, clock2) - Times(n, clock1);
    LeastReaching(clock1, clock2, n + clock2, m + clock1);
  }

  ghost predicate CommonMultiple(l: nat, a: nat, b: nat) {
    l > 0 && (exists i: nat :: Times(i, a) == l) && exists j: nat :: Times(j, b) == l
  }

  // Below a multiple of d, the next multiple still is at most it.
  lemma NextMultiple(k: nat, d: nat, j: nat)
    requires Times(k, d) < Times(j, d)
    ensures Times(k + 1, d) == Times(k, d) + d <= Times(j, d)
  {
    if k >= j {
      TimesMonotone(j, k, d);
      assert false;
    }
    TimesMonotone(k + 1, j, d);
    TimesNext(k, d);
  }

  // Both counters are multiples of their clocks that no common multiple lies below.
  ghost predicate Bounded(clock1: nat, clock2: nat, counter1: nat, counter2: nat) {
    forall l: nat :: CommonMultiple(l, clock1, clock2) ==> counter1 <= l && counter2 <= l
  }

  lemma FirstAdvances(clock1: nat, clock2: nat, k: nat, counter2: nat)
    requires Bounded(clock1, clock2, Times(k, clock1), counter2)
    requires forall l: nat :: CommonMultiple(l, clock1, clock2) ==> Times(k, clock1) < l
    ensures Bounded(clock1, clock2, Times(k, clock1) + clock1, counter2) && Times(k + 1, clock1) == Times(k, clock1) + clock1
  {
    forall l: nat | CommonMultiple(l, clock1, clock2) ensures Times(k, clock1) + clock1 <= l {
      var j: nat :| Times(j, clock1) == l;
      NextMultiple(k, clock1, j);
    }
  }

  lemma SecondAdvances(clock1: nat, clock2: nat, counter1: nat, k: nat)
    requires Bounded(clock1, clock2, counter1, Times(k, clock2)) && Times(k, clock2) < counter1
    ensures Bounded(clock1, clock2, counter1, Times(k, clock2) + clock2) && Times(k + 1, clock2) == Times(k, clock2) + clock2
  {
    forall l: nat | CommonMultiple(l, clock1, clock2) ensures Times(k, clock2) + clock2 <= l {
      var j: nat :| Times(j, clock2) == l;
      NextMultiple(k, clock2, j);
    }
  }

  // Counters that stay apart stay below every common multiple.
  lemma ApartIsBelow(clock1: nat, clock2: nat, i: nat, j: nat)
    requires Bounded(clock1, clock2, Times(i, clock1), Times(j, clock2)) && Times(i, clock1) < Times(j, clock2)
    ensures forall l: nat :: CommonMultiple(l, clock1, clock2) ==> Times(i, clock1) < l
  {
  }

  class ClockDomainCrosser {
    const clock1: nat
    const clock2: nat
    const hasCallback: bool
    var counter1: nat
    var counter2: nat
    // Updates and callbacks so far, and those since the counters were last set back.
    ghost var updates: nat
    ghost var ticks: nat
    ghost var sinceUpdates: nat
    ghost var sinceTicks: nat

    ghost predicate Valid()
      reads this
    {
      && clock2 > 0
      && ticks == CallsAfter(clock1, clock2, updates)
      && counter2 - counter1 == Times(ticks, clock2) - Times(updates, clock1)
      && counter1 == Times(sinceUpdates, clock1) && counter2 == Times(sinceTicks, clock2)
      && Bounded(clock1, clock2, counter1, counter2)
      && forall l: nat :: CommonMultiple(l, clock1, clock2) ==> counter1 < l
    }

    constructor (clock1: nat, clock2: nat, hasCallback: bool)
      requires clock2 > 0
      ensures Valid() && updates == 0
      ensures this.clock1 == clock1 && this.clock2 == clock2 && this.hasCallback == hasCallback
    {
      this.clock1, this.clock2, this.hasCallback := clock1, clock2, hasCallback;
      counter1, counter2, updates, ticks, sinceUpdates, sinceTicks := 0, 0, 0, 0, 0, 0;
      new;
      LeastReaching(clock1, clock2, 0, 0);
    }

    // One tick of the first clock; `calls` counts how often the callback is called.
    method Update() returns (calls: nat)
      requires Valid()
      modifies this
      ensures Valid() && updates == old(updates) + 1
      ensures calls == if hasCallback
                       then CallsAfter(clock1, clock2, updates) - CallsAfter(clock1, clock2, old(updates)) else 0
    {
      hide Times, CommonMultiple, Bounded, CallsAfter;
      calls := 0;
      LeastReaching(clock1, clock2, updates, ticks);
      updates := updates + 1;
      TimesNext(old(updates), clock1);
      ghost var before := ticks;
      if clock1 == clock2 && hasCallback {
        calls := 1;
        TimesNext(ticks, clock2);
        ticks := ticks + 1;
        LeastReaching(clock1, clock2, updates, ticks);
        return;
      }
      FirstAdvances(clock1, clock2, sinceUpdates, counter2);
      counter1 := counter1 + clock1;
      sinceUpdates := sinceUpdates + 1;
      while counter2 < counter1
        invariant updates == old(updates) + 1
        invariant counter2 - counter1 == Times(ticks, clock2) - Times(updates, clock1) < clock2
        invariant counter1 == Times(sinceUpdates, clock1) && counter2 == Times(sinceTicks, clock2)
        invariant Bounded(clock1, clock2, counter1, counter2)
        invariant ticks >= before && calls == (if hasCallback then ticks - before else 0)
        decreases counter1 - counter2
      {
        SecondAdvances(clock1, clock2, counter1, sinceTicks);
        counter2 := counter2 + clock2;
        sinceTicks := sinceTicks + 1;
        TimesNext(ticks, clock2);
        ticks := ticks + 1;
        if hasCallback {
          calls := calls + 1;
        }
      }
      LeastReaching(clock1, clock2, updates, ticks);
      if counter1 == counter2 {
        SetBack(clock1, clock2);
        counter1, counter2, sinceUpdates, sinceTicks := 0, 0, 0, 0;
      } else {
        ApartIsBelow(clock1, clock2, sinceUpdates, sinceTicks);
      }
    }
  }

  lemma SetBack(clock1: nat, clock2: nat)
    ensures Bounded(clock1, clock2, 0, 0) && Times(0, clock1) == Times(0, clock2) == 0
    ensures forall l: nat :: CommonMultiple(l, clock1, clock2) ==> 0 < l
  {
  }
}
