// A whole cache as one list of lines per set: sets run alone, and no store is lost.
module CacheRuns {
  import opened Wrappers
  import opened Bits
  import opened Recency

  // Line and set counts are powers of two.
  datatype Shape = Shape(lineShift: nat, setBits: nat, ways: nat, policy: Policy)

  datatype Request = Request(addr: nat, isWrite: bool)

  type Contents = seq<seq<Line>>

  function TagOf(c: Shape, addr: nat): nat {
    Shr(addr, c.lineShift)
  }

  function SetOf(c: Shape, addr: nat): (k: nat)
    ensures k < Pow2(c.setBits)
  {
    TagOf(c, addr) % Pow2(c.setBits)
  }

  function AccessOf(c: Shape, r: Request): Access {
    Access(TagOf(c, r.addr), r.addr, r.isWrite)
  }

  predicate Fits(c: Shape, sets: Contents) {
    && c.ways >= 1 && |sets| == Pow2(c.setBits)
    && forall k :: 0 <= k < |sets| ==> |sets[k]| <= c.ways
  }

  function Empty(c: Shape): (sets: Contents)
    requires c.ways >= 1
    ensures Fits(c, sets) && forall k :: 0 <= k < |sets| ==> sets[k] == []
  {
    seq(Pow2(c.setBits), k => [])
  }

  // One access: only the set of the address changes.
  function Accessed(c: Shape, sets: Contents, r: Request): (out: (Contents, Option<Line>))
    requires Fits(c, sets)
    ensures Fits(c, out.0)
  {
    var k := SetOf(c, r.addr);
    var (lines, evicted) := Step(c.policy, c.ways, sets[k], AccessOf(c, r));
    (sets[k := lines], evicted)
  }

  function RunCache(c: Shape, trace: seq<Request>): (sets: Contents)
    requires c.ways >= 1
    ensures Fits(c, sets)
    decreases |trace|
  {
    if trace == [] then Empty(c) else Accessed(c, RunCache(c, trace[..|trace| - 1]), trace[|trace| - 1]).0
  }

  // The accesses of a trace that go to set k.
  function OfSet(c: Shape, trace: seq<Request>, k: nat): seq<Access>
    decreases |trace|
  {
    if trace == [] then []
    else
      var last := trace[|trace| - 1];
      OfSet(c, trace[..|trace| - 1], k) + (if SetOf(c, last.addr) == k then [AccessOf(c, last)] else [])
  }

  // Sets do not disturb each other: each holds what its own accesses put there.
  lemma {:induction false} SetsRunAlone(c: Shape, trace: seq<Request>, k: nat)
    requires c.ways >= 1 && k < Pow2(c.setBits)
    ensures RunCache(c, trace)[k] == Run(c.policy, c.ways, OfSet(c, trace, k))
    decreases |trace|
  {
    hide Step, SetOf, AccessOf;
    if trace != [] {
      var before, last := trace[..|trace| - 1], trace[|trace| - 1];
      SetsRunAlone(c, before, k);
      if SetOf(c, last.addr) == k {
        var own := OfSet(c, trace, k);
        assert own[..|own| - 1] == OfSet(c, before, k) && own[|own| - 1] == AccessOf(c, last);
      } else {
        assert OfSet(c, trace, k) == OfSet(c, before, k);
      }
    }
  }

  // With allocation on every miss, an access hits if and only if its tag is one of the
  // last `ways` distinct tags that went to its set.
  lemma HitsAreLatest(c: Shape, trace: seq<Request>, addr: nat)
    requires c.ways >= 1 && c.policy.miss == WRITE_ALLOCATE
    ensures var k, tag := SetOf(c, addr), TagOf(c, addr);
      Present(RunCache(c, trace)[k], tag) <==> tag in Prefix(LatestTags(OfSet(c, trace, k)), c.ways)
  {
    var k, tag := SetOf(c, addr), TagOf(c, addr);
    hide SetOf, TagOf, LatestTags, Prefix, Run;
    SetsRunAlone(c, trace, k);
    HoldsLatest(c.policy, c.ways, OfSet(c, trace, k));
    var lines := RunCache(c, trace)[k];
    if tag in Tags(lines) {
      var j :| 0 <= j < |lines| && Tags(lines)[j] == tag;
      assert lines[j].tag == tag;
    }
    if Present(lines, tag) {
      assert Tags(lines)[Find(lines, tag)] == tag;
    }
  }

  // More ways never lose a hit.
  lemma MoreWaysHitToo(c: Shape, more: nat, trace: seq<Request>, addr: nat)
    requires 1 <= c.ways <= more && c.policy.miss == WRITE_ALLOCATE
    requires Present(RunCache(c, trace)[SetOf(c, addr)], TagOf(c, addr))
    ensures var c' := c.(ways := more);
      SetOf(c', addr) == SetOf(c, addr) && Present(RunCache(c', trace)[SetOf(c', addr)], TagOf(c', addr))
  {
    hide RunCache, Present, Find, OfSet, Fits;
    var c' := c.(ways := more);
    HitsAreLatest(c, trace, addr);
    HitsAreLatest(c', trace, addr);
    SameAccesses(c, c', trace, SetOf(c, addr));
    var tags := LatestTags(OfSet(c, trace, SetOf(c, addr)));
    var k :| 0 <= k < |Prefix(tags, c.ways)| && Prefix(tags, c.ways)[k] == TagOf(c, addr);
    assert Prefix(tags, more)[k] == TagOf(c, addr);
  }

  lemma {:induction false} SameAccesses(c: Shape, c': Shape, trace: seq<Request>, k: nat)
    requires c'.lineShift == c.lineShift && c'.setBits == c.setBits
    ensures OfSet(c', trace, k) == OfSet(c, trace, k)
    decreases |trace|
  {
    if trace != [] {
      SameAccesses(c, c', trace[..|trace| - 1], k);
    }
  }

  // ---- Stores ----

  // Every line holds an address of its own, and no line is held twice.
  ghost predicate Sound(c: Shape, sets: Contents) {
    && Fits(c, sets)
    && forall k :: 0 <= k < |sets| ==> SoundSet(c, sets[k])
  }

  ghost predicate SoundSet(c: Shape, lines: seq<Line>) {
    && DistinctTags(lines)
    && forall i :: 0 <= i < |lines| ==> TagOf(c, lines[i].addr) == lines[i].tag
  }

  lemma StepStaysSound(c: Shape, lines: seq<Line>, r: Request)
    requires c.ways >= 1 && |lines| <= c.ways && SoundSet(c, lines)
    ensures SoundSet(c, Step(c.policy, c.ways, lines, AccessOf(c, r)).0)
  {
    hide TagOf;
    StepKeepsDistinct(c.policy, c.ways, lines, AccessOf(c, r));
  }

  lemma AccessStaysSound(c: Shape, sets: Contents, r: Request)
    requires Sound(c, sets)
    ensures Sound(c, Accessed(c, sets, r).0)
  {
    StepStaysSound(c, sets[SetOf(c, r.addr)], r);
    hide SoundSet, Step, SetOf;
  }

  lemma {:induction false} RunIsSound(c: Shape, trace: seq<Request>)
    requires c.ways >= 1
    ensures Sound(c, RunCache(c, trace))
    decreases |trace|
  {
    if trace != [] {
      RunIsSound(c, trace[..|trace| - 1]);
      AccessStaysSound(c, RunCache(c, trace[..|trace| - 1]), trace[|trace| - 1]);
    }
  }

  // The contents after a trace that starts from `sets`, and the lines evicted on the way.
  function RunOn(c: Shape, sets: Contents, trace: seq<Request>): (out: (Contents, seq<Line>))
    requires Fits(c, sets)
    ensures Fits(c, out.0)
    decreases |trace|
  {
    if trace == [] then (sets, [])
    else
      var (next, victim) := Accessed(c, sets, trace[0]);
      var (last, victims) := RunOn(c, next, trace[1..]);
      (last, (if victim.Some? then [victim.value] else []) + victims)
  }

  // Some dirty line among `lines` holds an address of the line `tag`.
  ghost predicate Carries(c: Shape, lines: seq<Line>, tag: nat) {
    exists i :: 0 <= i < |lines| && lines[i].dirty && TagOf(c, lines[i].addr) == tag
  }

  lemma DirtyLineSurvives(c: Shape, sets: Contents, r: Request, k: nat, tag: nat)
    requires Sound(c, sets) && c.policy.write == WRITE_BACK && k < |sets| && Carries(c, sets[k], tag)
    ensures var (next, victim) := Accessed(c, sets, r);
      Carries(c, next[k], tag) || (victim.Some? && victim.value.dirty && TagOf(c, victim.value.addr) == tag)
  {
    hide Step, SetOf, TagOf, Find;
    if SetOf(c, r.addr) == k {
      var i :| 0 <= i < |sets[k]| && sets[k][i].dirty && TagOf(c, sets[k][i].addr) == tag;
      DirtyUntilEvicted(c.policy, c.ways, sets[k], AccessOf(c, r), sets[k][i]);
    }
  }

  lemma {:induction false} DirtyLineIsKept(c: Shape, sets: Contents, trace: seq<Request>, k: nat, tag: nat)
    requires Sound(c, sets) && c.policy.write == WRITE_BACK && k < |sets| && Carries(c, sets[k], tag)
    ensures var (last, victims) := RunOn(c, sets, trace); Carries(c, last[k], tag) || Carries(c, victims, tag)
    decreases |trace|
  {
    hide SoundSet;
    if trace != [] {
      hide Accessed, Sound, TagOf;
      var (next, victim) := Accessed(c, sets, trace[0]);
      AccessStaysSound(c, sets, trace[0]);
      DirtyLineSurvives(c, sets, trace[0], k, tag);
      var (last, victims) := RunOn(c, next, trace[1..]);
      var all := (if victim.Some? then [victim.value] else []) + victims;
      if Carries(c, next[k], tag) {
        DirtyLineIsKept(c, next, trace[1..], k, tag);
        if Carries(c, victims, tag) {
          var i :| 0 <= i < |victims| && victims[i].dirty && TagOf(c, victims[i].addr) == tag;
          assert all[|all| - |victims| + i] == victims[i];
        }
      } else {
        assert all[0] == victim.value;
      }
    }
  }

  // No store is lost.  In a write-back cache that allocates on write misses, after a store
  // and any accesses that follow, the stored line is dirty in its set, or a dirty line with
  // one of its addresses was evicted since.
  lemma StoreIsKept(c: Shape, sets: Contents, addr: nat, trace: seq<Request>)
    requires Sound(c, sets) && c.policy == Policy(WRITE_BACK, WRITE_ALLOCATE)
    ensures var stored := Accessed(c, sets, Request(addr, true)).0;
      var (last, victims) := RunOn(c, stored, trace);
      Carries(c, last[SetOf(c, addr)], TagOf(c, addr)) || Carries(c, victims, TagOf(c, addr))
  {
    var r, k := Request(addr, true), SetOf(c, addr);
    var stored := Accessed(c, sets, r).0;
    WriteIsDirty(c.policy, c.ways, sets[k], AccessOf(c, r), x => TagOf(c, x));
    AccessStaysSound(c, sets, r);
    assert Carries(c, stored[k], TagOf(c, addr)) by {
      hide Step, Find;
      assert stored[k][0].dirty && TagOf(c, stored[k][0].addr) == TagOf(c, addr);
    }
    DirtyLineIsKept(c, stored, trace, k, TagOf(c, addr));
  }
}
