// A cache set as a list of lines, the most recently used first, and what follows for
// hits, larger sets and dirty lines.
module Recency {
  import opened Wrappers
  import opened Sequences

  datatype WritePolicy = WRITE_BACK | WRITE_THROUGH

  datatype WriteMissPolicy = WRITE_ALLOCATE | NO_WRITE_ALLOCATE

  // A line of a set; addr is the address whose miss brought it in.
  datatype Line = Line(tag: nat, addr: nat, dirty: bool)

  datatype Access = Access(tag: nat, addr: nat, isWrite: bool)

  datatype Policy = Policy(write: WritePolicy, miss: WriteMissPolicy)

  // Where a tag stands in the list, or past its end.
  function Find(lines: seq<Line>, tag: nat): (k: nat)
    ensures k <= |lines| && (k < |lines| ==> lines[k].tag == tag)
    ensures forall j :: 0 <= j < k ==> lines[j].tag != tag
  {
    if lines == [] then 0
    else if lines[0].tag == tag then 0
    else
      var k := Find(lines[1..], tag);
      assert forall j :: 0 <= j < k + 1 ==> lines[j].tag != tag by {
        forall j | 0 <= j < k + 1 ensures lines[j].tag != tag {
          assert j > 0 ==> lines[j] == lines[1..][j - 1];
        }
      }
      k + 1
  }

  predicate Present(lines: seq<Line>, tag: nat) {
    Find(lines, tag) < |lines|
  }

  // A hit moves the line to the front; a write marks it dirty when it is written back
  // later, clean when it is written through.
  function Touch(p: Policy, lines: seq<Line>, a: Access): seq<Line>
    requires Present(lines, a.tag)
  {
    var k := Find(lines, a.tag);
    var line := if a.isWrite then lines[k].(dirty := p.write == WRITE_BACK) else lines[k];
    [line] + Drop(lines, k)
  }

  // A miss that allocates puts the line in front; the least recent line of a full set
  // leaves.
  function Allocate(p: Policy, ways: nat, lines: seq<Line>, a: Access): (seq<Line>, Option<Line>)
    requires ways >= 1 && |lines| <= ways
  {
    var line := Line(a.tag, a.addr, a.isWrite && p.write == WRITE_BACK);
    if |lines| == ways then ([line] + lines[..ways - 1], Some(lines[ways - 1])) else ([line] + lines, None)
  }

  predicate Allocates(p: Policy, a: Access) {
    !a.isWrite || p.miss == WRITE_ALLOCATE
  }

  function Step(p: Policy, ways: nat, lines: seq<Line>, a: Access): (out: (seq<Line>, Option<Line>))
    requires ways >= 1 && |lines| <= ways
    ensures |out.0| <= ways
  {
    if Present(lines, a.tag) then (Touch(p, lines, a), None)
    else if Allocates(p, a) then Allocate(p, ways, lines, a)
    else (lines, None)
  }

  // The list after a trace of accesses to the set.
  function Run(p: Policy, ways: nat, trace: seq<Access>): (lines: seq<Line>)
    requires ways >= 1
    ensures |lines| <= ways
    decreases |trace|
  {
    if trace == [] then [] else Step(p, ways, Run(p, ways, trace[..|trace| - 1]), trace[|trace| - 1]).0
  }

  ghost predicate DistinctTags(lines: seq<Line>) {
    forall i, j :: 0 <= i < j < |lines| ==> lines[i].tag != lines[j].tag
  }

  lemma StepKeepsDistinct(p: Policy, ways: nat, lines: seq<Line>, a: Access)
    requires ways >= 1 && |lines| <= ways && DistinctTags(lines)
    ensures DistinctTags(Step(p, ways, lines, a).0)
  {
  }

  // ---- The last distinct tags ----

  // The distinct tags of a trace, the latest first.
  function LatestTags(trace: seq<Access>): seq<nat>
    decreases |trace|
  {
    if trace == [] then []
    else
      var t := trace[|trace| - 1].tag;
      [t] + Without(LatestTags(trace[..|trace| - 1]), t)
  }

  function Without(tags: seq<nat>, t: nat): (r: seq<nat>)
    ensures t !in r && |r| <= |tags|
    ensures t !in tags ==> r == tags
  {
    if tags == [] then [] else (if tags[0] == t then [] else [tags[0]]) + Without(tags[1..], t)
  }

  function Tags(lines: seq<Line>): (tags: seq<nat>)
    ensures |tags| == |lines| && forall i :: 0 <= i < |lines| ==> tags[i] == lines[i].tag
  {
    seq(|lines|, i requires 0 <= i < |lines| => lines[i].tag)
  }

  // At most the first n elements.
  function Prefix(tags: seq<nat>, n: nat): (r: seq<nat>)
    ensures |r| <= n
  {
    if |tags| <= n then tags else tags[..n]
  }

  ghost predicate Distinct(tags: seq<nat>) {
    forall i, j :: 0 <= i < j < |tags| ==> tags[i] != tags[j]
  }

  lemma {:induction false} WithoutSplits(tags: seq<nat>, k: nat)
    requires Distinct(tags) && k < |tags|
    ensures Without(tags, tags[k]) == tags[..k] + tags[k + 1..]
  {
    if k == 0 {
      assert tags[0] !in tags[1..];
    } else {
      WithoutSplits(tags[1..], k - 1);
      assert tags[..k] == [tags[0]] + tags[1..][..k - 1];
    }
  }

  lemma {:induction false} LatestAreDistinct(trace: seq<Access>)
    ensures Distinct(LatestTags(trace))
    decreases |trace|
  {
    if trace != [] {
      var rest, t := LatestTags(trace[..|trace| - 1]), trace[|trace| - 1].tag;
      LatestAreDistinct(trace[..|trace| - 1]);
      hide Without;
      WithoutIsDistinct(rest, t);
    }
  }

  lemma WithoutIsDistinct(tags: seq<nat>, t: nat)
    requires Distinct(tags)
    ensures Distinct(Without(tags, t)) && Distinct([t] + Without(tags, t))
  {
    if t in tags {
      var k :| 0 <= k < |tags| && tags[k] == t;
      WithoutSplits(tags, k);
    }
    hide Without;
  }

  // Moving an element of the prefix to the front.
  lemma PrefixMoved(tags: seq<nat>, n: nat, k: nat, t: nat)
    requires k < |Prefix(tags, n)|
    ensures [t] + Drop(Prefix(tags, n), k) == Prefix([t] + Drop(tags, k), n)
  {
    var a, b := [t] + Drop(Prefix(tags, n), k), Prefix([t] + Drop(tags, k), n);
    assert |a| == |b|;
    forall i | 0 <= i < |a| ensures a[i] == b[i] {
    }
  }

  // Moving an element from beyond the prefix, or a new one, to the front.
  lemma PrefixPushed(tags: seq<nat>, rest: seq<nat>, n: nat, t: nat)
    requires n >= 1
    requires |tags| < n ==> rest == tags
    requires |tags| >= n ==> |rest| >= n - 1 && rest[..n - 1] == tags[..n - 1]
    ensures [t] + Prefix(Prefix(tags, n), n - 1) == Prefix([t] + rest, n)
  {
    var a, b := [t] + Prefix(Prefix(tags, n), n - 1), Prefix([t] + rest, n);
    assert |a| == |b|;
    forall i | 0 <= i < |a| ensures a[i] == b[i] {
      if i > 0 && |tags| >= n {
        assert rest[..n - 1][i - 1] == tags[..n - 1][i - 1];
      }
    }
  }

  lemma TagsOfTouch(p: Policy, lines: seq<Line>, a: Access)
    requires Present(lines, a.tag)
    ensures Tags(Touch(p, lines, a)) == [a.tag] + Drop(Tags(lines), Find(lines, a.tag))
  {
  }

  lemma TagsOfAllocate(p: Policy, ways: nat, lines: seq<Line>, a: Access)
    requires ways >= 1 && |lines| <= ways
    ensures Tags(Allocate(p, ways, lines, a).0) == [a.tag] + Prefix(Tags(lines), ways - 1)
  {
  }

  lemma HitHolds(p: Policy, ways: nat, lines: seq<Line>, tags: seq<nat>, a: Access)
    requires |lines| <= ways && Distinct(tags) && Tags(lines) == Prefix(tags, ways) && Present(lines, a.tag)
    ensures Tags(Touch(p, lines, a)) == Prefix([a.tag] + Without(tags, a.tag), ways)
  {
    var k := Find(lines, a.tag);
    assert Tags(lines)[k] == a.tag && tags[k] == a.tag;
    hide Find, Touch, Tags;
    TagsOfTouch(p, lines, a);
    WithoutSplits(tags, k);
    PrefixMoved(tags, ways, k, a.tag);
  }

  lemma MissHolds(p: Policy, ways: nat, lines: seq<Line>, tags: seq<nat>, a: Access)
    requires ways >= 1 && |lines| <= ways && Distinct(tags) && Tags(lines) == Prefix(tags, ways) && !Present(lines, a.tag)
    ensures Tags(Allocate(p, ways, lines, a).0) == Prefix([a.tag] + Without(tags, a.tag), ways)
  {
    TagsOfAllocate(p, ways, lines, a);
    NotInPrefix(lines, tags, ways, a.tag);
    hide Find, Allocate, Tags, Without;
    if a.tag in tags {
      var j :| 0 <= j < |tags| && tags[j] == a.tag;
      WithoutSplits(tags, j);
      assert Drop(tags, j)[..ways - 1] == tags[..ways - 1];
    }
    PrefixPushed(tags, Without(tags, a.tag), ways, a.tag);
  }

  lemma NotInPrefix(lines: seq<Line>, tags: seq<nat>, n: nat, t: nat)
    requires Tags(lines) == Prefix(tags, n) && !Present(lines, t)
    ensures forall j :: 0 <= j < |tags| && tags[j] == t ==> j >= n
  {
    forall i | 0 <= i < |lines| ensures tags[i] != t {
      assert Tags(lines)[i] == lines[i].tag;
    }
  }

  // With allocation on every miss, a set holds exactly its last `ways` distinct tags,
  // in order of use: a lookup hits if and only if its tag is one of them, and the
  // victim is the least recent.
  lemma {:induction false} HoldsLatest(p: Policy, ways: nat, trace: seq<Access>)
    requires ways >= 1 && p.miss == WRITE_ALLOCATE
    ensures Tags(Run(p, ways, trace)) == Prefix(LatestTags(trace), ways)
    decreases |trace|
  {
    hide Touch, Allocate, Without;
    if trace != [] {
      var before, a := trace[..|trace| - 1], trace[|trace| - 1];
      var lines, tags := Run(p, ways, before), LatestTags(before);
      HoldsLatest(p, ways, before);
      LatestAreDistinct(before);
      if Present(lines, a.tag) {
        HitHolds(p, ways, lines, tags, a);
      } else {
        MissHolds(p, ways, lines, tags, a);
      }
    }
  }

  // A hit at one associativity is a hit at every larger one, on the same trace of the
  // set.
  lemma LargerSetsHitToo(p: Policy, ways: nat, more: nat, trace: seq<Access>, tag: nat)
    requires 1 <= ways <= more && p.miss == WRITE_ALLOCATE && Present(Run(p, ways, trace), tag)
    ensures Present(Run(p, more, trace), tag)
  {
    HoldsLatest(p, ways, trace);
    HoldsLatest(p, more, trace);
    var small, large := Run(p, ways, trace), Run(p, more, trace);
    var k := Find(small, tag);
    assert Tags(small)[k] == tag && Tags(large)[k] == Tags(small)[k];
    assert large[k].tag == tag;
  }

  // ---- Dirty lines ----

  // A dirty line stays, dirty and with its address, until an eviction hands it over.
  lemma DirtyUntilEvicted(p: Policy, ways: nat, lines: seq<Line>, a: Access, line: Line)
    requires ways >= 1 && |lines| <= ways && DistinctTags(lines) && p.write == WRITE_BACK
    requires line in lines && line.dirty
    ensures var (lines', evicted) := Step(p, ways, lines, a); line in lines' || evicted == Some(line)
  {
    var j :| 0 <= j < |lines| && lines[j] == line;
    var (lines', evicted) := Step(p, ways, lines, a);
    if Present(lines, a.tag) {
      var k := Find(lines, a.tag);
      if j == k {
        assert lines'[0] == line;
      } else {
        assert lines'[if j < k then j + 1 else j] == line;
      }
    } else if Allocates(p, a) && j < ways - 1 {
      assert lines'[j + 1] == line;
    }
  }

  // A write leaves its line dirty at the front, with an address of that line.
  lemma WriteIsDirty(p: Policy, ways: nat, lines: seq<Line>, a: Access, lineOf: nat -> nat)
    requires ways >= 1 && |lines| <= ways && p == Policy(WRITE_BACK, WRITE_ALLOCATE) && a.isWrite && lineOf(a.addr) == a.tag
    requires forall i :: 0 <= i < |lines| ==> lineOf(lines[i].addr) == lines[i].tag
    ensures var lines' := Step(p, ways, lines, a).0;
      && lines' != [] && lines'[0].tag == a.tag && lines'[0].dirty
      && forall i :: 0 <= i < |lines'| ==> lineOf(lines'[i].addr) == lines'[i].tag
  {
  }

  // The list after a trace that starts from `lines`, and everything evicted on the way.
  function RunFrom(p: Policy, ways: nat, lines: seq<Line>, trace: seq<Access>): (out: (seq<Line>, seq<Line>))
    requires ways >= 1 && |lines| <= ways
    decreases |trace|
  {
    if trace == [] then (lines, [])
    else
      var (next, victim) := Step(p, ways, lines, trace[0]);
      var (last, victims) := RunFrom(p, ways, next, trace[1..]);
      (last, (if victim.Some? then [victim.value] else []) + victims)
  }

  // No store is lost: a dirty line is still in the set, dirty and with its address,
  // or it is among the lines evicted since.
  lemma {:induction false} StoresAreNotLost(p: Policy, ways: nat, lines: seq<Line>, trace: seq<Access>, line: Line)
    requires ways >= 1 && |lines| <= ways && DistinctTags(lines) && p.write == WRITE_BACK
    requires line in lines && line.dirty
    ensures var (last, victims) := RunFrom(p, ways, lines, trace); line in last || line in victims
    decreases |trace|
  {
    hide DistinctTags, Step;
    if trace != [] {
      var (next, victim) := Step(p, ways, lines, trace[0]);
      StepKeepsDistinct(p, ways, lines, trace[0]);
      DirtyUntilEvicted(p, ways, lines, trace[0], line);
      if line in next {
        StoresAreNotLost(p, ways, next, trace[1..], line);
      } else {
        assert line in [victim.value];
      }
    }
  }
}
