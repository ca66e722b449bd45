// The distances written into a fetched operation: one pair of offset and count per
// consumer node and step, shifted by the operation's own index.
module WindowFetch {
  import opened Counting
  import opened ExecGraph
  import opened Programs

  datatype StepOffset = StepOffset(offset: nat, num: nat)

  // Consumers at consecutive positions, seen from index i of the producer.
  function Expand(offsets: seq<StepOffset>, i: nat): seq<nat>
    requires forall e :: 0 <= e < |offsets| && offsets[e].num > 0 ==> offsets[e].offset >= i
    decreases |offsets|
  {
    if offsets == [] then []
    else
      var o := offsets[|offsets| - 1];
      Expand(offsets[..|offsets| - 1], i) + seq(o.num, (p: nat) requires p < o.num => o.offset - i + p)
  }

  // Where the operations of node n in step k begin.
  function Begin(g: Graph, n: nat, k: nat): nat
    requires Grouped(g) && n < |g.nodes|
  {
    Offset(g, n) + k * NumOps(g, g.nodes[n].groupId)
  }

  // A later node's operations begin later: in the same step of the same group, or in
  // any step of a later group.
  lemma BeginsLater(g: Graph, n: nat, k: nat, m: nat, j: nat)
    requires Grouped(g) && n < m < |g.nodes| && k < Steps(g, n)
    requires SameGroup(g, n, m) ==> j == k
    ensures Begin(g, n, k) + g.nodes[n].opsStep <= Begin(g, m, j)
  {
    hide RangeOps, Base, NumOps, Grouped;
    GroupOf(g, n);
    GroupOf(g, m);
    GroupsAscend(g, n, m);
    var gn, gm := g.nodes[n].groupId, g.nodes[m].groupId;
    if gn == gm {
      RangeOpsGrows(g, g.groups[gn].stNode, n, m);
    } else {
      NodeInStep(g, n, k);
      BaseMonotone(g, gn + 1, gm);
    }
  }

  // A node's operations end with their group at the latest.
  lemma NodeInStep(g: Graph, n: nat, k: nat)
    requires Grouped(g) && n < |g.nodes| && k < Steps(g, n)
    ensures Begin(g, n, k) + g.nodes[n].opsStep <= Base(g, g.nodes[n].groupId + 1)
  {
    hide Grouped, RangeOps;
    GroupOf(g, n);
    var group := g.nodes[n].groupId;
    RangeOpsGrows(g, g.groups[group].stNode, n, g.groups[group].endNode + 1);
    var ops, steps := NumOps(g, group), g.groups[group].groupSteps;
    assert Base(g, group + 1) == Base(g, group) + steps * ops;
    hide Base, NumOps;
    assert (k + 1) * ops == k * ops + ops;
    MulLe(k + 1, steps, ops);
  }

  // The step of m that an operation of n in step k points into first.
  function OffsetTo(g: Graph, n: nat, k: nat, m: nat, j: nat): (o: StepOffset)
    requires Grouped(g) && n < m < |g.nodes| && k < Steps(g, n) && j < Steps(g, m)
    requires SameGroup(g, n, m) ==> j == k
    ensures o.offset >= g.nodes[n].opsStep
  {
    BeginsLater(g, n, k, m, j);
    StepOffset(Begin(g, m, j) - Begin(g, n, k), g.nodes[m].opsStep)
  }

  // Offsets into the first steps of m, a node of another group.
  function AcrossTo(g: Graph, n: nat, k: nat, m: nat, steps: nat): (os: seq<StepOffset>)
    requires Grouped(g) && n < m < |g.nodes| && k < Steps(g, n) && steps <= Steps(g, m) && !SameGroup(g, n, m)
    ensures forall e :: 0 <= e < |os| ==> os[e].offset >= g.nodes[n].opsStep
    decreases steps
  {
    if steps == 0 then [] else AcrossTo(g, n, k, m, steps - 1) + [OffsetTo(g, n, k, m, steps - 1)]
  }

  function OffsetsTo(g: Graph, n: nat, k: nat, m: nat): (os: seq<StepOffset>)
    requires Grouped(g) && n < m < |g.nodes| && k < Steps(g, n)
    ensures forall e :: 0 <= e < |os| ==> os[e].offset >= g.nodes[n].opsStep
  {
    if SameGroup(g, n, m) then [OffsetTo(g, n, k, m, k)] else AcrossTo(g, n, k, m, Steps(g, m))
  }

  function OffsetsOf(g: Graph, n: nat, k: nat, next: seq<nat>): (os: seq<StepOffset>)
    requires Grouped(g) && n < |g.nodes| && k < Steps(g, n)
    requires forall i :: 0 <= i < |next| ==> n < next[i] < |g.nodes|
    ensures forall e :: 0 <= e < |os| ==> os[e].offset >= g.nodes[n].opsStep
    decreases |next|
  {
    if next == [] then []
    else OffsetsOf(g, n, k, next[..|next| - 1]) + OffsetsTo(g, n, k, next[|next| - 1])
  }

  // ---- They expand to the distances of the program ----

  // next lists the distances from x to the operations c.
  ghost predicate Distances(g: Graph, x: Inst, c: seq<Inst>, next: seq<nat>)
    requires Grouped(g) && x.node < |g.nodes| && InGraph(g, c)
  {
    |next| == |c| && forall e :: 0 <= e < |c| ==> next[e] == At(g, c[e]) - At(g, x)
  }

  lemma {:induction false} ExpandConcat(a: seq<StepOffset>, b: seq<StepOffset>, i: nat)
    requires forall e :: 0 <= e < |a| ==> a[e].offset >= i
    requires forall e :: 0 <= e < |b| ==> b[e].offset >= i
    ensures Expand(a + b, i) == Expand(a, i) + Expand(b, i)
    decreases |b|
  {
    if b == [] {
      assert a + b == a;
    } else {
      assert (a + b)[..|a + b| - 1] == a + b[..|b| - 1];
      ExpandConcat(a, b[..|b| - 1], i);
    }
  }

  lemma StepDistances(g: Graph, x: Inst, m: nat, j: nat)
    requires Grouped(g) && IsInst(g, x) && x.node < m < |g.nodes| && j < Steps(g, m)
    requires SameGroup(g, x.node, m) ==> j == x.step
    ensures var o := OffsetTo(g, x.node, x.step, m, j);
      o.offset >= x.index && Distances(g, x, Ops(g, m, j), Expand([o], x.index))
  {
    hide Offset, NumOps, Grouped;
    var o := OffsetTo(g, x.node, x.step, m, j);
    assert [o][..0] == [];
  }

  lemma DistancesConcat(g: Graph, x: Inst, c: seq<Inst>, a: seq<nat>, d: seq<Inst>, b: seq<nat>)
    requires Grouped(g) && x.node < |g.nodes| && InGraph(g, c) && InGraph(g, d)
    requires Distances(g, x, c, a) && Distances(g, x, d, b)
    ensures InGraph(g, c + d) && Distances(g, x, c + d, a + b)
  {
    hide At, Grouped;
  }

  lemma NoDistances(g: Graph, x: Inst)
    requires Grouped(g) && x.node < |g.nodes|
    ensures InGraph(g, []) && Distances(g, x, [], Expand([], x.index))
  {
  }

  lemma {:induction false} AcrossDistances(g: Graph, x: Inst, m: nat, steps: nat)
    requires Grouped(g) && IsInst(g, x) && x.node < m < |g.nodes| && steps <= Steps(g, m)
    requires !SameGroup(g, x.node, m)
    ensures InGraph(g, AllOps(g, m, steps))
    ensures Distances(g, x, AllOps(g, m, steps), Expand(AcrossTo(g, x.node, x.step, m, steps), x.index))
    decreases steps
  {
    hide At, OffsetTo, Distances, Expand, Ops, InGraph, Grouped;
    if steps == 0 {
      NoDistances(g, x);
    } else {
      AcrossDistances(g, x, m, steps - 1);
      StepDistances(g, x, m, steps - 1);
      OpsInGraph(g, m, steps - 1);
      var before, o := AcrossTo(g, x.node, x.step, m, steps - 1), OffsetTo(g, x.node, x.step, m, steps - 1);
      ExpandConcat(before, [o], x.index);
      DistancesConcat(g, x, AllOps(g, m, steps - 1), Expand(before, x.index), Ops(g, m, steps - 1), Expand([o], x.index));
    }
  }

  lemma NodeDistances(g: Graph, x: Inst, m: nat)
    requires Grouped(g) && IsInst(g, x) && x.node < m < |g.nodes|
    ensures InGraph(g, ConsumersIn(g, x.node, x.step, m))
    ensures Distances(g, x, ConsumersIn(g, x.node, x.step, m), Expand(OffsetsTo(g, x.node, x.step, m), x.index))
  {
    hide At, OffsetTo, AcrossTo, Distances, Expand, Ops, AllOps, InGraph, Grouped;
    if SameGroup(g, x.node, m) {
      StepDistances(g, x, m, x.step);
      OpsInGraph(g, m, x.step);
    } else {
      AcrossDistances(g, x, m, Steps(g, m));
    }
  }

  lemma {:induction false} OffsetsDistances(g: Graph, x: Inst, next: seq<nat>)
    requires Grouped(g) && IsInst(g, x) && forall i :: 0 <= i < |next| ==> x.node < next[i] < |g.nodes|
    ensures InGraph(g, Consumers(g, x.node, x.step, next))
    ensures Distances(g, x, Consumers(g, x.node, x.step, next), Expand(OffsetsOf(g, x.node, x.step, next), x.index))
    decreases |next|
  {
    hide At, OffsetsTo, Distances, Expand, ConsumersIn, InGraph, Grouped;
    if next == [] {
      NoDistances(g, x);
    } else {
      var rest, m := next[..|next| - 1], next[|next| - 1];
      OffsetsDistances(g, x, rest);
      NodeDistances(g, x, m);
      var before, here := OffsetsOf(g, x.node, x.step, rest), OffsetsTo(g, x.node, x.step, m);
      ExpandConcat(before, here, x.index);
      DistancesConcat(g, x, Consumers(g, x.node, x.step, rest), Expand(before, x.index),
                      ConsumersIn(g, x.node, x.step, m), Expand(here, x.index));
    }
  }

  lemma OpsInGraph(g: Graph, m: nat, k: nat)
    requires m < |g.nodes|
    ensures InGraph(g, Ops(g, m, k))
  {
  }

  // The offsets of a node and step expand, for each of its operations, to the
  // distances of the program.
  lemma OffsetsAreExact(g: Graph, x: Inst)
    requires Grouped(g) && Linked(g) && IsInst(g, x)
    requires forall i :: 0 <= i < |g.nodes[x.node].next| ==> x.node < g.nodes[x.node].next[i] < |g.nodes|
    ensures Expand(OffsetsOf(g, x.node, x.step, g.nodes[x.node].next), x.index) == NextOf(g, x)
  {
    hide Expand, OffsetsOf, Consumers, At;
    OffsetsDistances(g, x, g.nodes[x.node].next);
  }

  // ---- The walk lists every operation at its position ----

  lemma WalkHas(g: Graph, x: Inst)
    requires Grouped(g) && Linked(g) && IsInst(g, x)
    ensures At(g, x) < |Walk(g)| && Walk(g)[At(g, x)] == x && ProgramOf(g).ops[At(g, x)] == OpOf(g, x)
  {
    hide Walk, At;
    WalkAt2(g);
    AtBound(g, x);
    AtInjective(g, Walk(g)[At(g, x)], x);
  }
}
