// The execution graph of a block: data nodes grouped by step count, the order in
// which one global step lists their operations, and the dependency edges between
// operations.
module ExecGraph {
  import opened Counting

  datatype OpType = LOAD | STORE

  datatype DataNode = DataNode(
    name: string,
    op: OpType,
    accesses: nat,
    dependency: seq<string>,
    comp: nat,
    prev: seq<nat>,
    next: seq<nat>,
    groupId: nat,
    opsStep: nat,
    offset: nat,
    numPrevOps: nat)

  datatype NodeGroup = NodeGroup(stNode: nat, endNode: nat, groupSteps: nat, numOps: nat)

  datatype Graph = Graph(nodes: seq<DataNode>, groups: seq<NodeGroup>)

  // One operation of a global step: access `index` of a node in one of its steps.
  datatype Inst = Inst(node: nat, step: nat, index: nat)

  // The groups cut the nodes into consecutive runs.
  ghost predicate Grouped(g: Graph) {
    && (forall i :: 0 <= i < |g.groups| ==>
          && g.groups[i].groupSteps >= 1
          && g.groups[i].stNode <= g.groups[i].endNode < |g.nodes|)
    && (|g.groups| > 0 ==> g.groups[0].stNode == 0)
    && (forall i :: 0 < i < |g.groups| ==> g.groups[i].stNode == g.groups[i - 1].endNode + 1)
    && (forall i, n :: 0 <= i < |g.groups| && g.groups[i].stNode <= n <= g.groups[i].endNode ==> g.nodes[n].groupId == i)
    && (forall n :: 0 <= n < |g.nodes| ==>
          && g.nodes[n].groupId < |g.groups|
          && g.groups[g.nodes[n].groupId].stNode <= n <= g.groups[g.nodes[n].groupId].endNode)
    && |g.nodes| == (if g.groups == [] then 0 else g.groups[|g.groups| - 1].endNode + 1)
  }

  // Every edge is recorded at both ends and points forward.
  ghost predicate Linked(g: Graph) {
    && (forall n, i :: 0 <= n < |g.nodes| && 0 <= i < |g.nodes[n].next| ==> n < g.nodes[n].next[i] < |g.nodes|)
    && (forall n, i :: 0 <= n < |g.nodes| && 0 <= i < |g.nodes[n].prev| ==> g.nodes[n].prev[i] < n)
    && (forall n: nat, m: nat :: n < |g.nodes| && m < |g.nodes| ==> Count<nat>(g.nodes[n].next, m) == Count<nat>(g.nodes[m].prev, n))
  }

  function Steps(g: Graph, n: nat): nat
    requires Grouped(g) && n < |g.nodes|
  {
    g.groups[g.nodes[n].groupId].groupSteps
  }

  predicate IsInst(g: Graph, x: Inst)
    requires Grouped(g)
  {
    x.node < |g.nodes| && x.step < Steps(g, x.node) && x.index < g.nodes[x.node].opsStep
  }

  predicate SameGroup(g: Graph, n: nat, m: nat)
    requires n < |g.nodes| && m < |g.nodes|
  {
    g.nodes[n].groupId == g.nodes[m].groupId
  }

  // Every listed operation belongs to a node.
  ghost predicate InGraph(g: Graph, s: seq<Inst>) {
    forall i :: 0 <= i < |s| ==> s[i].node < |g.nodes|
  }

  // ---- Program order ----

  function Ops(g: Graph, n: nat, k: nat): (s: seq<Inst>)
    requires n < |g.nodes|
    ensures |s| == g.nodes[n].opsStep && forall i :: 0 <= i < |s| ==> s[i] == Inst(n, k, i)
  {
    seq(g.nodes[n].opsStep, (i: nat) => Inst(n, k, i))
  }

  // Nodes lo .. hi - 1 in step k.
  function NodesWalk(g: Graph, k: nat, lo: nat, hi: nat): (s: seq<Inst>)
    requires lo <= hi <= |g.nodes|
    ensures InGraph(g, s)
    decreases hi
  {
    if hi == lo then [] else NodesWalk(g, k, lo, hi - 1) + Ops(g, hi - 1, k)
  }

  // The first k steps of a group.
  function StepsWalk(g: Graph, group: nat, k: nat): (s: seq<Inst>)
    requires Grouped(g) && group < |g.groups|
    ensures InGraph(g, s)
    decreases k
  {
    if k == 0 then []
    else StepsWalk(g, group, k - 1) + NodesWalk(g, k - 1, g.groups[group].stNode, g.groups[group].endNode + 1)
  }

  // The first groups of a global step.
  function GroupsWalk(g: Graph, groups: nat): (s: seq<Inst>)
    requires Grouped(g) && groups <= |g.groups|
    ensures InGraph(g, s)
    decreases groups
  {
    if groups == 0 then [] else GroupsWalk(g, groups - 1) + StepsWalk(g, groups - 1, g.groups[groups - 1].groupSteps)
  }

  // One global step.
  function Walk(g: Graph): (s: seq<Inst>)
    requires Grouped(g)
    ensures InGraph(g, s)
  {
    GroupsWalk(g, |g.groups|)
  }

  // ---- Positions ----

  function RangeOps(g: Graph, lo: nat, hi: nat): (total: nat)
    requires lo <= hi <= |g.nodes|
    decreases hi
  {
    if hi == lo then 0 else RangeOps(g, lo, hi - 1) + g.nodes[hi - 1].opsStep
  }

  function NumOps(g: Graph, group: nat): nat
    requires Grouped(g) && group < |g.groups|
  {
    RangeOps(g, g.groups[group].stNode, g.groups[group].endNode + 1)
  }

  function Base(g: Graph, group: nat): nat
    requires Grouped(g) && group <= |g.groups|
    decreases group
  {
    if group == 0 then 0 else Base(g, group - 1) + g.groups[group - 1].groupSteps * NumOps(g, group - 1)
  }

  function Offset(g: Graph, n: nat): nat
    requires Grouped(g) && n < |g.nodes|
  {
    Base(g, g.nodes[n].groupId) + RangeOps(g, g.groups[g.nodes[n].groupId].stNode, n)
  }

  // Where an operation stands in its global step.
  function At(g: Graph, x: Inst): nat
    requires Grouped(g) && x.node < |g.nodes|
  {
    Offset(g, x.node) + x.step * NumOps(g, g.nodes[x.node].groupId) + x.index
  }

  lemma {:induction false} RangeOpsSplit(g: Graph, lo: nat, mid: nat, hi: nat)
    requires lo <= mid <= hi <= |g.nodes|
    ensures RangeOps(g, lo, hi) == RangeOps(g, lo, mid) + RangeOps(g, mid, hi)
    decreases hi
  {
    if mid < hi {
      RangeOpsSplit(g, lo, mid, hi - 1);
    }
  }

  lemma {:induction false} BaseMonotone(g: Graph, a: nat, b: nat)
    requires Grouped(g) && a <= b <= |g.groups|
    ensures Base(g, a) <= Base(g, b)
    decreases b
  {
    hide Grouped, NumOps, RangeOps;
    if a < b {
      BaseMonotone(g, a, b - 1);
      MulLe(0, g.groups[b - 1].groupSteps, NumOps(g, b - 1));
    }
  }

  lemma {:induction false} NodesWalkAt(g: Graph, group: nat, k: nat, hi: nat)
    requires Grouped(g) && group < |g.groups| && k < g.groups[group].groupSteps
    requires g.groups[group].stNode <= hi <= g.groups[group].endNode + 1
    ensures var s := NodesWalk(g, k, g.groups[group].stNode, hi);
      && |s| == RangeOps(g, g.groups[group].stNode, hi)
      && forall q :: 0 <= q < |s| ==> IsInst(g, s[q]) && At(g, s[q]) == Base(g, group) + k * NumOps(g, group) + q
    decreases hi
  {
    hide Base;
    var lo := g.groups[group].stNode;
    if hi > lo {
      NodesWalkAt(g, group, k, hi - 1);
      var s, t := NodesWalk(g, k, lo, hi - 1), Ops(g, hi - 1, k);
      forall q | 0 <= q < |s + t|
        ensures IsInst(g, (s + t)[q]) && At(g, (s + t)[q]) == Base(g, group) + k * NumOps(g, group) + q
      {
        if q >= |s| {
          assert (s + t)[q] == Inst(hi - 1, k, q - |s|);
        }
      }
    }
  }

  lemma {:induction false} StepsWalkAt(g: Graph, group: nat, k: nat)
    requires Grouped(g) && group < |g.groups| && k <= g.groups[group].groupSteps
    ensures var s := StepsWalk(g, group, k);
      && |s| == k * NumOps(g, group)
      && forall q :: 0 <= q < |s| ==> IsInst(g, s[q]) && At(g, s[q]) == Base(g, group) + q
    decreases k
  {
    hide Base, At;
    if k > 0 {
      StepsWalkAt(g, group, k - 1);
      NodesWalkAt(g, group, k - 1, g.groups[group].endNode + 1);
      assert k * NumOps(g, group) == (k - 1) * NumOps(g, group) + NumOps(g, group);
    }
  }

  // Every operation of the walk stands at its own position.
  lemma {:induction false} WalkAt(g: Graph, groups: nat)
    requires Grouped(g) && groups <= |g.groups|
    ensures var s := GroupsWalk(g, groups);
      && |s| == Base(g, groups)
      && forall q :: 0 <= q < |s| ==> IsInst(g, s[q]) && At(g, s[q]) == q
    decreases groups
  {
    hide At, NumOps, StepsWalk, IsInst;
    if groups > 0 {
      WalkAt(g, groups - 1);
      StepsWalkAt(g, groups - 1, g.groups[groups - 1].groupSteps);
    }
  }

  lemma RangeOpsGrows(g: Graph, lo: nat, n: nat, hi: nat)
    requires lo <= n < hi <= |g.nodes|
    ensures RangeOps(g, lo, n) + g.nodes[n].opsStep <= RangeOps(g, lo, hi)
  {
    RangeOpsSplit(g, lo, n + 1, hi);
  }

  // A node stands in its group.
  lemma GroupOf(g: Graph, n: nat)
    requires Grouped(g) && n < |g.nodes|
    ensures g.nodes[n].groupId < |g.groups|
    ensures var group := g.groups[g.nodes[n].groupId];
      group.stNode <= n <= group.endNode < |g.nodes| && Steps(g, n) == group.groupSteps
  {
  }

  lemma AtBound(g: Graph, x: Inst)
    requires Grouped(g) && IsInst(g, x)
    ensures var group := g.nodes[x.node].groupId;
      && Base(g, group) + x.step * NumOps(g, group) <= At(g, x)
      && At(g, x) < Base(g, group) + (x.step + 1) * NumOps(g, group) <= Base(g, group + 1) <= Base(g, |g.groups|)
  {
    hide Grouped, Steps;
    GroupOf(g, x.node);
    var group := g.nodes[x.node].groupId;
    var steps, ops, base := g.groups[group].groupSteps, NumOps(g, group), Base(g, group);
    var rel := RangeOps(g, g.groups[group].stNode, x.node);
    assert At(g, x) == base + rel + x.step * ops + x.index;
    assert rel + g.nodes[x.node].opsStep <= ops by {
      RangeOpsGrows(g, g.groups[group].stNode, x.node, g.groups[group].endNode + 1);
    }
    assert Base(g, group + 1) == base + steps * ops;
    BaseMonotone(g, group + 1, |g.groups|);
    hide RangeOps, NumOps, Base, At, Offset;
    WithinStep(base, x.step, ops, rel + x.index, steps);
  }

  lemma WithinStep(base: nat, step: nat, ops: nat, rel: nat, steps: nat)
    requires rel < ops && step < steps
    ensures base + step * ops + rel < base + (step + 1) * ops <= base + steps * ops
  {
    assert (step + 1) * ops == step * ops + ops;
    MulLe(step + 1, steps, ops);
  }

  // Distinct operations stand at distinct positions.
  lemma AtInjective(g: Graph, x: Inst, y: Inst)
    requires Grouped(g) && IsInst(g, x) && IsInst(g, y) && At(g, x) == At(g, y)
    ensures x == y
  {
    var gx, gy := g.nodes[x.node].groupId, g.nodes[y.node].groupId;
    if x.node == y.node && x.step == y.step {
    } else if Before(g, x, y) {
      BeforeIsEarlier(g, x, y);
    } else {
      BeforeIsEarlier(g, y, x);
    }
  }

  // x comes before y in program order because of its group, its step or its node.
  predicate Before(g: Graph, x: Inst, y: Inst)
    requires x.node < |g.nodes| && y.node < |g.nodes|
  {
    var gx, gy := g.nodes[x.node].groupId, g.nodes[y.node].groupId;
    gx < gy || (gx == gy && (x.step < y.step || (x.step == y.step && x.node < y.node)))
  }

  lemma BeforeIsEarlier(g: Graph, x: Inst, y: Inst)
    requires Grouped(g) && IsInst(g, x) && IsInst(g, y) && Before(g, x, y)
    ensures At(g, x) < At(g, y)
  {
    hide RangeOps, NumOps, Base;
    var gx, gy := g.nodes[x.node].groupId, g.nodes[y.node].groupId;
    AtBound(g, x);
    AtBound(g, y);
    if gx < gy {
      BaseMonotone(g, gx + 1, gy);
    } else if x.step < y.step {
      MulLe(x.step + 1, y.step, NumOps(g, gx));
    } else {
      RangeOpsGrows(g, g.groups[gx].stNode, x.node, y.node);
    }
  }

  // ---- Edges ----

  // The operations of m that wait for an operation of n in step k.
  function ConsumersIn(g: Graph, n: nat, k: nat, m: nat): seq<Inst>
    requires Grouped(g) && n < |g.nodes| && m < |g.nodes|
  {
    if SameGroup(g, n, m) then Ops(g, m, k) else AllOps(g, m, Steps(g, m))
  }

  // The operations of m in its first steps.
  function AllOps(g: Graph, m: nat, steps: nat): seq<Inst>
    requires m < |g.nodes|
  {
    if steps == 0 then [] else AllOps(g, m, steps - 1) + Ops(g, m, steps - 1)
  }

  // The operations that wait for an operation of n in step k, node by node.
  function Consumers(g: Graph, n: nat, k: nat, next: seq<nat>): seq<Inst>
    requires Grouped(g) && n < |g.nodes| && forall i :: 0 <= i < |next| ==> next[i] < |g.nodes|
    decreases |next|
  {
    if next == [] then []
    else Consumers(g, n, k, next[..|next| - 1]) + ConsumersIn(g, n, k, next[|next| - 1])
  }

  function ConsumersOf(g: Graph, n: nat, k: nat): seq<Inst>
    requires Grouped(g) && Linked(g) && n < |g.nodes|
  {
    Consumers(g, n, k, g.nodes[n].next)
  }

  // Edges into y from the operations of s.
  function Into(g: Graph, s: seq<Inst>, y: Inst): nat
    requires Grouped(g) && Linked(g) && InGraph(g, s)
    decreases |s|
  {
    if s == [] then 0
    else Into(g, s[..|s| - 1], y) + Count(ConsumersOf(g, s[|s| - 1].node, s[|s| - 1].step), y)
  }

  // What one edge between nodes adds to an operation's count of producers.
  function Weight(g: Graph, n: nat, m: nat): nat
    requires Grouped(g) && n < |g.nodes| && m < |g.nodes|
  {
    if SameGroup(g, n, m) then g.nodes[n].opsStep else g.nodes[n].opsStep * Steps(g, n)
  }

  function PrevTotal(g: Graph, prev: seq<nat>, m: nat): nat
    requires Grouped(g) && m < |g.nodes| && forall i :: 0 <= i < |prev| ==> prev[i] < |g.nodes|
    decreases |prev|
  {
    if prev == [] then 0 else PrevTotal(g, prev[..|prev| - 1], m) + Weight(g, prev[|prev| - 1], m)
  }

  // The number of producers of each operation of node m.
  function NumPrev(g: Graph, m: nat): nat
    requires Grouped(g) && Linked(g) && m < |g.nodes|
  {
    PrevTotal(g, g.nodes[m].prev, m)
  }
}
