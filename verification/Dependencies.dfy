// The number of producers that is computed for a node is the number of edges that
// reach each of its operations.
module Dependencies {
  import opened Counting
  import opened ExecGraph

  // ---- Edges between two nodes ----

  lemma CountOps(g: Graph, m: nat, k: nat, y: Inst)
    requires Grouped(g) && IsInst(g, y) && m < |g.nodes|
    ensures Count(Ops(g, m, k), y) == if m == y.node && k == y.step then 1 else 0
  {
    if m == y.node && k == y.step {
      CountOne(Ops(g, m, k), y, y.index);
    } else {
      CountNone(Ops(g, m, k), y);
    }
  }

  lemma {:induction false} CountAllOps(g: Graph, m: nat, steps: nat, y: Inst)
    requires Grouped(g) && IsInst(g, y) && m < |g.nodes|
    ensures Count(AllOps(g, m, steps), y) == if m == y.node && y.step < steps then 1 else 0
    decreases steps
  {
    hide IsInst, Grouped, Ops;
    if steps > 0 {
      CountAllOps(g, m, steps - 1, y);
      CountOps(g, m, steps - 1, y);
      CountConcat(AllOps(g, m, steps - 1), Ops(g, m, steps - 1), y);
    }
  }

  // Whether an edge from a node in step k reaches the operations of y's step.
  function Reaches(g: Graph, n: nat, k: nat, y: Inst): nat
    requires n < |g.nodes| && y.node < |g.nodes|
  {
    if SameGroup(g, n, y.node) && k != y.step then 0 else 1
  }

  lemma CountConsumersIn(g: Graph, n: nat, k: nat, m: nat, y: Inst)
    requires Grouped(g) && IsInst(g, y) && n < |g.nodes| && m < |g.nodes|
    ensures Count(ConsumersIn(g, n, k, m), y) == if m == y.node then Reaches(g, n, k, y) else 0
  {
    hide Ops, AllOps, Count;
    CountOps(g, m, k, y);
    CountAllOps(g, m, Steps(g, m), y);
  }

  lemma {:induction false} CountConsumers(g: Graph, n: nat, k: nat, next: seq<nat>, y: Inst)
    requires Grouped(g) && IsInst(g, y) && n < |g.nodes|
    requires forall i :: 0 <= i < |next| ==> next[i] < |g.nodes|
    ensures Count(Consumers(g, n, k, next), y) == Count<nat>(next, y.node) * Reaches(g, n, k, y)
    decreases |next|
  {
    hide ConsumersIn, Reaches, Grouped, Steps;
    if next != [] {
      var rest, m := next[..|next| - 1], next[|next| - 1];
      CountConsumers(g, n, k, rest, y);
      CountConsumersIn(g, n, k, m, y);
      CountConcat(Consumers(g, n, k, rest), ConsumersIn(g, n, k, m), y);
      var c, r := Count<nat>(rest, y.node), Reaches(g, n, k, y);
      assert (c + 1) * r == c * r + r;
    }
  }

  // ---- Edges from stretches of the walk ----

  lemma {:induction false} IntoConcat(g: Graph, s: seq<Inst>, t: seq<Inst>, y: Inst)
    requires Grouped(g) && Linked(g)
    requires InGraph(g, s) && InGraph(g, t)
    ensures Into(g, s + t, y) == Into(g, s, y) + Into(g, t, y)
    decreases |t|
  {
    if t == [] {
      assert s + t == s;
    } else {
      assert (s + t)[..|s + t| - 1] == s + t[..|t| - 1];
      IntoConcat(g, s, t[..|t| - 1], y);
    }
  }

  lemma IntoNothing(g: Graph, y: Inst)
    requires Grouped(g) && Linked(g)
    ensures Into(g, [], y) == 0
  {
  }

  // Edges into y from one step of node n.
  lemma {:induction false} IntoOps(g: Graph, n: nat, k: nat, s: seq<Inst>, y: Inst)
    requires Grouped(g) && Linked(g) && IsInst(g, y) && n < |g.nodes|
    requires forall i :: 0 <= i < |s| ==> s[i].node == n && s[i].step == k
    ensures Into(g, s, y) == |s| * (Count<nat>(g.nodes[n].next, y.node) * Reaches(g, n, k, y))
    decreases |s|
  {
    if s != [] {
      IntoOps(g, n, k, s[..|s| - 1], y);
      CountConsumers(g, n, k, g.nodes[n].next, y);
      var e := Count<nat>(g.nodes[n].next, y.node) * Reaches(g, n, k, y);
      assert |s| * e == (|s| - 1) * e + e;
    }
  }

  // Edges between nodes lo .. hi - 1 and node m, counted once per operation.
  function Flow(g: Graph, lo: nat, hi: nat, m: nat): nat
    requires lo <= hi <= |g.nodes|
    decreases hi
  {
    if hi == lo then 0 else Flow(g, lo, hi - 1, m) + g.nodes[hi - 1].opsStep * Count<nat>(g.nodes[hi - 1].next, m)
  }

  lemma {:induction false} IntoNodes(g: Graph, group: nat, k: nat, hi: nat, y: Inst)
    requires Grouped(g) && Linked(g) && IsInst(g, y) && group < |g.groups|
    requires g.groups[group].stNode <= hi <= g.groups[group].endNode + 1
    ensures Into(g, NodesWalk(g, k, g.groups[group].stNode, hi), y) ==
      if group == g.nodes[y.node].groupId && k != y.step then 0 else Flow(g, g.groups[group].stNode, hi, y.node)
    decreases hi
  {
    hide Into, Ops, Linked, Steps, IsInst;
    var lo := g.groups[group].stNode;
    if hi == lo {
      IntoNothing(g, y);
    } else {
      IntoNodes(g, group, k, hi - 1, y);
      assert g.nodes[hi - 1].groupId == group;
      IntoOps(g, hi - 1, k, Ops(g, hi - 1, k), y);
      IntoConcat(g, NodesWalk(g, k, lo, hi - 1), Ops(g, hi - 1, k), y);
    }
  }

  function GroupFlow(g: Graph, group: nat, m: nat): nat
    requires Grouped(g) && group < |g.groups|
  {
    Flow(g, g.groups[group].stNode, g.groups[group].endNode + 1, m)
  }

  lemma {:induction false} IntoSteps(g: Graph, group: nat, k: nat, y: Inst)
    requires Grouped(g) && Linked(g) && IsInst(g, y) && group < |g.groups| && k <= g.groups[group].groupSteps
    ensures Into(g, StepsWalk(g, group, k), y) ==
      GroupFlow(g, group, y.node) * if group != g.nodes[y.node].groupId then k else if y.step < k then 1 else 0
    decreases k
  {
    hide Flow, Into, NodesWalk;
    if k == 0 {
      IntoNothing(g, y);
    } else {
      var hi := g.groups[group].endNode + 1;
      var s, t := StepsWalk(g, group, k - 1), NodesWalk(g, k - 1, g.groups[group].stNode, hi);
      IntoSteps(g, group, k - 1, y);
      IntoNodes(g, group, k - 1, hi, y);
      IntoConcat(g, s, t, y);
      assert GroupFlow(g, group, y.node) * k == GroupFlow(g, group, y.node) * (k - 1) + GroupFlow(g, group, y.node);
    }
  }

  // Edges into m from the first nodes, weighted as the stored count weighs them.
  function WeightedFlow(g: Graph, hi: nat, m: nat): nat
    requires Grouped(g) && hi <= |g.nodes| && m < |g.nodes|
    decreases hi
  {
    if hi == 0 then 0 else WeightedFlow(g, hi - 1, m) + Weight(g, hi - 1, m) * Count<nat>(g.nodes[hi - 1].next, m)
  }

  lemma NoFlow(g: Graph, m: nat)
    requires Grouped(g) && m < |g.nodes|
    ensures WeightedFlow(g, 0, m) == 0
  {
  }

  lemma {:induction false} GroupFlowIsWeighted(g: Graph, group: nat, hi: nat, m: nat)
    requires Grouped(g) && group < |g.groups| && m < |g.nodes|
    requires g.groups[group].stNode <= hi <= g.groups[group].endNode + 1
    ensures WeightedFlow(g, hi, m) == WeightedFlow(g, g.groups[group].stNode, m)
      + Flow(g, g.groups[group].stNode, hi, m)
        * if group == g.nodes[m].groupId then 1 else g.groups[group].groupSteps
    decreases hi
  {
    hide Count;
    var lo := g.groups[group].stNode;
    var x := if group == g.nodes[m].groupId then 1 else g.groups[group].groupSteps;
    if hi > lo {
      GroupFlowIsWeighted(g, group, hi - 1, m);
      var f, o, e := Flow(g, lo, hi - 1, m), g.nodes[hi - 1].opsStep, Count<nat>(g.nodes[hi - 1].next, m);
      assert Weight(g, hi - 1, m) == o * x;
      hide Grouped, Weight;
      assert Flow(g, lo, hi, m) == f + o * e;
      Regroup(f, o, e, x);
    }
  }

  lemma Regroup(f: nat, o: nat, e: nat, x: nat)
    ensures (f + o * e) * x == f * x + (o * x) * e
  {
    assert (f + o * e) * x == f * x + (o * e) * x;
    assert (o * e) * x == o * (e * x) == o * (x * e) == (o * x) * e;
  }

  lemma {:induction false} IntoGroups(g: Graph, groups: nat, y: Inst)
    requires Grouped(g) && Linked(g) && IsInst(g, y) && groups <= |g.groups|
    ensures Into(g, GroupsWalk(g, groups), y)
         == WeightedFlow(g, if groups == 0 then 0 else g.groups[groups - 1].endNode + 1, y.node)
    decreases groups
  {
    hide Flow, Into, StepsWalk, WeightedFlow;
    if groups == 0 {
      IntoNothing(g, y);
      assert WeightedFlow(g, 0, y.node) == 0 by { NoFlow(g, y.node); }
    } else {
      var steps := g.groups[groups - 1].groupSteps;
      IntoGroups(g, groups - 1, y);
      IntoSteps(g, groups - 1, steps, y);
      IntoConcat(g, GroupsWalk(g, groups - 1), StepsWalk(g, groups - 1, steps), y);
      GroupFlowIsWeighted(g, groups - 1, g.groups[groups - 1].endNode + 1, y.node);
    }
  }

  // ---- The stored count ----

  // A sum over edges is the sum over a list of their sources.
  function Spread(g: Graph, prev: seq<nat>, hi: nat, m: nat): nat
    requires Grouped(g) && hi <= |g.nodes| && m < |g.nodes|
    decreases hi
  {
    if hi == 0 then 0 else Spread(g, prev, hi - 1, m) + Weight(g, hi - 1, m) * Count<nat>(prev, hi - 1)
  }

  lemma {:induction false} SpreadLast(g: Graph, prev: seq<nat>, hi: nat, m: nat)
    requires Grouped(g) && hi <= |g.nodes| && m < |g.nodes| && prev != []
    requires prev[|prev| - 1] < |g.nodes|
    ensures Spread(g, prev, hi, m) == Spread(g, prev[..|prev| - 1], hi, m)
      + if prev[|prev| - 1] < hi then Weight(g, prev[|prev| - 1], m) else 0
    decreases hi
  {
    hide Weight, Grouped;
    if hi > 0 {
      SpreadLast(g, prev, hi - 1, m);
      var w, a := Weight(g, hi - 1, m), Count<nat>(prev[..|prev| - 1], hi - 1);
      assert w * (a + 1) == w * a + w;
    }
  }

  lemma {:induction false} SpreadNothing(g: Graph, hi: nat, m: nat)
    requires Grouped(g) && hi <= |g.nodes| && m < |g.nodes|
    ensures Spread(g, [], hi, m) == 0
    decreases hi
  {
    if hi > 0 {
      SpreadNothing(g, hi - 1, m);
    }
  }

  lemma {:induction false} SpreadIsPrevTotal(g: Graph, prev: seq<nat>, m: nat)
    requires Grouped(g) && m < |g.nodes| && forall i :: 0 <= i < |prev| ==> prev[i] < |g.nodes|
    ensures Spread(g, prev, |g.nodes|, m) == PrevTotal(g, prev, m)
    decreases |prev|
  {
    if prev == [] {
      SpreadNothing(g, |g.nodes|, m);
    } else {
      SpreadIsPrevTotal(g, prev[..|prev| - 1], m);
      SpreadLast(g, prev, |g.nodes|, m);
    }
  }

  lemma {:induction false} FlowIsSpread(g: Graph, hi: nat, m: nat)
    requires Grouped(g) && Linked(g) && hi <= |g.nodes| && m < |g.nodes|
    ensures WeightedFlow(g, hi, m) == Spread(g, g.nodes[m].prev, hi, m)
    decreases hi
  {
    hide Weight, Grouped;
    if hi > 0 {
      FlowIsSpread(g, hi - 1, m);
      assert Count<nat>(g.nodes[hi - 1].next, m) == Count<nat>(g.nodes[m].prev, hi - 1);
    }
  }

  // Every operation of a global step has exactly as many edges into it as its node
  // has producers: one per access inside a group, one per access and step across.
  lemma InDegreeIsExact(g: Graph, y: Inst)
    requires Grouped(g) && Linked(g) && IsInst(g, y)
    ensures Into(g, Walk(g), y) == NumPrev(g, y.node)
  {
    hide Into, GroupsWalk, WeightedFlow, Spread, PrevTotal;
    IntoGroups(g, |g.groups|, y);
    FlowIsSpread(g, |g.nodes|, y.node);
    SpreadIsPrevTotal(g, g.nodes[y.node].prev, y.node);
  }
}
