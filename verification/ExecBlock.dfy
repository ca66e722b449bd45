// An execution block: linking its data nodes into a graph and laying the graph out
// in the order of one global step.
module ExecBlocks {
  import opened Wrappers
  import opened Counting
  import opened ExecGraph

  datatype GraphError = NoDataNodeAfterComp | UnevenComp | DependencyOnNothing | DependencyNotFound

  // An entry of a block's node list: a computation for the data node after it, or a
  // data node.
  datatype NodeRef = CompNode(ops: nat) | DataRef

  // ---- What laying out computes ----

  // Two graphs with the same edges and groups.
  ghost predicate SameEdges(g: Graph, h: Graph) {
    && |g.nodes| == |h.nodes| && |g.groups| == |h.groups|
    && (forall n :: 0 <= n < |g.nodes| ==>
          && g.nodes[n].groupId == h.nodes[n].groupId
          && g.nodes[n].prev == h.nodes[n].prev && g.nodes[n].next == h.nodes[n].next)
    && forall i :: 0 <= i < |g.groups| ==>
         && g.groups[i].stNode == h.groups[i].stNode && g.groups[i].endNode == h.groups[i].endNode
         && g.groups[i].groupSteps == h.groups[i].groupSteps
  }

  lemma SameEdgesSameShape(g: Graph, h: Graph)
    requires Grouped(g) && Linked(g) && SameEdges(g, h)
    ensures Grouped(h) && Linked(h)
  {
    hide Count;
    CompKeepsLinked(g, h);
  }

  // Each node with its number of accesses per step.
  function CountAccesses(nodes: seq<DataNode>, genAddr: (nat, nat) -> seq<nat>): (out: seq<DataNode>)
    ensures |out| == |nodes|
    ensures forall n :: 0 <= n < |out| ==> out[n] == nodes[n].(opsStep := |genAddr(n, 0)|)
  {
    seq(|nodes|, n requires 0 <= n < |nodes| => nodes[n].(opsStep := |genAddr(n, 0)|))
  }

  function WithOps(g: Graph, genAddr: (nat, nat) -> seq<nat>): (w: Graph)
    requires Grouped(g) && Linked(g)
    ensures Grouped(w) && Linked(w) && w.groups == g.groups && w.nodes == CountAccesses(g.nodes, genAddr)
  {
    hide Grouped, Linked;
    var w := g.(nodes := CountAccesses(g.nodes, genAddr));
    SameEdgesSameShape(g, w);
    w
  }

  // A node with the numbers that the layout of w gives it.
  function NodeIn(w: Graph, n: nat): DataNode
    requires Grouped(w) && Linked(w) && n < |w.nodes|
  {
    w.nodes[n].(offset := Offset(w, n), numPrevOps := NumPrev(w, n))
  }

  function LaidOut(g: Graph, genAddr: (nat, nat) -> seq<nat>): (h: Graph)
    requires Grouped(g) && Linked(g)
  {
    hide WithOps, Linked;
    var w := WithOps(g, genAddr);
    Graph(seq(|w.nodes|, n requires 0 <= n < |w.nodes| => NodeIn(w, n)),
          seq(|w.groups|, i requires 0 <= i < |w.groups| => w.groups[i].(numOps := NumOps(w, i))))
  }

  lemma LaidOutKeepsShape(g: Graph, genAddr: (nat, nat) -> seq<nat>)
    requires Grouped(g) && Linked(g)
    ensures var h := LaidOut(g, genAddr);
      && Grouped(h) && Linked(h) && SameLayout(WithOps(g, genAddr), h)
      && |h.nodes| == |g.nodes| && |h.groups| == |g.groups|
  {
    hide WithOps, Linked, Grouped, Offset, PrevTotal, NumOps;
    SameEdgesSameShape(WithOps(g, genAddr), LaidOut(g, genAddr));
  }

  // What the layout says about one node and its group.
  lemma LayoutAt(g: Graph, genAddr: (nat, nat) -> seq<nat>, group: nat, n: nat)
    requires Grouped(g) && Linked(g) && group < |g.groups|
    requires g.groups[group].stNode <= n <= g.groups[group].endNode
    ensures var w, h, lo := WithOps(g, genAddr), LaidOut(g, genAddr), g.groups[group].stNode;
      && n < |g.nodes| == |w.nodes| == |h.nodes| && |g.groups| == |h.groups|
      && g.nodes[n].groupId == group && w.nodes[n].opsStep == |genAddr(n, 0)|
      && (forall i :: 0 <= i < |g.nodes[n].prev| ==> g.nodes[n].prev[i] < n)
      && h.nodes[n] == g.nodes[n].(opsStep := |genAddr(n, 0)|, offset := Base(w, group) + RangeOps(w, lo, n),
                                   numPrevOps := NumPrev(w, n))
      && h.groups[group] == g.groups[group].(numOps := RangeOps(w, lo, g.groups[group].endNode + 1))
      && RangeOps(w, lo, n + 1) == RangeOps(w, lo, n) + |genAddr(n, 0)|
  {
    hide WithOps, Base, NumPrev, Grouped, Linked, CountAccesses;
    LaidOutKeepsShape(g, genAddr);
    InGroup(g, group, n);
    PrevsAreNodes(g, n);
  }

  lemma InGroup(g: Graph, group: nat, n: nat)
    requires Grouped(g) && group < |g.groups| && g.groups[group].stNode <= n <= g.groups[group].endNode
    ensures n < |g.nodes| && g.nodes[n].groupId == group && g.groups[group].endNode < |g.nodes|
  {
  }

  // The numbers kept in the nodes and groups are the ones the layout defines.
  ghost predicate IsLaidOut(g: Graph, genAddr: (nat, nat) -> seq<nat>)
    requires Grouped(g) && Linked(g)
  {
    && (forall n :: 0 <= n < |g.nodes| ==>
          && g.nodes[n].opsStep == |genAddr(n, 0)|
          && g.nodes[n].offset == Offset(g, n)
          && g.nodes[n].numPrevOps == NumPrev(g, n))
    && forall i :: 0 <= i < |g.groups| ==> g.groups[i].numOps == NumOps(g, i)
  }

  ghost predicate SameLayout(g: Graph, h: Graph) {
    SameEdges(g, h) && forall n :: 0 <= n < |g.nodes| ==> g.nodes[n].opsStep == h.nodes[n].opsStep
  }

  lemma {:induction false} SameRangeOps(g: Graph, h: Graph, lo: nat, hi: nat)
    requires SameLayout(g, h) && lo <= hi <= |g.nodes|
    ensures RangeOps(g, lo, hi) == RangeOps(h, lo, hi)
    decreases hi
  {
    if lo < hi {
      SameRangeOps(g, h, lo, hi - 1);
    }
  }

  lemma {:induction false} SameBase(g: Graph, h: Graph, group: nat)
    requires SameLayout(g, h) && Grouped(g) && Grouped(h) && group <= |g.groups|
    ensures Base(g, group) == Base(h, group)
    decreases group
  {
    hide RangeOps;
    if group > 0 {
      SameBase(g, h, group - 1);
      SameRangeOps(g, h, g.groups[group - 1].stNode, g.groups[group - 1].endNode + 1);
    }
  }

  lemma {:induction false} SamePrevTotal(g: Graph, h: Graph, prev: seq<nat>, m: nat)
    requires SameLayout(g, h) && Grouped(g) && Grouped(h) && m < |g.nodes|
    requires forall i :: 0 <= i < |prev| ==> prev[i] < |g.nodes|
    ensures PrevTotal(g, prev, m) == PrevTotal(h, prev, m)
    decreases |prev|
  {
    if prev != [] {
      SamePrevTotal(g, h, prev[..|prev| - 1], m);
    }
  }

  // Laying out a graph gives every node and group the numbers its own layout
  // defines.
  lemma LayoutIsConsistent(g: Graph, genAddr: (nat, nat) -> seq<nat>)
    requires Grouped(g) && Linked(g)
    ensures var h := LaidOut(g, genAddr);
      Grouped(h) && Linked(h) && IsLaidOut(h, genAddr) && Base(h, |h.groups|) == Base(WithOps(g, genAddr), |g.groups|)
  {
    hide WithOps, LaidOut, Base, Grouped, Linked, Offset, NumPrev, NumOps, SameLayout;
    var w, h := WithOps(g, genAddr), LaidOut(g, genAddr);
    LaidOutKeepsShape(g, genAddr);
    forall n | 0 <= n < |h.nodes|
      ensures h.nodes[n].opsStep == |genAddr(n, 0)|
      ensures h.nodes[n].offset == Offset(h, n) && h.nodes[n].numPrevOps == NumPrev(h, n)
    {
      NodeIsLaidOut(g, genAddr, n);
    }
    forall i | 0 <= i < |h.groups| ensures h.groups[i].numOps == NumOps(h, i) {
      GroupIsLaidOut(g, genAddr, i);
    }
    SameBase(w, h, |h.groups|);
  }

  lemma NodeIsLaidOut(g: Graph, genAddr: (nat, nat) -> seq<nat>, n: nat)
    requires Grouped(g) && Linked(g) && n < |g.nodes|
    requires Grouped(LaidOut(g, genAddr)) && Linked(LaidOut(g, genAddr))
    requires SameLayout(WithOps(g, genAddr), LaidOut(g, genAddr))
    ensures var h := LaidOut(g, genAddr);
      && n < |h.nodes| && h.nodes[n].opsStep == |genAddr(n, 0)| && h.nodes[n].offset == Offset(h, n)
      && h.nodes[n].numPrevOps == NumPrev(h, n)
  {
    hide WithOps, Grouped, Offset, PrevTotal;
    var w, h := WithOps(g, genAddr), LaidOut(g, genAddr);
    SameOffset(w, h, n);
    PrevsAreNodes(h, n);
    SamePrevTotal(w, h, h.nodes[n].prev, n);
  }

  lemma GroupIsLaidOut(g: Graph, genAddr: (nat, nat) -> seq<nat>, i: nat)
    requires Grouped(g) && Linked(g) && i < |g.groups|
    requires Grouped(LaidOut(g, genAddr)) && SameLayout(WithOps(g, genAddr), LaidOut(g, genAddr))
    ensures var h := LaidOut(g, genAddr);
      i < |h.groups| && h.groups[i].numOps == NumOps(h, i)
  {
    hide WithOps, Linked, RangeOps;
    var w, h := WithOps(g, genAddr), LaidOut(g, genAddr);
    SameRangeOps(w, h, h.groups[i].stNode, h.groups[i].endNode + 1);
  }

  lemma SameOffset(g: Graph, h: Graph, n: nat)
    requires SameLayout(g, h) && Grouped(g) && Grouped(h) && n < |g.nodes|
    ensures Offset(g, n) == Offset(h, n)
  {
    hide Base, RangeOps;
    SameBase(g, h, g.nodes[n].groupId);
    SameRangeOps(g, h, g.groups[g.nodes[n].groupId].stNode, n);
  }

  lemma PrevsAreNodes(g: Graph, n: nat)
    requires Linked(g) && n < |g.nodes|
    ensures forall i :: 0 <= i < |g.nodes[n].prev| ==> g.nodes[n].prev[i] < n
  {
  }

  lemma RangeOpsNone(g: Graph, lo: nat)
    requires lo <= |g.nodes|
    ensures RangeOps(g, lo, lo) == 0
  {
  }

  lemma BaseNext(g: Graph, group: nat)
    requires Grouped(g) && group < |g.groups|
    ensures Base(g, group + 1) == Base(g, group) + g.groups[group].groupSteps * NumOps(g, group)
  {
  }

  // ---- Linking ----

  // What later changes leave of the data nodes.
  ghost predicate KeepsNodes(before: seq<DataNode>, after: seq<DataNode>) {
    && |after| == |before|
    && forall n :: 0 <= n < |before| ==>
         && after[n].name == before[n].name && after[n].op == before[n].op
         && after[n].accesses == before[n].accesses && after[n].dependency == before[n].dependency
         && after[n].numPrevOps == before[n].numPrevOps
  }

  // Node j is the last one before n that is called dep.
  ghost predicate Nearest(nodes: seq<DataNode>, n: nat, dep: string, j: nat)
    requires n < |nodes|
  {
    j < n && nodes[j].name == dep && forall i :: j < i < n ==> nodes[i].name != dep
  }

  // The first k dependencies of node n lead to the nearest earlier nodes so named.
  ghost predicate Resolved(nodes: seq<DataNode>, n: nat, k: nat)
    requires n < |nodes|
  {
    && k <= |nodes[n].dependency| && |nodes[n].prev| == k
    && forall i :: 0 <= i < k ==> Nearest(nodes, n, nodes[n].dependency[i], nodes[n].prev[i])
  }

  // The nodes below pos have all their dependencies, the others none.
  ghost predicate ResolvedUpTo(nodes: seq<DataNode>, pos: nat) {
    && pos <= |nodes|
    && (forall n :: 0 <= n < pos ==> Resolved(nodes, n, |nodes[n].dependency|))
    && forall n :: pos <= n < |nodes| ==> nodes[n].prev == []
  }

  lemma StaysResolved(before: seq<DataNode>, after: seq<DataNode>, pos: nat)
    requires ResolvedUpTo(before, pos) && KeepsNodes(before, after)
    requires forall n :: 0 <= n < |before| ==> after[n].prev == before[n].prev
    ensures ResolvedUpTo(after, pos)
  {
    forall n | 0 <= n < pos ensures Resolved(after, n, |after[n].dependency|) {
      assert Resolved(before, n, |before[n].dependency|);
      forall i | 0 <= i < |after[n].dependency|
        ensures Nearest(after, n, after[n].dependency[i], after[n].prev[i])
      {
        assert Nearest(before, n, before[n].dependency[i], before[n].prev[i]);
      }
    }
  }

  lemma LinkKeepsResolved(before: seq<DataNode>, after: seq<DataNode>, pos: nat)
    requires ResolvedUpTo(before, pos) && KeepsNodes(before, after) && pos < |before|
    requires forall n :: 0 <= n < |before| && n != pos ==> after[n].prev == before[n].prev
    requires Resolved(after, pos, |after[pos].dependency|)
    ensures ResolvedUpTo(after, pos + 1)
  {
    forall n | 0 <= n < pos ensures Resolved(after, n, |after[n].dependency|) {
      assert Resolved(before, n, |before[n].dependency|);
      forall i | 0 <= i < |after[n].dependency|
        ensures Nearest(after, n, after[n].dependency[i], after[n].prev[i])
      {
        assert Nearest(before, n, before[n].dependency[i], before[n].prev[i]);
      }
    }
  }

  // Data nodes among the first i entries.
  function DataRefs(list: seq<NodeRef>, i: nat): nat
    requires i <= |list|
  {
    if i == 0 then 0 else DataRefs(list, i - 1) + if list[i - 1].DataRef? then 1 else 0
  }

  lemma {:induction false} DataRefsGrow(list: seq<NodeRef>, i: nat, j: nat)
    requires i <= j <= |list|
    ensures DataRefs(list, i) <= DataRefs(list, j)
    decreases j
  {
    if i < j {
      DataRefsGrow(list, i, j - 1);
    }
  }

  // A computation was spread over the accesses of the data node after it.
  ghost predicate SpreadAt(list: seq<NodeRef>, nodes: seq<DataNode>, k: nat)
    requires k < |list|
  {
    list[k].CompNode? ==>
      var n := DataRefs(list, k);
      && k + 1 < |list| && list[k + 1].DataRef? && n < |nodes| && nodes[n].comp * nodes[n].accesses == list[k].ops
  }

  ghost predicate SpreadUpTo(list: seq<NodeRef>, nodes: seq<DataNode>, i: nat)
    requires i <= |list|
  {
    forall k :: 0 <= k < i ==> SpreadAt(list, nodes, k)
  }

  // The nodes below pos are cut into runs of equal step counts.
  ghost predicate PlacedUpTo(nodes: seq<DataNode>, groups: seq<NodeGroup>, control: nat, pos: nat)
    requires control > 0
  {
    && pos <= |nodes|
    && Grouped(Graph(nodes[..pos], groups))
    && (forall n :: 0 <= n < pos ==> Steps(Graph(nodes[..pos], groups), n) == nodes[n].accesses / control)
    && (forall i :: 0 < i < |groups| ==> groups[i - 1].groupSteps != groups[i].groupSteps)
    && forall i :: 0 <= i < |groups| ==> groups[i].numOps == 0
  }

  ghost predicate Built(list: seq<NodeRef>, before: seq<DataNode>, nodes: seq<DataNode>, groups: seq<NodeGroup>,
                        control: nat, i: nat, pos: nat)
    requires control > 0 && i <= |list|
  {
    && PlacedUpTo(nodes, groups, control, pos) && Linked(Graph(nodes, groups)) && KeepsNodes(before, nodes)
    && ResolvedUpTo(nodes, pos) && SpreadUpTo(list, nodes, i)
  }

  lemma NodesArePlaced(nodes: seq<DataNode>, groups: seq<NodeGroup>, control: nat, pos: nat)
    requires control > 0 && PlacedUpTo(nodes, groups, control, pos)
    ensures forall n :: 0 <= n < pos ==> nodes[n].groupId < |groups|
    ensures forall n :: 0 <= n < pos ==> groups[nodes[n].groupId].groupSteps == nodes[n].accesses / control
  {
    forall n | 0 <= n < pos
      ensures nodes[n].groupId < |groups| && groups[nodes[n].groupId].groupSteps == nodes[n].accesses / control
    {
      GroupOf(Graph(nodes[..pos], groups), n);
    }
  }

  lemma LinkKeepsPlaced(before: seq<DataNode>, after: seq<DataNode>, groups: seq<NodeGroup>, control: nat, pos: nat)
    requires control > 0 && PlacedUpTo(before, groups, control, pos) && KeepsNodes(before, after)
    requires forall n :: 0 <= n < |before| ==> after[n].groupId == before[n].groupId
    ensures PlacedUpTo(after, groups, control, pos)
  {
    hide Grouped;
    CompKeepsGrouped(Graph(before[..pos], groups), Graph(after[..pos], groups));
    NodesArePlaced(before, groups, control, pos);
  }

  lemma KeepsSpread(list: seq<NodeRef>, before: seq<DataNode>, after: seq<DataNode>, i: nat)
    requires i < |list| && SpreadUpTo(list, before, i) && KeepsNodes(before, after) && list[i].DataRef?
    requires forall n :: 0 <= n < |before| ==> after[n].comp == before[n].comp
    ensures SpreadUpTo(list, after, i + 1)
  {
    forall k | 0 <= k < i + 1 ensures SpreadAt(list, after, k) {
      assert k < i ==> SpreadAt(list, before, k);
    }
  }

  lemma CompKeepsBuilt(list: seq<NodeRef>, before: seq<DataNode>, was: seq<DataNode>, nodes: seq<DataNode>,
                       groups: seq<NodeGroup>, control: nat, i: nat, pos: nat)
    requires control > 0 && i < |list| && Built(list, before, was, groups, control, i, pos)
    requires pos == DataRefs(list, i) && list[i].CompNode? && i + 1 < |list| && list[i + 1].DataRef? && pos < |nodes| == |was|
    requires forall n :: 0 <= n < |nodes| ==> nodes[n] == was[n].(comp := if n == pos then nodes[n].comp else was[n].comp)
    requires nodes[pos].comp * nodes[pos].accesses == list[i].ops
    ensures Built(list, before, nodes, groups, control, i + 1, pos)
  {
    hide Linked, PlacedUpTo, ResolvedUpTo;
    assert KeepsNodes(was, nodes);
    LinkKeepsPlaced(was, nodes, groups, control, pos);
    CompKeepsLinked(Graph(was, groups), Graph(nodes, groups));
    StaysResolved(was, nodes, pos);
    forall k | 0 <= k < i + 1 ensures SpreadAt(list, nodes, k) {
      if k < i {
        assert SpreadAt(list, was, k);
        if list[k].CompNode? {
          assert list[k + 1].DataRef?;
          DataRefsGrow(list, k + 2, i);
        }
      }
    }
  }

  // ---- The block ----

  class ExecBlock {
    const genAddr: (nat, nat) -> seq<nat>
    const globalControl: nat
    const nodeList: seq<NodeRef>
    var datanodes: seq<DataNode>
    var nodegroups: seq<NodeGroup>
    var windowSize: nat

    function TheGraph(): Graph
      reads this
    {
      Graph(datanodes, nodegroups)
    }

    constructor (genAddr: (nat, nat) -> seq<nat>, globalControl: nat, nodeList: seq<NodeRef>, datanodes: seq<DataNode>)
      ensures this.genAddr == genAddr && this.globalControl == globalControl
      ensures this.nodeList == nodeList && this.datanodes == datanodes && nodegroups == [] && windowSize == 0
    {
      this.genAddr, this.globalControl, this.nodeList, this.datanodes := genAddr, globalControl, nodeList, datanodes;
      nodegroups, windowSize := [], 0;
    }

    // ---- Linking ----

    method AddEdge(j: nat, pos: nat)
      requires j < pos < |datanodes| && Linked(TheGraph())
      modifies `datanodes
      ensures Linked(TheGraph()) && KeepsNodes(old(datanodes), datanodes)
      ensures forall n :: 0 <= n < |datanodes| ==>
        && datanodes[n].prev == old(datanodes)[n].prev + (if n == pos then [j] else [])
        && datanodes[n].groupId == old(datanodes)[n].groupId && datanodes[n].comp == old(datanodes)[n].comp
    {
      hide Linked;
      ghost var before := datanodes;
      datanodes := datanodes[pos := datanodes[pos].(prev := datanodes[pos].prev + [j])];
      datanodes := datanodes[j := datanodes[j].(next := datanodes[j].next + [pos])];
      EdgeKeepsLinked(Graph(before, nodegroups), TheGraph(), j, pos);
    }

    // The nearest earlier node of that name, if there is one.
    method FindDependency(dep: string, pos: nat) returns (found: bool, j: nat)
      requires pos < |datanodes|
      ensures found ==> Nearest(datanodes, pos, dep, j)
      ensures !found ==> forall i :: 0 <= i < pos ==> datanodes[i].name != dep
    {
      found, j := false, 0;
      var i := pos;
      while i > 0
        invariant 0 <= i <= pos && !found
        invariant forall a :: i <= a < pos ==> datanodes[a].name != dep
      {
        i := i - 1;
        if datanodes[i].name == dep {
          return true, i;
        }
      }
    }

    method LinkNode(pos: nat) returns (error: Option<GraphError>)
      requires pos < |datanodes| && Linked(TheGraph()) && datanodes[pos].prev == []
      modifies `datanodes
      ensures error.None? ==>
        && Linked(TheGraph()) && KeepsNodes(old(datanodes), datanodes) && Resolved(datanodes, pos, |datanodes[pos].dependency|)
        && forall n :: 0 <= n < |datanodes| ==>
             && (n != pos ==> datanodes[n].prev == old(datanodes)[n].prev)
             && datanodes[n].groupId == old(datanodes)[n].groupId && datanodes[n].comp == old(datanodes)[n].comp
      ensures error.Some? ==>
        if pos == 0 then error.value == DependencyOnNothing
        else
          && error.value == DependencyNotFound
          && exists i :: 0 <= i < |old(datanodes)[pos].dependency|
               && forall j :: 0 <= j < pos ==> old(datanodes)[j].name != old(datanodes)[pos].dependency[i]
    {
      hide Linked;
      error := None;
      var dependency := datanodes[pos].dependency;
      var i := 0;
      while i < |dependency|
        invariant 0 <= i <= |dependency| && |datanodes| == |old(datanodes)|
        invariant Linked(TheGraph()) && KeepsNodes(old(datanodes), datanodes) && Resolved(datanodes, pos, i)
        invariant forall n :: 0 <= n < |datanodes| ==>
          && (n != pos ==> datanodes[n].prev == old(datanodes)[n].prev)
          && datanodes[n].groupId == old(datanodes)[n].groupId && datanodes[n].comp == old(datanodes)[n].comp
      {
        if pos == 0 {
          return Some(DependencyOnNothing);
        }
        var found, j := FindDependency(dependency[i], pos);
        if !found {
          return Some(DependencyNotFound);
        }
        AddEdge(j, pos);
        i := i + 1;
      }
    }

    // Put a node into the last group, or open a group for it.
    method PlaceNode(pos: nat)
      requires pos < |datanodes| && globalControl > 0 && datanodes[pos].accesses >= globalControl
      requires PlacedUpTo(datanodes, nodegroups, globalControl, pos)
      modifies this`datanodes, this`nodegroups
      ensures PlacedUpTo(datanodes, nodegroups, globalControl, pos + 1) && KeepsNodes(old(datanodes), datanodes) && |datanodes| == |old(datanodes)|
      ensures forall n :: 0 <= n < |datanodes| ==>
        datanodes[n].prev == old(datanodes)[n].prev && datanodes[n].next == old(datanodes)[n].next
        && datanodes[n].comp == old(datanodes)[n].comp
    {
      hide Grouped, PlacedUpTo;
      StepsArePositive(datanodes[pos].accesses);
      var steps := datanodes[pos].accesses / globalControl;
      if |nodegroups| == 0 || steps != nodegroups[|nodegroups| - 1].groupSteps {
        PlacedInNew(datanodes, nodegroups, globalControl, pos, steps);
        nodegroups := nodegroups + [NodeGroup(pos, pos, steps, 0)];
      } else {
        var last := |nodegroups| - 1;
        PlacedInLast(datanodes, nodegroups, globalControl, pos, steps);
        nodegroups := nodegroups[last := nodegroups[last].(endNode := nodegroups[last].endNode + 1)];
      }
      datanodes := datanodes[pos := datanodes[pos].(groupId := |nodegroups| - 1)];
    }

    lemma StepsArePositive(accesses: nat)
      requires globalControl > 0 && accesses >= globalControl
      ensures accesses / globalControl >= 1
    {
    }

    // Spread a computation over the accesses of the data node after it.
    method SetComp(i: nat, ops: nat, pos: nat) returns (error: Option<GraphError>)
      requires i < |nodeList| && pos < |datanodes| ==> datanodes[pos].accesses > 0
      requires i < |nodeList| && pos == DataRefs(nodeList, i) && DataRefs(nodeList, |nodeList|) <= |datanodes|
      modifies `datanodes
      ensures |datanodes| == |old(datanodes)|
      ensures error.None? ==>
        && i + 1 < |nodeList| && nodeList[i + 1].DataRef? && pos < |datanodes|
        && datanodes[pos].comp * datanodes[pos].accesses == ops
      ensures forall n :: 0 <= n < |datanodes| ==>
        datanodes[n] == old(datanodes)[n].(comp := if n == pos then datanodes[n].comp else old(datanodes)[n].comp)
      ensures error.Some? ==>
        if i + 1 < |nodeList| && nodeList[i + 1].DataRef? then
          error.value == UnevenComp && pos < |datanodes| && ops % datanodes[pos].accesses != 0
        else error.value == NoDataNodeAfterComp
    {
      if i + 1 >= |nodeList| || nodeList[i + 1].CompNode? {
        return Some(NoDataNodeAfterComp);
      }
      DataRefsGrow(nodeList, i + 2, |nodeList|);
      var accesses := datanodes[pos].accesses;
      if ops % accesses != 0 {
        return Some(UnevenComp);
      }
      datanodes := datanodes[pos := datanodes[pos].(comp := ops / accesses)];
      error := None;
    }

    // The first i entries of the node list, with their pos data nodes, have been visited.
    ghost predicate BuiltUpTo(before: seq<DataNode>, i: nat, pos: nat)
      requires globalControl > 0
      reads this
    {
      && i <= |nodeList| && pos == DataRefs(nodeList, i) <= DataRefs(nodeList, |nodeList|) <= |datanodes|
      && Built(nodeList, before, datanodes, nodegroups, globalControl, i, pos)
    }

    method VisitComp(i: nat, pos: nat, ghost before: seq<DataNode>) returns (error: Option<GraphError>)
      requires globalControl > 0 && BuiltUpTo(before, i, pos) && i < |nodeList| && nodeList[i].CompNode?
      requires forall n :: 0 <= n < |before| ==> before[n].accesses >= globalControl
      modifies `datanodes
      ensures error.None? ==> BuiltUpTo(before, i + 1, pos)
    {
      hide Linked, PlacedUpTo, ResolvedUpTo, SpreadUpTo;
      ghost var was := datanodes;
      error := SetComp(i, nodeList[i].ops, pos);
      if error.None? {
        CompKeepsBuilt(nodeList, before, was, datanodes, nodegroups, globalControl, i, pos);
      }
    }

    method VisitData(i: nat, pos: nat, ghost before: seq<DataNode>) returns (error: Option<GraphError>)
      requires globalControl > 0 && BuiltUpTo(before, i, pos) && i < |nodeList| && nodeList[i].DataRef?
      requires forall n :: 0 <= n < |before| ==> before[n].accesses >= globalControl
      modifies `datanodes, `nodegroups
      ensures error.None? ==> BuiltUpTo(before, i + 1, pos + 1)
    {
      hide Linked, PlacedUpTo, Resolved, SpreadUpTo, DataRefs;
      OneMoreRef(i);
      ghost var was, groups := datanodes, nodegroups;
      error := LinkNode(pos);
      if error.None? {
        ghost var linked := datanodes;
        LinkKeepsPlaced(was, linked, groups, globalControl, pos);
        PlaceNode(pos);
        LinkKeepsResolved(was, linked, pos);
        StaysResolved(linked, datanodes, pos + 1);
        CompKeepsLinked(Graph(linked, groups), TheGraph());
        KeepsSpread(nodeList, was, datanodes, i);
      }
    }

    lemma OneMoreRef(i: nat)
      requires i < |nodeList| && nodeList[i].DataRef?
      ensures DataRefs(nodeList, i + 1) == DataRefs(nodeList, i) + 1 <= DataRefs(nodeList, |nodeList|)
    {
      DataRefsGrow(nodeList, i + 1, |nodeList|);
    }

    lemma StartsBuilt()
      requires globalControl > 0 && nodegroups == [] && Linked(TheGraph())
      requires DataRefs(nodeList, |nodeList|) == |datanodes|
      requires forall n :: 0 <= n < |datanodes| ==> datanodes[n].prev == []
      ensures BuiltUpTo(datanodes, 0, 0)
    {
      hide Linked;
    }

    // Link the data nodes by their named dependencies and group them by step count.
    method BuildExecgraph() returns (error: Option<GraphError>)
      requires globalControl > 0 && nodegroups == [] && DataRefs(nodeList, |nodeList|) == |datanodes|
      requires forall n :: 0 <= n < |datanodes| ==>
        && datanodes[n].prev == [] && datanodes[n].next == [] && datanodes[n].numPrevOps == 0
        && datanodes[n].accesses >= globalControl
      modifies `datanodes, `nodegroups
      ensures error.None? ==>
        && Grouped(TheGraph()) && Linked(TheGraph()) && PlacedUpTo(datanodes, nodegroups, globalControl, |datanodes|) && KeepsNodes(old(datanodes), datanodes)
        && ResolvedUpTo(datanodes, |datanodes|)
        && SpreadUpTo(nodeList, datanodes, |nodeList|)
    {
      hide Steps, Grouped, ResolvedUpTo;
      ghost var before := datanodes;
      var pos := 0;
      var i := 0;
      NothingLinked(TheGraph());
      hide Linked, Resolved, SpreadUpTo;
      StartsBuilt();
      while i < |nodeList|
        invariant BuiltUpTo(before, i, pos)
      {
        match nodeList[i] {
          case CompNode(_) =>
            error := VisitComp(i, pos, before);
            if error.Some? { return; }
          case DataRef =>
            error := VisitData(i, pos, before);
            if error.Some? { return; }
            pos := pos + 1;
        }
        i := i + 1;
      }
      assert datanodes[..pos] == datanodes;
      error := None;
    }

    // ---- Layout ----

    // What is known when step `step` of group `group` has visited the nodes below hi.
    ghost predicate VisitedUpTo(g: Graph, group: nat, step: nat, hi: nat)
      requires Grouped(g) && Linked(g)
      reads this
    {
      var w, h := WithOps(g, genAddr), LaidOut(g, genAddr);
      && group < |g.groups| && step < g.groups[group].groupSteps
      && g.groups[group].stNode <= hi <= g.groups[group].endNode + 1
      && windowSize == Base(w, group) + step * NumOps(w, group) + RangeOps(w, g.groups[group].stNode, hi)
      && NodesDone(g, h, if step == 0 then hi else g.groups[group].endNode + 1)
      && GroupsDone(g, h, group, if step == 0 then RangeOps(w, g.groups[group].stNode, hi) else h.groups[group].numOps)
    }

    ghost predicate NodesDone(g: Graph, h: Graph, hi: nat)
      requires |h.nodes| == |g.nodes|
      reads this
    {
      && |datanodes| == |g.nodes|
      && forall n :: 0 <= n < |g.nodes| ==> datanodes[n] == if n < hi then h.nodes[n] else g.nodes[n]
    }

    ghost predicate GroupsDone(g: Graph, h: Graph, group: nat, numOps: nat)
      requires |h.groups| == |g.groups|
      reads this
    {
      && |nodegroups| == |g.groups|
      && forall i :: 0 <= i < |g.groups| ==>
           nodegroups[i] ==
             if i < group then h.groups[i] else if i == group then g.groups[i].(numOps := numOps) else g.groups[i]
    }

    // Visit one node in one step of its group.
    method VisitNode(group: nat, step: nat, n: nat, ghost g: Graph)
      requires Grouped(g) && Linked(g) && (forall k: nat, s: nat :: |genAddr(k, s)| == |genAddr(k, 0)|)
      requires forall k :: 0 <= k < |g.nodes| ==> g.nodes[k].numPrevOps == 0
      requires VisitedUpTo(g, group, step, n) && n <= g.groups[group].endNode
      modifies this
      ensures VisitedUpTo(g, group, step, n + 1)
    {
      hide Base, Grouped, Linked, WithOps, LaidOut, RangeOps, PrevTotal;
      LayoutAt(g, genAddr, group, n);
      ghost var w, h := WithOps(g, genAddr), LaidOut(g, genAddr);
      var ops := |genAddr(n, step)|;
      if step == 0 {
        var numPrevOps := PrevOps(group, n, g);
        datanodes := datanodes[n := datanodes[n].(opsStep := ops, offset := windowSize, numPrevOps := numPrevOps)];
        nodegroups := nodegroups[group := nodegroups[group].(numOps := nodegroups[group].numOps + ops)];
      } else {
        datanodes := datanodes[n := datanodes[n].(opsStep := ops)];
      }
      windowSize := windowSize + ops;
    }

    // The number of producers of node n, from the nodes before it.
    method PrevOps(group: nat, n: nat, ghost g: Graph) returns (total: nat)
      requires Grouped(g) && Linked(g) && VisitedUpTo(g, group, 0, n) && n <= g.groups[group].endNode
      requires g.nodes[n].numPrevOps == 0
      ensures total == NumPrev(WithOps(g, genAddr), n)
    {
      hide VisitedUpTo, Base, Linked, Grouped, WithOps, LaidOut, RangeOps, Weight, CountAccesses;
      NodeAt(g, group, n);
      LayoutAt(g, genAddr, group, n);
      ghost var w := WithOps(g, genAddr);
      var prev := datanodes[n].prev;
      total := datanodes[n].numPrevOps;
      var i := 0;
      while i < |prev|
        invariant 0 <= i <= |prev| && total == PrevTotal(w, prev[..i], n)
      {
        var j := prev[i];
        ProducerAt(g, group, n, j);
        var from := datanodes[j].groupId;
        if from == group {
          total := total + datanodes[j].opsStep;
        } else {
          total := total + datanodes[j].opsStep * nodegroups[from].groupSteps;
        }
        assert prev[..i + 1][..i] == prev[..i];
        i := i + 1;
      }
      assert prev[..i] == prev;
    }

    lemma NodeAt(g: Graph, group: nat, n: nat)
      requires Grouped(g) && Linked(g) && VisitedUpTo(g, group, 0, n) && n <= g.groups[group].endNode
      ensures n < |datanodes| && datanodes[n] == g.nodes[n] && group < |g.groups| && g.groups[group].stNode <= n
    {
      hide Base, WithOps, LaidOut, RangeOps, Linked;
    }

    // A producer of node n has been visited already.
    lemma ProducerAt(g: Graph, group: nat, n: nat, j: nat)
      requires Grouped(g) && Linked(g) && VisitedUpTo(g, group, 0, n) && j < n <= g.groups[group].endNode
      ensures j < |datanodes| == |g.nodes| && datanodes[j].groupId < |nodegroups|
      ensures var w := WithOps(g, genAddr);
        && w.nodes[n].groupId == group
        && Weight(w, j, n) == datanodes[j].opsStep
             * if datanodes[j].groupId == group then 1 else nodegroups[datanodes[j].groupId].groupSteps
    {
      hide Base, WithOps, RangeOps, Linked, PrevTotal, LaidOut, NumOps, CountAccesses;
      LaidOutKeepsShape(g, genAddr);
    }

    // One global walk through all groups sets every offset, every count of producers
    // and the size of the window.
    method InitOffsets()
      requires Grouped(TheGraph()) && Linked(TheGraph()) && |nodegroups| > 0
      requires forall k: nat, s: nat :: |genAddr(k, s)| == |genAddr(k, 0)|
      requires forall n :: 0 <= n < |datanodes| ==> datanodes[n].numPrevOps == 0
      requires forall i :: 0 <= i < |nodegroups| ==> nodegroups[i].numOps == 0
      modifies this
      ensures TheGraph() == LaidOut(old(TheGraph()), genAddr)
      ensures Grouped(TheGraph()) && Linked(TheGraph()) && IsLaidOut(TheGraph(), genAddr)
      ensures windowSize == |Walk(TheGraph())|
    {
      hide NodeIn, NumOps, IsInst, GroupsDone, CountAccesses, NodesDone;
      ghost var g := TheGraph();
      ghost var w, h := WithOps(g, genAddr), LaidOut(g, genAddr);
      hide WithOps, LaidOut, RangeOps, Linked, VisitedUpTo, IsLaidOut, Base, GroupsWalk, At;
      windowSize := 0;
      NothingVisited(g);
      var currGroupId, currGroupStep := 0, 0;
      var done := false;
      while !done
        invariant done ==> TheGraph() == h && windowSize == Base(w, |g.groups|)
        invariant !done ==> currGroupId < |g.groups|
        invariant !done ==> VisitedUpTo(g, currGroupId, currGroupStep, g.groups[currGroupId].stNode)
        decreases if done then 0 else 1, |g.groups| - currGroupId,
          if done then 0 else g.groups[currGroupId].groupSteps - currGroupStep
      {
        currGroupId, currGroupStep, done := VisitStep(currGroupId, currGroupStep, g);
      }
      LayoutIsConsistent(g, genAddr);
      WalkAt(h, |h.groups|);
    }

    // One step of one group, and which step comes next.
    method VisitStep(group: nat, step: nat, ghost g: Graph) returns (group': nat, step': nat, done: bool)
      requires Grouped(g) && Linked(g) && (forall k: nat, s: nat :: |genAddr(k, s)| == |genAddr(k, 0)|)
      requires forall k :: 0 <= k < |g.nodes| ==> g.nodes[k].numPrevOps == 0
      requires forall i :: 0 <= i < |g.groups| ==> g.groups[i].numOps == 0
      requires group < |g.groups| && VisitedUpTo(g, group, step, g.groups[group].stNode)
      modifies this
      ensures done ==>
        TheGraph() == LaidOut(g, genAddr) && windowSize == Base(WithOps(g, genAddr), |g.groups|)
      ensures !done ==> group' < |g.groups| && VisitedUpTo(g, group', step', g.groups[group'].stNode)
      ensures !done ==> group' > group || (group' == group && step' > step)
    {
      hide VisitedUpTo, WithOps, LaidOut, RangeOps, Linked, Base;
      GroupAt(g, group, step, g.groups[group].stNode);
      var n := nodegroups[group].stNode;
      var end := nodegroups[group].endNode;
      while n <= end
        invariant g.groups[group].stNode <= n <= end + 1 && VisitedUpTo(g, group, step, n)
      {
        VisitNode(group, step, n, g);
        n := n + 1;
      }
      GroupAt(g, group, step, n);
      NextStep(g, group, step);
      group', step', done := group, step + 1, false;
      if step' == nodegroups[group].groupSteps {
        step' := 0;
        group' := group + 1;
        done := group' == |nodegroups|;
      }
    }

    lemma NothingVisited(g: Graph)
      requires Grouped(g) && Linked(g) && |g.groups| > 0 && TheGraph() == g && windowSize == 0
      requires forall i :: 0 <= i < |g.groups| ==> g.groups[i].numOps == 0
      ensures VisitedUpTo(g, 0, 0, g.groups[0].stNode)
    {
      hide WithOps, LaidOut, RangeOps, Linked;
      LaidOutKeepsShape(g, genAddr);
      var w, h := WithOps(g, genAddr), LaidOut(g, genAddr);
      RangeOpsNone(w, g.groups[0].stNode);
      assert 0 * NumOps(w, 0) == 0 && Base(w, 0) == 0;
      assert g.groups[0].stNode == 0 && datanodes == g.nodes;
      assert NodesDone(g, h, 0);
      assert GroupsDone(g, h, 0, 0);
    }

    lemma GroupAt(g: Graph, group: nat, step: nat, hi: nat)
      requires Grouped(g) && Linked(g) && VisitedUpTo(g, group, step, hi)
      ensures |nodegroups| == |g.groups| && group < |g.groups| && nodegroups[group].stNode == g.groups[group].stNode
      ensures nodegroups[group].endNode == g.groups[group].endNode
      ensures nodegroups[group].groupSteps == g.groups[group].groupSteps > step
    {
      hide WithOps, RangeOps, Linked, Base;
    }

    // A step that has visited its whole group leads to the next step or group.
    lemma NextStep(g: Graph, group: nat, step: nat)
      requires Grouped(g) && Linked(g)
      requires group < |g.groups| && VisitedUpTo(g, group, step, g.groups[group].endNode + 1)
      requires forall i :: 0 <= i < |g.groups| ==> g.groups[i].numOps == 0
      ensures step + 1 < g.groups[group].groupSteps ==> VisitedUpTo(g, group, step + 1, g.groups[group].stNode)
      ensures step + 1 == g.groups[group].groupSteps && group + 1 < |g.groups| ==>
        VisitedUpTo(g, group + 1, 0, g.groups[group + 1].stNode)
      ensures step + 1 == g.groups[group].groupSteps && group + 1 == |g.groups| ==>
        TheGraph() == LaidOut(g, genAddr) && windowSize == Base(WithOps(g, genAddr), |g.groups|)
    {
      hide WithOps, Linked, LaidOut, NodesDone, GroupsDone, RangeOps, Base;
      var w, h := WithOps(g, genAddr), LaidOut(g, genAddr);
      LayoutAt(g, genAddr, group, g.groups[group].endNode);
      BaseNext(w, group);
      RangeOpsNone(w, g.groups[group].stNode);
      if group + 1 < |g.groups| {
        RangeOpsNone(w, g.groups[group + 1].stNode);
      }
      assert (step + 1) * NumOps(w, group) == step * NumOps(w, group) + NumOps(w, group);
      assert NodesDone(g, h, g.groups[group].endNode + 1) && GroupsDone(g, h, group, h.groups[group].numOps);
      NextGroup(g, h, group);
    }

    lemma NextGroup(g: Graph, h: Graph, group: nat)
      requires Grouped(g) && |h.groups| == |g.groups| && |h.nodes| == |g.nodes| && group < |g.groups|
      requires h.groups[group] == g.groups[group].(numOps := h.groups[group].numOps)
      requires forall i :: 0 <= i < |g.groups| ==> g.groups[i].numOps == 0
      requires NodesDone(g, h, g.groups[group].endNode + 1) && GroupsDone(g, h, group, h.groups[group].numOps)
      ensures group + 1 < |g.groups| ==> GroupsDone(g, h, group + 1, 0)
      ensures group + 1 == |g.groups| ==> TheGraph() == h
    {
      if group + 1 == |g.groups| {
        assert datanodes == h.nodes && nodegroups == h.groups;
      }
    }
  }

  // A node that opens a group of its own.
  lemma OpenGroup(nodes: seq<DataNode>, groups: seq<NodeGroup>, node: DataNode, steps: nat)
    requires Grouped(Graph(nodes, groups)) && steps >= 1 && node.groupId == |groups|
    ensures Grouped(Graph(nodes + [node], groups + [NodeGroup(|nodes|, |nodes|, steps, 0)]))
  {
  }

  // A node that joins the last group.
  lemma ExtendGroup(nodes: seq<DataNode>, groups: seq<NodeGroup>, node: DataNode)
    requires Grouped(Graph(nodes, groups)) && |groups| > 0 && node.groupId == |groups| - 1
    ensures var last := |groups| - 1;
      Grouped(Graph(nodes + [node], groups[last := groups[last].(endNode := groups[last].endNode + 1)]))
  {
  }

  // Node pos opens a group of its own.
  lemma PlacedInNew(nodes: seq<DataNode>, groups: seq<NodeGroup>, control: nat, pos: nat, steps: nat)
    requires control > 0 && pos < |nodes| && PlacedUpTo(nodes, groups, control, pos)
    requires steps == nodes[pos].accesses / control && steps >= 1
    requires |groups| == 0 || steps != groups[|groups| - 1].groupSteps
    ensures PlacedUpTo(nodes[pos := nodes[pos].(groupId := |groups|)], groups + [NodeGroup(pos, pos, steps, 0)],
                       control, pos + 1)
  {
    hide Grouped;
    var node := nodes[pos].(groupId := |groups|);
    NodesArePlaced(nodes, groups, control, pos);
    OpenGroup(nodes[..pos], groups, node, steps);
    assert nodes[pos := node][..pos + 1] == nodes[..pos] + [node];
  }

  // Node pos joins the last group.
  lemma PlacedInLast(nodes: seq<DataNode>, groups: seq<NodeGroup>, control: nat, pos: nat, steps: nat)
    requires control > 0 && pos < |nodes| && PlacedUpTo(nodes, groups, control, pos)
    requires steps == nodes[pos].accesses / control && |groups| > 0 && steps == groups[|groups| - 1].groupSteps
    ensures var last := |groups| - 1;
      PlacedUpTo(nodes[pos := nodes[pos].(groupId := last)],
                 groups[last := groups[last].(endNode := groups[last].endNode + 1)], control, pos + 1)
  {
    hide Grouped;
    var last := |groups| - 1;
    var node := nodes[pos].(groupId := last);
    NodesArePlaced(nodes, groups, control, pos);
    ExtendGroup(nodes[..pos], groups, node);
    assert nodes[pos := node][..pos + 1] == nodes[..pos] + [node];
  }

  // One more edge, recorded at both ends, keeps every edge recorded at both ends.
  lemma EdgeKeepsLinked(g: Graph, h: Graph, j: nat, pos: nat)
    requires Linked(g) && j < pos < |g.nodes| == |h.nodes|
    requires forall n :: 0 <= n < |g.nodes| ==>
      && h.nodes[n].prev == g.nodes[n].prev + (if n == pos then [j] else [])
      && h.nodes[n].next == g.nodes[n].next + (if n == j then [pos] else [])
    ensures Linked(h)
  {
    hide Count;
    forall n: nat, m: nat | n < |h.nodes| && m < |h.nodes|
      ensures Count<nat>(h.nodes[n].next, m) == Count<nat>(h.nodes[m].prev, n)
    {
      assert Count<nat>(g.nodes[n].next, m) == Count<nat>(g.nodes[m].prev, n);
      CountAppended(g.nodes[n].next, if n == j then [pos] else [], m);
      CountAppended(g.nodes[m].prev, if m == pos then [j] else [], n);
    }
  }

  lemma CompKeepsLinked(g: Graph, h: Graph)
    requires Linked(g) && |g.nodes| == |h.nodes|
    requires forall n :: 0 <= n < |g.nodes| ==> h.nodes[n].prev == g.nodes[n].prev && h.nodes[n].next == g.nodes[n].next
    ensures Linked(h)
  {
    hide Count;
    forall n: nat, m: nat | n < |h.nodes| && m < |h.nodes|
      ensures Count<nat>(h.nodes[n].next, m) == Count<nat>(h.nodes[m].prev, n)
    {
      assert Count<nat>(g.nodes[n].next, m) == Count<nat>(g.nodes[m].prev, n);
    }
  }

  lemma CompKeepsGrouped(g: Graph, h: Graph)
    requires Grouped(g) && |g.nodes| == |h.nodes| && g.groups == h.groups
    requires forall n :: 0 <= n < |g.nodes| ==> h.nodes[n].groupId == g.nodes[n].groupId
    ensures Grouped(h)
  {
  }

  lemma CountAppended(s: seq<nat>, t: seq<nat>, x: nat)
    requires |t| <= 1
    ensures Count<nat>(s + t, x) == Count<nat>(s, x) + if t == [x] then 1 else 0
  {
    CountConcat<nat>(s, t, x);
  }

  lemma NothingLinked(g: Graph)
    requires forall n :: 0 <= n < |g.nodes| ==> g.nodes[n].prev == [] && g.nodes[n].next == []
    ensures Linked(g)
  {
  }
}
