// The operations of one global step in program order, with their edges as distances
// in that order: what the window of a core is filled with.
module Programs {
  import opened Counting
  import opened ExecGraph
  import opened Dependencies

  datatype ProgramOp = ProgramOp(kind: OpType, comp: nat, prev: nat, next: seq<nat>)

  // ops is one global step.
  datatype Program = Program(ops: seq<ProgramOp>)

  // Edges from position p to position q of the step.
  function EdgeCount(prog: Program, p: nat, q: nat): nat
    requires p < |prog.ops|
  {
    if p < q then Count<nat>(prog.ops[p].next, q - p) else 0
  }

  // Edges into position q from the first n positions.
  function InDegree(prog: Program, n: nat, q: nat): nat
    requires n <= |prog.ops|
    decreases n
  {
    if n == 0 then 0 else InDegree(prog, n - 1, q) + EdgeCount(prog, n - 1, q)
  }

  // Edges stay inside the step and every operation counts its producers.
  ghost predicate Exact(prog: Program) {
    && |prog.ops| >= 1
    && (forall p, e :: 0 <= p < |prog.ops| && 0 <= e < |prog.ops[p].next| ==>
          prog.ops[p].next[e] >= 1 && p + prog.ops[p].next[e] < |prog.ops|)
    && forall q :: 0 <= q < |prog.ops| ==> prog.ops[q].prev == InDegree(prog, |prog.ops|, q)
  }

  // ---- From the graph ----

  // Everything in c comes after x.
  ghost predicate AllLater(g: Graph, x: Inst, c: seq<Inst>)
    requires Grouped(g) && IsInst(g, x)
  {
    forall e :: 0 <= e < |c| ==> IsInst(g, c[e]) && At(g, c[e]) > At(g, x)
  }

  lemma {:induction false} ConsumersFollow(g: Graph, x: Inst, next: seq<nat>)
    requires Grouped(g) && IsInst(g, x)
    requires forall i :: 0 <= i < |next| ==> x.node < next[i] < |g.nodes|
    ensures AllLater(g, x, Consumers(g, x.node, x.step, next))
    decreases |next|
  {
    hide At;
    if next != [] {
      ConsumersFollow(g, x, next[..|next| - 1]);
      var m := next[|next| - 1];
      var c := ConsumersIn(g, x.node, x.step, m);
      AllOpsAreInst(g, m, Steps(g, m));
      GroupsAscend(g, x.node, m);
      assert AllLater(g, x, c) by {
        forall e | 0 <= e < |c| ensures IsInst(g, c[e]) && At(g, c[e]) > At(g, x) {
          BeforeIsEarlier(g, x, c[e]);
        }
      }
    }
  }

  lemma {:induction false} AllOpsAreInst(g: Graph, m: nat, steps: nat)
    requires Grouped(g) && m < |g.nodes| && steps <= Steps(g, m)
    ensures forall e :: 0 <= e < |AllOps(g, m, steps)| ==> IsInst(g, AllOps(g, m, steps)[e]) && AllOps(g, m, steps)[e].node == m
    decreases steps
  {
    if steps > 0 {
      AllOpsAreInst(g, m, steps - 1);
    }
  }

  // A later node is in the same group or a later one.
  lemma GroupsAscend(g: Graph, n: nat, m: nat)
    requires Grouped(g) && n < m < |g.nodes|
    ensures g.nodes[n].groupId <= g.nodes[m].groupId
  {
    if g.nodes[m].groupId < g.nodes[n].groupId {
      StartsAscend(g, g.nodes[m].groupId, g.nodes[n].groupId);
    }
  }

  lemma {:induction false} StartsAscend(g: Graph, a: nat, b: nat)
    requires Grouped(g) && a < b < |g.groups|
    ensures g.groups[a].endNode < g.groups[b].stNode
    decreases b
  {
    assert g.groups[b].stNode == g.groups[b - 1].endNode + 1;
    if a < b - 1 {
      StartsAscend(g, a, b - 1);
    }
  }

  lemma ConsumersOfFollow(g: Graph, x: Inst)
    requires Grouped(g) && Linked(g) && IsInst(g, x)
    ensures AllLater(g, x, ConsumersOf(g, x.node, x.step))
  {
    ConsumersFollow(g, x, g.nodes[x.node].next);
  }

  // The distances from x to the operations that wait for it.
  function NextOf(g: Graph, x: Inst): (next: seq<nat>)
    requires Grouped(g) && Linked(g) && IsInst(g, x)
    ensures var c := ConsumersOf(g, x.node, x.step);
      |next| == |c| && forall e :: 0 <= e < |c| ==> IsInst(g, c[e]) && next[e] == At(g, c[e]) - At(g, x)
  {
    ConsumersOfFollow(g, x);
    var c := ConsumersOf(g, x.node, x.step);
    seq(|c|, e requires 0 <= e < |c| => At(g, c[e]) - At(g, x))
  }

  function OpOf(g: Graph, x: Inst): ProgramOp
    requires Grouped(g) && Linked(g) && IsInst(g, x)
  {
    ProgramOp(g.nodes[x.node].op, g.nodes[x.node].comp, NumPrev(g, x.node), NextOf(g, x))
  }

  // The program of a block.
  function ProgramOf(g: Graph): (prog: Program)
    requires Grouped(g) && Linked(g)
    ensures |prog.ops| == |Walk(g)| == Base(g, |g.groups|)
    ensures forall p :: 0 <= p < |prog.ops| ==> IsInst(g, Walk(g)[p]) && prog.ops[p] == OpOf(g, Walk(g)[p])
  {
    WalkAt(g, |g.groups|);
    var w := Walk(g);
    Program(seq(|w|, p requires 0 <= p < |w| => OpOf(g, w[p])))
  }

  lemma {:induction false} CountDistances(g: Graph, x: Inst, y: Inst, c: seq<Inst>, next: seq<nat>)
    requires Grouped(g) && IsInst(g, y) && IsInst(g, x) && At(g, x) < At(g, y) && |c| == |next|
    requires forall e :: 0 <= e < |c| ==> IsInst(g, c[e]) && next[e] == At(g, c[e]) - At(g, x)
    ensures Count<nat>(next, At(g, y) - At(g, x)) == Count(c, y)
    decreases |c|
  {
    hide At, Steps;
    if c != [] {
      CountDistances(g, x, y, c[..|c| - 1], next[..|c| - 1]);
      if At(g, c[|c| - 1]) == At(g, y) {
        AtInjective(g, c[|c| - 1], y);
      }
    }
  }

  lemma EdgesAreConsumers(g: Graph, p: nat, q: nat)
    requires Grouped(g) && Linked(g) && p < |Walk(g)| && q < |Walk(g)|
    ensures p < |ProgramOf(g).ops|
    ensures EdgeCount(ProgramOf(g), p, q) == Count(ConsumersOf(g, Walk(g)[p].node, Walk(g)[p].step), Walk(g)[q])
  {
    hide Walk, ConsumersOf, At, IsInst;
    WalkAt2(g);
    var x, y := Walk(g)[p], Walk(g)[q];
    ConsumersOfFollow(g, x);
    var c := ConsumersOf(g, x.node, x.step);
    if p < q {
      CountDistances(g, x, y, c, NextOf(g, x));
    } else {
      CountNone(c, y);
    }
  }

  lemma WalkAt2(g: Graph)
    requires Grouped(g)
    ensures |Walk(g)| == Base(g, |g.groups|)
    ensures forall q :: 0 <= q < |Walk(g)| ==> IsInst(g, Walk(g)[q]) && At(g, Walk(g)[q]) == q
  {
    WalkAt(g, |g.groups|);
  }

  lemma {:induction false} InDegreeIsInto(g: Graph, n: nat, q: nat)
    requires Grouped(g) && Linked(g) && n <= |Walk(g)| && q < |Walk(g)|
    ensures n <= |ProgramOf(g).ops| && InDegree(ProgramOf(g), n, q) == Into(g, Walk(g)[..n], Walk(g)[q])
    decreases n
  {
    hide Walk, ConsumersOf, EdgeCount, Grouped, Linked, At, IsInst, ProgramOf, OpOf, Base;
    var prog, w := ProgramOf(g), Walk(g);
    if n > 0 {
      InDegreeIsInto(g, n - 1, q);
      EdgesAreConsumers(g, n - 1, q);
      assert w[..n][..n - 1] == w[..n - 1];
    }
  }

  // Counting producers ahead of time is exact: each operation of the program is
  // reached by as many edges as it starts out waiting for.
  lemma BlockIsExact(g: Graph)
    requires Grouped(g) && Linked(g) && |Walk(g)| >= 1
    ensures Exact(ProgramOf(g))
  {
    hide Walk, InDegree, ConsumersOf, Into, NumPrev, At, NextOf, Base, NumOps, Steps, Grouped, Linked;
    var prog, w := ProgramOf(g), Walk(g);
    WalkAt2(g);
    forall p, e | 0 <= p < |prog.ops| && 0 <= e < |prog.ops[p].next|
      ensures prog.ops[p].next[e] >= 1 && p + prog.ops[p].next[e] < |prog.ops|
    {
      ConsumersOfFollow(g, w[p]);
      AtBound(g, ConsumersOf(g, w[p].node, w[p].step)[e]);
    }
    forall q | 0 <= q < |prog.ops| ensures prog.ops[q].prev == InDegree(prog, |prog.ops|, q) {
      InDegreeIsInto(g, |w|, q);
      assert w[..|w|] == w;
      InDegreeIsExact(g, w[q]);
    }
  }
}
