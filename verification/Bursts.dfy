// Bursts of data on their way, and what a command history says of them.
module Bursts {
  import opened Wrappers
  import opened BankState

  // A burst and the cycles until its last beat has been delivered.
  datatype Burst = Burst(data: BusPacket, due: nat)

  // One cycle later: everything is one cycle nearer, and what is due has gone.
  function Later(bursts: seq<Burst>): seq<Burst> {
    if bursts == [] then []
    else
      var x := bursts[|bursts| - 1];
      Later(bursts[..|bursts| - 1]) + if x.due > 1 then [x.(due := x.due - 1)] else []
  }

  function DueNow(bursts: seq<Burst>): Option<BusPacket> {
    if bursts != [] && bursts[0].due == 1 then Some(bursts[0].data) else None
  }

  lemma {:induction false} LaterConcat(a: seq<Burst>, b: seq<Burst>)
    ensures Later(a + b) == Later(a) + Later(b)
    decreases |b|
  {
    if b == [] {
      assert a + b == a;
    } else {
      LaterConcat(a, b[..|b| - 1]);
      assert (a + b)[..|a + b| - 1] == a + b[..|b| - 1];
    }
  }

  lemma {:induction false} LaterAll(bursts: seq<Burst>, later: seq<Burst>)
    requires |later| == |bursts|
    requires forall i :: 0 <= i < |bursts| ==> bursts[i].due > 1 && later[i] == bursts[i].(due := bursts[i].due - 1)
    ensures Later(bursts) == later
    decreases |bursts|
  {
    if bursts != [] {
      LaterAll(bursts[..|bursts| - 1], later[..|later| - 1]);
      assert later == later[..|later| - 1] + [later[|later| - 1]];
    }
  }

  lemma LaterOne(x: Burst)
    ensures Later([x]) == if x.due > 1 then [x.(due := x.due - 1)] else []
  {
    assert [x][..0] == [];
    assert Later([]) == [];
  }

  // The bursts of the selected commands of a history, each due n cycles after its command
  // was taken; the last command was taken `age` cycles ago.
  function Due(n: nat, selected: Option<BusPacket> -> bool, h: seq<Option<BusPacket>>, age: nat): seq<Burst> {
    if h == [] || age >= n then []
    else
      var x := h[|h| - 1];
      Due(n, selected, h[..|h| - 1], age + 1)
      + if x.Some? && selected(x) then [Burst(x.value.(kind := DATA), n - age)] else []
  }

  lemma {:induction false} DueLater(n: nat, selected: Option<BusPacket> -> bool, h: seq<Option<BusPacket>>, age: nat)
    ensures Later(Due(n, selected, h, age)) == Due(n, selected, h, age + 1)
    decreases |h|
  {
    if h != [] && age < n {
      var x := h[|h| - 1];
      var last := if x.Some? && selected(x) then [Burst(x.value.(kind := DATA), n - age)] else [];
      DueLater(n, selected, h[..|h| - 1], age + 1);
      LaterConcat(Due(n, selected, h[..|h| - 1], age + 1), last);
      if last != [] {
        LaterOne(last[0]);
      }
    }
  }

  // The burst that is due belongs to the command that was taken n cycles ago.
  lemma {:induction false} DueIsOldest(n: nat, selected: Option<BusPacket> -> bool, h: seq<Option<BusPacket>>, age: nat)
    requires age < n
    ensures var i := |h| - n + age;
      DueNow(Due(n, selected, h, age)) ==
        if i >= 0 && h[i].Some? && selected(h[i]) then Some(h[i].value.(kind := DATA)) else None
    decreases |h|
  {
    if h != [] {
      var rest := h[..|h| - 1];
      if age + 1 < n {
        DueIsOldest(n, selected, rest, age + 1);
      } else {
        assert Due(n, selected, rest, age + 1) == [];
      }
    }
  }

  // Every selected command of the last n cycles has its burst among them, and there are no
  // others.
  lemma {:induction false} DueHolds(n: nat, selected: Option<BusPacket> -> bool, h: seq<Option<BusPacket>>, age: nat, i: nat)
    requires i < |h| && h[i].Some? && selected(h[i]) && |h| - 1 - i + age < n
    ensures Burst(h[i].value.(kind := DATA), n - (|h| - 1 - i + age)) in Due(n, selected, h, age)
    decreases |h|
  {
    if i < |h| - 1 {
      DueHolds(n, selected, h[..|h| - 1], age + 1, i);
    }
  }

  lemma {:induction false} DueComesFrom(n: nat, selected: Option<BusPacket> -> bool, h: seq<Option<BusPacket>>, age: nat,
                                        x: Burst)
    returns (i: nat)
    requires x in Due(n, selected, h, age)
    ensures i < |h| && h[i].Some? && selected(h[i]) && |h| - 1 - i + age < n
    ensures x == Burst(h[i].value.(kind := DATA), n - (|h| - 1 - i + age))
    decreases |h|
  {
    var last := h[|h| - 1];
    if x in Due(n, selected, h[..|h| - 1], age + 1) {
      i := DueComesFrom(n, selected, h[..|h| - 1], age + 1, x);
    } else {
      i := |h| - 1;
    }
  }
}
