// Every command goes to the rank, bank, row and column of its own address, wherever it is:
// in a queue, on the command bus, or in the history.
module PacketAddresses {
  import opened Wrappers
  import opened SystemConfiguration
  import opened AddressMapping
  import opened BankState
  import opened Scheduler
  import opened Channel
  import opened Conservation
  import opened ChannelSafety
  import opened OneCycle
  import opened RowHistory
  import opened TransactionLedger
  import opened Runs

  // Activates and column accesses stand for their address. Precharges and refreshes have
  // none.
  predicate AtItsAddress(c: Config, p: BusPacket) {
    p.kind == ACTIVATE || p.IsColumn() ==>
      var loc := Decode(c.geometry, p.address);
      p.rank == loc.rank && p.bank == loc.bank && p.row == loc.row && p.column == loc.column
  }

  predicate AllAtTheirAddress(c: Config, queues: seq<seq<seq<BusPacket>>>) {
    forall r :: 0 <= r < |queues| ==>
      forall i :: 0 <= i < |queues[r]| ==>
        forall j :: 0 <= j < |queues[r][i]| ==> AtItsAddress(c, queues[r][i][j])
  }

  // Packets that are not, counted.
  function Astray(c: Config): Weight {
    (p: BusPacket) => if AtItsAddress(c, p) then 0 else 1
  }

  lemma {:induction false} NoneInQueue(c: Config, queue: seq<BusPacket>, j: nat)
    requires InQueue(Astray(c), queue) == 0 && j < |queue|
    ensures AtItsAddress(c, queue[j])
  {
    hide AtItsAddress;
    if j < |queue| - 1 {
      NoneInQueue(c, queue[..|queue| - 1], j);
    }
  }

  lemma {:induction false} NoneInSlots(c: Config, slots: seq<seq<BusPacket>>, i: nat)
    requires InSlots(Astray(c), slots) == 0 && i < |slots|
    ensures InQueue(Astray(c), slots[i]) == 0
  {
    hide InQueue, Astray;
    if i < |slots| - 1 {
      NoneInSlots(c, slots[..|slots| - 1], i);
    }
  }

  lemma {:induction false} NoneInQueues(c: Config, queues: seq<seq<seq<BusPacket>>>, r: nat)
    requires InQueues(Astray(c), queues) == 0 && r < |queues|
    ensures InSlots(Astray(c), queues[r]) == 0
  {
    hide InSlots, Astray;
    if r < |queues| - 1 {
      NoneInQueues(c, queues[..|queues| - 1], r);
    }
  }

  lemma NoneAstray(c: Config, queues: seq<seq<seq<BusPacket>>>)
    requires InQueues(Astray(c), queues) == 0
    ensures AllAtTheirAddress(c, queues)
  {
    hide InQueues, InSlots, InQueue, AtItsAddress, Astray;
    forall r, i, j | 0 <= r < |queues| && 0 <= i < |queues[r]| && 0 <= j < |queues[r][i]|
      ensures AtItsAddress(c, queues[r][i][j])
    {
      NoneInQueues(c, queues, r);
      NoneInSlots(c, queues[r], i);
      NoneInQueue(c, queues[r][i], j);
    }
  }

  // A transaction's two commands.
  lemma CommandsOfTransaction(c: Config, tr: Transaction)
    ensures Astray(c)(CommandFor(c, ACTIVATE, tr)) == 0 && Astray(c)(CommandFor(c, CommandKind(c, tr), tr)) == 0
  {
    hide Decode;
  }

  lemma ExpandedAtAddress(c: Config, q: QueueState, q': QueueState)
    requires Shape(c, q) && InQueues(Astray(c), q.queues) == 0
    requires q'.queues == q.queues || exists tr: Transaction :: Expanded(c, q, tr, q')
    ensures InQueues(Astray(c), q'.queues) == 0
  {
    hide InQueues, Astray, CommandFor, CommandKind, Target, Put;
    if q'.queues != q.queues {
      var tr :| Expanded(c, q, tr, q');
      var cur := Target(c, tr);
      CommandsOfTransaction(c, tr);
      QueuedPair(Astray(c), q.queues, cur.rank, Slot(c, cur.bank), CommandFor(c, ACTIVATE, tr),
                 CommandFor(c, CommandKind(c, tr), tr));
    }
  }

  ghost predicate Addressed(c: Config, s: ChannelState) {
    && InQueues(Astray(c), s.mc.queue.queues) == 0
    && (s.mc.outgoingCmd.Some? ==> AtItsAddress(c, s.mc.outgoingCmd.value))
    && forall i :: 0 <= i < |s.mc.issued| && s.mc.issued[i].Some? ==> AtItsAddress(c, s.mc.issued[i].value)
  }

  lemma PoppedAtAddress(c: Config, t: int, banks: BankTable, q: QueueState)
    requires TableShape(c, banks) && Shape(c, q) && InQueues(Astray(c), q.queues) == 0
    ensures var (q', p) := PopSpec(c, t, banks, q);
      InQueues(Astray(c), q'.queues) == 0 && (p.Some? ==> AtItsAddress(c, p.value))
  {
    assert Counts(Astray(c));
    hide InQueues, PopSpec, AtItsAddress;
    PopConserves(c, t, banks, q, Astray(c));
  }

  lemma UpdateKeepsAddresses(c: Config, s: ChannelState)
    requires c.Valid() && WellFormed(c, s) && Safe(c, s) && Update(c, s).Ok? && Addressed(c, s)
    ensures Addressed(c, Update(c, s).value)
  {
    hide Safe, Update, PopState, PopSpec, AtDataBus, PoweredTable, Expanded, InQueues, Astray, AtItsAddress, AgeAll, DecAll,
         Restarted;
    CycleShape(c, s);
    PopStateIs(c, s);
    var s1, s' := PopState(c, s).value, Update(c, s).value;
    PoppedAtAddress(c, s.clock, s1.mc.banks, s1.mc.queue);
    ExpandedAtAddress(c, PopSpec(c, s.clock, s1.mc.banks, s1.mc.queue).0, s'.mc.queue);
  }

  lemma InitialAddresses(c: Config)
    ensures Addressed(c, Initial(c))
  {
    InitialIsEmpty(c);
    assert Initial(c).mc.outgoingCmd == None;
    hide Initial;
    NothingQueued(Astray(c), Initial(c).mc.queue.queues);
  }

  // In every run, every activate and every column access, queued, on the bus or issued,
  // names exactly the rank, bank, row and column that its own address decodes to.
  lemma EveryPacketIsAtItsAddress(c: Config, requests: seq<seq<Transaction>>)
    requires c.Valid()
    ensures Run(c, Initial(c), requests).Ok? ==>
      var m := Run(c, Initial(c), requests).value.mc;
      && AllAtTheirAddress(c, m.queue.queues)
      && (m.outgoingCmd.Some? ==> AtItsAddress(c, m.outgoingCmd.value))
      && forall i :: 0 <= i < |m.issued| && m.issued[i].Some? ==> AtItsAddress(c, m.issued[i].value)
  {
    hide Safe, Run, Initial, Update, WellFormed, InQueues, AtItsAddress, Astray, AllAtTheirAddress;
    if Run(c, Initial(c), requests).Ok? {
      InitialAddresses(c);
      var inv := (s: ChannelState) => Addressed(c, s);
      forall s, s' | Cycle(c, s, s') && inv(s) ensures inv(s') {
        UpdateKeepsAddresses(c, s);
      }
      RunKeeps(c, inv, requests);
      NoneAstray(c, Run(c, Initial(c), requests).value.mc.queue.queues);
    }
  }

  // In every run, a column access is issued while the row of its own address is open in
  // the rank and bank of its own address: no other row is ever read or written instead.
  lemma EveryAccessReachesItsRow(c: Config, requests: seq<seq<Transaction>>, i: nat)
    requires c.Valid()
    ensures Run(c, Initial(c), requests).Ok? ==>
      var issued := Run(c, Initial(c), requests).value.mc.issued;
      i < |issued| && issued[i].Some? && issued[i].value.IsColumn() ==>
        var loc := Decode(c.geometry, issued[i].value.address);
        OpenRow(issued[..i], loc.rank, loc.bank) == Some(loc.row)
  {
    hide Safe, Run, Initial, Update, WellFormed, OpenRow, Decode, AllAtTheirAddress;
    EveryPacketIsAtItsAddress(c, requests);
    EveryCommandFindsItsRow(c, requests);
  }
}
