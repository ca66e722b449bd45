// One memory channel as a step machine: the ranks, the controller and what
// MemorySystem::update does to them in one cycle. Every error exit of the simulator
// is a Halt.
module Channel {
  import opened Wrappers
  import opened SystemConfiguration
  import opened AddressMapping
  import opened BankState
  import opened Scheduler
  import opened QueueInvariant
  import opened Sequences

  datatype Error =
    | RankRejectedCommand
    | PowerDownRejected
    | PowerUpRejected
    | NotADataPacket
    | DataBusCollision
    | CommandBusCollision
    | QueueOverflow
    | NoMatchingRead

  datatype Transaction = Transaction(isWrite: bool, address: nat)

  datatype RankState = RankState(
    banks: seq<Bank>,
    isPowerDown: bool,
    refreshWaiting: bool,
    readReturnPacket: seq<BusPacket>,
    readReturnCountdown: seq<nat>,
    outgoing: Option<BusPacket>,
    dataCyclesLeft: nat)

  // `issued` and `returned` record what the command bus carried, cycle by cycle,
  // and the read callbacks made so far.
  datatype ControllerState = ControllerState(
    banks: BankTable,
    queue: QueueState,
    outgoingCmd: Option<BusPacket>,
    cmdCyclesLeft: nat,
    outgoingData: Option<BusPacket>,
    dataCyclesLeft: nat,
    writeDataToSend: seq<BusPacket>,
    writeDataCountdown: seq<nat>,
    transactionQueue: seq<Transaction>,
    returnTransaction: seq<nat>,
    pendingReads: seq<nat>,
    refreshCountdown: seq<nat>,
    refreshRank: nat,
    powerDown: seq<bool>,
    issued: seq<Option<BusPacket>>,
    returned: seq<nat>)

  datatype ChannelState = ChannelState(
    clock: nat,
    mc: ControllerState,
    ranks: seq<RankState>,
    pending: seq<Transaction>)

  predicate WellFormed(c: Config, s: ChannelState) {
    && TableShape(c, s.mc.banks) && Shape(c, s.mc.queue)
    && |s.ranks| == c.NumRanks()
    && (forall r :: 0 <= r < |s.ranks| ==> |s.ranks[r].banks| == c.NumBanks())
    && |s.mc.refreshCountdown| == c.NumRanks() && |s.mc.powerDown| == c.NumRanks()
    && s.mc.refreshRank < c.NumRanks()
    && |s.mc.writeDataToSend| == |s.mc.writeDataCountdown|
    && (forall r :: 0 <= r < |s.ranks| ==> |s.ranks[r].readReturnPacket| == |s.ranks[r].readReturnCountdown|)
    && (s.mc.outgoingCmd.Some? ==> s.mc.outgoingCmd.value.rank < c.NumRanks())
  }

  // ---- Rank ----

  function RankReceive(c: Config, t: int, k: RankState, p: BusPacket): Result<RankState, Error> {
    if !Accepts(t, k.banks, p) then Halt(RankRejectedCommand)
    else
      var k' := k.(banks := seq(|k.banks|, b requires 0 <= b < |k.banks| => Apply(c, t, p, b, k.banks[b])),
                   refreshWaiting := k.refreshWaiting && p.kind != REFRESH);
      Ok(if p.IsRead() then
           k'.(readReturnPacket := k.readReturnPacket + [p.(kind := DATA)],
               readReturnCountdown := k.readReturnCountdown + [c.RL()])
         else k')
  }

  function DecAll(s: seq<nat>): seq<nat> {
    seq(|s|, i requires 0 <= i < |s| => Dec32(s[i]))
  }

  // One cycle of a rank's data output: the packet whose burst ends is delivered, and
  // the packet whose read latency ends takes the output slot.
  function RankUpdate(c: Config, k: RankState): (r: (RankState, Option<BusPacket>))
    requires |k.readReturnPacket| == |k.readReturnCountdown|
  {
    var left := if k.outgoing.Some? then Dec32(k.dataCyclesLeft) else k.dataCyclesLeft;
    var done := k.outgoing.Some? && left == 0;
    var k1 := k.(dataCyclesLeft := left, outgoing := if done then None else k.outgoing,
                 readReturnCountdown := DecAll(k.readReturnCountdown));
    (if |k1.readReturnCountdown| > 0 && k1.readReturnCountdown[0] == 0 then
       k1.(outgoing := Some(k1.readReturnPacket[0]), dataCyclesLeft := c.BL / 2,
           readReturnPacket := k1.readReturnPacket[1..], readReturnCountdown := k1.readReturnCountdown[1..])
     else k1,
     if done then k.outgoing else None)
  }

  function RankPowerDown(c: Config, t: int, k: RankState): Result<RankState, Error> {
    if exists b :: 0 <= b < |k.banks| && k.banks[b].state != Idle then Halt(PowerDownRejected)
    else
      Ok(k.(isPowerDown := true,
            banks := seq(|k.banks|, b requires 0 <= b < |k.banks| =>
                       k.banks[b].(nextPowerUp := t + c.tCKE, state := PowerDown))))
  }

  function RankPowerUp(c: Config, t: int, k: RankState): Result<RankState, Error> {
    if !k.isPowerDown || exists b :: 0 <= b < |k.banks| && k.banks[b].nextPowerUp > t then Halt(PowerUpRejected)
    else
      Ok(k.(isPowerDown := false,
            banks := seq(|k.banks|, b requires 0 <= b < |k.banks| =>
                       k.banks[b].(nextActivate := t + c.tXP, state := Idle))))
  }

  // ---- The phases of MemoryController::update, in order ----

  function AgeAll(c: Config, banks: BankTable): (r: BankTable)
    ensures |r| == |banks| && forall i :: 0 <= i < |r| ==> |r[i]| == |banks[i]|
    ensures forall i, j :: 0 <= i < |r| && 0 <= j < |r[i]| ==> r[i][j] == Age(c, banks[i][j])
  {
    seq(|banks|, i requires 0 <= i < |banks| =>
      seq(|banks[i]|, j requires 0 <= j < |banks[i]| => Age(c, banks[i][j])))
  }

  function AgeBanks(c: Config, s: ChannelState): (r: ChannelState)
    requires WellFormed(c, s)
    ensures WellFormed(c, r)
  {
    s.(mc := s.mc.(banks := AgeAll(c, s.mc.banks)))
  }

  function DeliverCommand(c: Config, s: ChannelState): (r: Result<ChannelState, Error>)
    requires WellFormed(c, s)
    ensures r.Ok? ==> WellFormed(c, r.value)
  {
    if s.mc.outgoingCmd.None? then Ok(s)
    else
      var left := Dec32(s.mc.cmdCyclesLeft);
      if left != 0 then Ok(s.(mc := s.mc.(cmdCyclesLeft := left)))
      else
        var p := s.mc.outgoingCmd.value;
        var k :- RankReceive(c, s.clock, s.ranks[p.rank], p);
        Ok(s.(mc := s.mc.(cmdCyclesLeft := 0, outgoingCmd := None), ranks := s.ranks[p.rank := k]))
  }

  // The burst on the data bus moves on, and every write waits one cycle less.
  function AdvanceBursts(m: ControllerState): ControllerState {
    var left := if m.outgoingData.Some? then Dec32(m.dataCyclesLeft) else m.dataCyclesLeft;
    m.(dataCyclesLeft := left,
       outgoingData := if m.outgoingData.Some? && left == 0 then None else m.outgoingData,
       writeDataCountdown := DecAll(m.writeDataCountdown))
  }

  // The data bus: the burst in progress, then the write whose latency has passed.
  function DriveDataBus(c: Config, s: ChannelState): (r: Result<ChannelState, Error>)
    requires WellFormed(c, s)
    ensures r.Ok? ==> WellFormed(c, r.value)
  {
    var m := AdvanceBursts(s.mc);
    if |m.writeDataCountdown| > 0 && m.writeDataCountdown[0] == 0 then
      if m.outgoingData.Some? then Halt(DataBusCollision)
      else
        Ok(s.(mc := m.(outgoingData := Some(m.writeDataToSend[0]), dataCyclesLeft := c.BL / 2,
                       writeDataCountdown := m.writeDataCountdown[1..],
                       writeDataToSend := m.writeDataToSend[1..])))
    else Ok(s.(mc := m))
  }

  function NeedRefresh(q: QueueState, rank: nat): QueueState {
    q.(refreshWaiting := true, refreshRank := rank)
  }

  function RefreshTimer(c: Config, s: ChannelState): (r: ChannelState)
    requires WellFormed(c, s)
    ensures WellFormed(c, r)
  {
    var m, r := s.mc, s.mc.refreshRank;
    if m.refreshCountdown[r] == 0 then
      s.(mc := m.(queue := NeedRefresh(m.queue, r),
                  refreshCountdown := m.refreshCountdown[r := c.refreshPeriod],
                  refreshRank := if r + 1 == c.NumRanks() then 0 else r + 1),
         ranks := s.ranks[r := s.ranks[r].(refreshWaiting := true)])
    else if m.powerDown[r] && m.refreshCountdown[r] <= c.tXP then
      s.(ranks := s.ranks[r := s.ranks[r].(refreshWaiting := true)])
    else s
  }

  // The table after a popped command, its write data, and the command on the bus.
  function SendPopped(c: Config, s: ChannelState, q: QueueState, popped: Option<BusPacket>): (r: Result<ChannelState, Error>)
    requires WellFormed(c, s) && Shape(c, q) && (popped.Some? ==> popped.value.rank < c.NumRanks())
    ensures r.Ok? ==> WellFormed(c, r.value)
  {
    var m := s.mc.(queue := q, issued := s.mc.issued + [popped]);
    if popped.None? then Ok(s.(mc := m))
    else
      var p := popped.value;
      var m1 := m.(banks := IssueAll(c, s.clock, p, m.banks));
      var m2 := if p.IsWrite() then
                  m1.(writeDataToSend := m.writeDataToSend + [p.(kind := DATA)],
                      writeDataCountdown := m.writeDataCountdown + [CountdownOf(c.WL())])
                else m1;
      if m.outgoingCmd.Some? then Halt(CommandBusCollision)
      else Ok(s.(mc := m2.(outgoingCmd := popped, cmdCyclesLeft := c.tCMD)))
  }

  // Pop a command, update the table for it and put it on the command bus.
  function IssueCommand(c: Config, s: ChannelState): (r: Result<ChannelState, Error>)
    requires WellFormed(c, s)
    ensures r.Ok? ==> WellFormed(c, r.value)
  {
    hide PopSpec;
    var (q, popped) := PopSpec(c, s.clock, s.mc.banks, s.mc.queue);
    SendPopped(c, s, q, popped)
  }

  // CMD_QUEUE_DEPTH - size, in unsigned arithmetic, leaves room for n.
  predicate HasRoomFor(c: Config, q: QueueState, n: nat, cur: Cursor)
    requires Shape(c, q) && InGrid(c, cur)
  {
    |QueueAt(c, q, cur)| > c.cmdQueueDepth || c.cmdQueueDepth - |QueueAt(c, q, cur)| >= n
  }

  function Enqueue(c: Config, q: QueueState, p: BusPacket): (r: Result<QueueState, Error>)
    requires Shape(c, q) && p.rank < c.NumRanks() && p.bank < c.NumBanks()
    ensures r.Ok? ==> Shape(c, r.value)
  {
    var cur := Cursor(p.rank, p.bank);
    var queue := QueueAt(c, q, cur) + [p];
    if |queue| > c.cmdQueueDepth then Halt(QueueOverflow)
    else Ok(q.(queues := Put(q.queues, p.rank, Slot(c, p.bank), queue)))
  }

  // Where a transaction's commands go.
  function Target(c: Config, tr: Transaction): (cur: Cursor)
    ensures InGrid(c, cur)
  {
    DecodeInRange(c.geometry, tr.address);
    var loc := Decode(c.geometry, tr.address);
    assert loc.Get(Field.Rank) < c.NumRanks() && loc.Get(Field.Bank) < c.NumBanks();
    Cursor(loc.rank, loc.bank)
  }

  function CommandKind(c: Config, tr: Transaction): BusPacketType {
    match c.policy
    case ClosePage => if tr.isWrite then WRITE_P else READ_P
    case OpenPage => if tr.isWrite then WRITE else READ
  }

  function CommandFor(c: Config, kind: BusPacketType, tr: Transaction): BusPacket {
    var loc := Decode(c.geometry, tr.address);
    BusPacket(kind, tr.address, loc.column, loc.row, loc.rank, loc.bank)
  }

  // The first transaction whose queue has room for an activate and a column access.
  function FirstWithRoom(c: Config, q: QueueState, trs: seq<Transaction>): (k: nat)
    requires Shape(c, q)
    ensures k <= |trs| && (k < |trs| ==> HasRoomFor(c, q, 2, Target(c, trs[k])))
    ensures forall i :: 0 <= i < k ==> !HasRoomFor(c, q, 2, Target(c, trs[i]))
  {
    if trs == [] then 0
    else if HasRoomFor(c, q, 2, Target(c, trs[0])) then 0
    else
      var k := FirstWithRoom(c, q, trs[1..]);
      assert forall i :: 0 <= i < k + 1 ==> !HasRoomFor(c, q, 2, Target(c, trs[i])) by {
        forall i | 0 <= i < k + 1 ensures !HasRoomFor(c, q, 2, Target(c, trs[i])) {
          assert i > 0 ==> trs[i] == trs[1..][i - 1];
        }
      }
      k + 1
  }

  function ExpandTransaction(c: Config, s: ChannelState): (r: Result<ChannelState, Error>)
    requires WellFormed(c, s)
    ensures r.Ok? ==> WellFormed(c, r.value)
  {
    var m := s.mc;
    var i := FirstWithRoom(c, m.queue, m.transactionQueue);
    if i == |m.transactionQueue| then Ok(s)
    else
      var tr := m.transactionQueue[i];
      assert InGrid(c, Target(c, tr));
      var q1 :- Enqueue(c, m.queue, CommandFor(c, ACTIVATE, tr));
      var q2 :- Enqueue(c, q1, CommandFor(c, CommandKind(c, tr), tr));
      Ok(s.(mc := m.(queue := q2, transactionQueue := Drop(m.transactionQueue, i),
                     pendingReads := if tr.isWrite then m.pendingReads else m.pendingReads + [tr.address])))
  }

  predicate RankQueuesEmpty(c: Config, q: QueueState, r: nat)
    requires Shape(c, q) && r < c.NumRanks()
  {
    forall i :: 0 <= i < NumSlots(c) ==> q.queues[r][i] == []
  }

  predicate AllIdle(row: seq<Bank>) {
    forall b :: 0 <= b < |row| ==> row[b].state == Idle
  }

  function PoweredDownRow(c: Config, t: int, row: seq<Bank>): seq<Bank> {
    seq(|row|, b requires 0 <= b < |row| => row[b].(state := PowerDown, nextPowerUp := t + c.tCKE))
  }

  function PoweredUpRow(c: Config, t: int, row: seq<Bank>): seq<Bank> {
    seq(|row|, b requires 0 <= b < |row| => row[b].(state := Idle, nextActivate := t + c.tXP))
  }

  // Power-down handling of one rank: its table row, its flag and its own state.
  function PowerOne(c: Config, t: int, row: seq<Bank>, flag: bool, empty: bool, k: RankState)
    : Result<(seq<Bank>, bool, RankState), Error>
    requires |row| > 0
  {
    if empty && !k.refreshWaiting then
      if AllIdle(row) then
        var k' :- RankPowerDown(c, t, k);
        Ok((PoweredDownRow(c, t, row), true, k'))
      else Ok((row, flag, k))
    else if t >= row[0].nextPowerUp && flag then
      var k' :- RankPowerUp(c, t, k);
      Ok((PoweredUpRow(c, t, row), false, k'))
    else Ok((row, flag, k))
  }

  // The channel after the power handling of rank r.
  function WithRank(s: ChannelState, r: nat, row: seq<Bank>, flag: bool, k: RankState): ChannelState
    requires r < |s.mc.banks| && r < |s.mc.powerDown| && r < |s.ranks|
  {
    s.(mc := s.mc.(banks := s.mc.banks[r := row], powerDown := s.mc.powerDown[r := flag]), ranks := s.ranks[r := k])
  }

  // Ranks 0 .. n - 1, in order.
  function PowerRanks(c: Config, s: ChannelState, n: nat): (r: Result<ChannelState, Error>)
    requires WellFormed(c, s) && n <= c.NumRanks()
    ensures r.Ok? ==> WellFormed(c, r.value) && r.value.mc.queue == s.mc.queue && r.value.clock == s.clock
    ensures r.Ok? ==> r.value.pending == s.pending
  {
    if n == 0 then Ok(s)
    else
      var s1 :- PowerRanks(c, s, n - 1);
      var r := n - 1;
      var (row, flag, k) :-
        PowerOne(c, s.clock, s1.mc.banks[r], s1.mc.powerDown[r], RankQueuesEmpty(c, s1.mc.queue, r), s1.ranks[r]);
      Ok(s1.(mc := s1.mc.(banks := s1.mc.banks[r := row], powerDown := s1.mc.powerDown[r := flag]),
             ranks := s1.ranks[r := k]))
  }

  lemma PowerRanksStart(c: Config, s: ChannelState)
    requires WellFormed(c, s)
    ensures PowerRanks(c, s, 0) == Ok(s)
  {
  }

  // One more rank.
  lemma PowerRanksStep(c: Config, s: ChannelState, i: nat)
    requires WellFormed(c, s) && i < c.NumRanks() && PowerRanks(c, s, i).Ok?
    ensures var s1 := PowerRanks(c, s, i).value;
      PowerRanks(c, s, i + 1) ==
        match PowerOne(c, s1.clock, s1.mc.banks[i], s1.mc.powerDown[i], RankQueuesEmpty(c, s1.mc.queue, i), s1.ranks[i])
        case Halt(e) => Halt(e)
        case Ok(out) => Ok(WithRank(s1, i, out.0, out.1, out.2))
  {
  }

  function ManagePower(c: Config, s: ChannelState): (r: Result<ChannelState, Error>)
    requires WellFormed(c, s)
    ensures r.Ok? ==> WellFormed(c, r.value)
  {
    if c.useLowPower then PowerRanks(c, s, c.NumRanks()) else Ok(s)
  }

  function IndexOf(s: seq<nat>, a: nat): (k: nat)
    ensures k <= |s| && (k < |s| ==> s[k] == a) && a !in s[..k]
  {
    if s == [] then 0 else if s[0] == a then 0 else
      var k := IndexOf(s[1..], a);
      assert s[..k + 1] == [s[0]] + s[1..][..k];
      k + 1
  }

  // Hand the oldest returned data to the first pending read of its address.
  function ReturnRead(c: Config, s: ChannelState): (r: Result<ChannelState, Error>)
    requires WellFormed(c, s)
    ensures r.Ok? ==> WellFormed(c, r.value)
  {
    var m := s.mc;
    if m.returnTransaction == [] then Ok(s)
    else
      var a := m.returnTransaction[0];
      var i := IndexOf(m.pendingReads, a);
      if i == |m.pendingReads| then Halt(NoMatchingRead)
      else Ok(s.(mc := m.(pendingReads := Drop(m.pendingReads, i), returned := m.returned + [a],
                          returnTransaction := m.returnTransaction[1..])))
  }

  function CountRefresh(c: Config, s: ChannelState): (r: ChannelState)
    requires WellFormed(c, s)
    ensures WellFormed(c, r)
  {
    s.(mc := s.mc.(refreshCountdown := DecAll(s.mc.refreshCountdown)))
  }

  // ---- One cycle ----

  function UpdateController(c: Config, s: ChannelState): (r: Result<ChannelState, Error>)
    requires WellFormed(c, s)
    ensures r.Ok? ==> WellFormed(c, r.value)
  {
    var s1 :- DeliverCommand(c, AgeBanks(c, s));
    var s2 :- DriveDataBus(c, s1);
    var s3 :- IssueCommand(c, RefreshTimer(c, s2));
    var s4 :- ExpandTransaction(c, s3);
    var s5 :- ManagePower(c, s4);
    var s6 :- ReturnRead(c, s5);
    Ok(CountRefresh(c, s6))
  }

  // What rank r delivers in its update.
  function Output(c: Config, s: ChannelState, r: nat): Option<BusPacket>
    requires WellFormed(c, s) && r < c.NumRanks()
  {
    RankUpdate(c, s.ranks[r]).1
  }

  function AddressesIn(out: Option<BusPacket>): seq<nat> {
    match out
    case None => []
    case Some(p) => [p.address]
  }

  // The addresses the first n ranks deliver, in rank order.
  function OutputsUpTo(c: Config, s: ChannelState, n: nat): seq<nat>
    requires WellFormed(c, s) && n <= c.NumRanks()
  {
    if n == 0 then [] else OutputsUpTo(c, s, n - 1) + AddressesIn(Output(c, s, n - 1))
  }

  // All ranks after their updates.
  function MovedRanks(c: Config, s: ChannelState): (ranks: seq<RankState>)
    requires WellFormed(c, s)
    ensures |ranks| == |s.ranks| && forall r :: 0 <= r < |ranks| ==> ranks[r] == RankUpdate(c, s.ranks[r]).0
  {
    seq(|s.ranks|, r requires 0 <= r < |s.ranks| => RankUpdate(c, s.ranks[r]).0)
  }

  function UpdateRanks(c: Config, s: ChannelState): (r: Result<ChannelState, Error>)
    requires WellFormed(c, s)
    ensures r.Ok? ==> WellFormed(c, r.value)
  {
    if exists r :: 0 <= r < c.NumRanks() && Output(c, s, r).Some? && Output(c, s, r).value.kind != DATA then
      Halt(NotADataPacket)
    else
      Ok(s.(ranks := MovedRanks(c, s),
            mc := s.mc.(returnTransaction := s.mc.returnTransaction + OutputsUpTo(c, s, c.NumRanks()))))
  }

  predicate WillAcceptTransaction(c: Config, s: ChannelState) {
    |s.mc.transactionQueue| < c.transQueueDepth
  }

  // A transaction that had to wait outside enters the controller.
  function AdmitPending(c: Config, s: ChannelState): (r: ChannelState)
    requires WellFormed(c, s)
    ensures WellFormed(c, r)
  {
    if s.pending != [] && WillAcceptTransaction(c, s) then
      s.(mc := s.mc.(transactionQueue := s.mc.transactionQueue + [s.pending[0]]), pending := s.pending[1..])
    else s
  }

  // MemorySystem::update
  function Update(c: Config, s: ChannelState): (r: Result<ChannelState, Error>)
    requires WellFormed(c, s)
    ensures r.Ok? ==> WellFormed(c, r.value)
  {
    var s1 :- UpdateRanks(c, s);
    var s2 :- UpdateController(c, AdmitPending(c, s1));
    Ok(s2.(clock := s2.clock + 1))
  }

  // MemorySystem::addTransaction: the host's side.
  function AddTransaction(c: Config, s: ChannelState, tr: Transaction): (r: ChannelState)
    requires WellFormed(c, s)
    ensures WellFormed(c, r)
  {
    if WillAcceptTransaction(c, s) then s.(mc := s.mc.(transactionQueue := s.mc.transactionQueue + [tr]))
    else s.(pending := s.pending + [tr])
  }

  // ---- Runs ----

  // A cycle in which the host first adds some transactions.
  function AddAll(c: Config, s: ChannelState, trs: seq<Transaction>): (r: ChannelState)
    requires WellFormed(c, s)
    ensures WellFormed(c, r)
    decreases trs
  {
    if trs == [] then s else AddAll(c, AddTransaction(c, s, trs[0]), trs[1..])
  }

  // The state after the host's requests of each cycle in turn.
  function Run(c: Config, s: ChannelState, requests: seq<seq<Transaction>>): (r: Result<ChannelState, Error>)
    requires WellFormed(c, s)
    ensures r.Ok? ==> WellFormed(c, r.value)
    decreases requests
  {
    hide Update;
    if requests == [] then Ok(s)
    else
      var s1 :- Update(c, AddAll(c, s, requests[0]));
      Run(c, s1, requests[1..])
  }

  // ---- The initial state ----

  function Repeat<T>(n: nat, v: T): (s: seq<T>)
    ensures |s| == n && forall i :: 0 <= i < n ==> s[i] == v
  {
    seq(n, i => v)
  }

  // Rank r starts with r + 1 times the queues it needs; the rest are never used.
  function EmptyQueues(c: Config, n: nat): (s: seq<seq<seq<BusPacket>>>)
    ensures |s| == n && forall r :: 0 <= r < n ==> |s[r]| >= NumSlots(c) && forall i :: 0 <= i < |s[r]| ==> s[r][i] == []
  {
    if n == 0 then [] else EmptyQueues(c, n - 1) + [ManyEmpty(c, n)]
  }

  function ManyEmpty(c: Config, n: nat): (s: seq<seq<BusPacket>>)
    ensures forall i :: 0 <= i < |s| ==> s[i] == []
    ensures n > 0 ==> |s| >= NumSlots(c)
  {
    if n == 0 then [] else ManyEmpty(c, n - 1) + Repeat(NumSlots(c), [])
  }

  const START := Cursor(0, 0)

  function InitialQueue(c: Config): (q: QueueState)
    ensures Shape(c, q)
  {
    QueueState(EmptyQueues(c, c.NumRanks()), START, START, 0, false, Repeat(c.NumRanks(), []),
               Repeat(c.NumRanks(), Repeat(c.NumBanks(), 0)), true)
  }

  // Refreshes are staggered: rank i is due after i + 1 equal shares of the period.
  function Staggered(share: nat, n: nat): (s: seq<nat>)
    ensures |s| == n && forall i :: 0 <= i < n ==> s[i] == share * (i + 1)
  {
    if n == 0 then [] else Staggered(share, n - 1) + [share * n]
  }

  function Share(total: nat, n: nat): (share: nat)
    requires n > 0
    ensures share * n <= total
  {
    total / n
  }

  function Initial(c: Config): (s: ChannelState)
    ensures WellFormed(c, s)
  {
    var freshBanks := Repeat(c.NumBanks(), FRESH_BANK);
    ChannelState(0,
      ControllerState(Repeat(c.NumRanks(), freshBanks), InitialQueue(c), None, 0, None, 0, [], [], [], [], [],
                      Staggered(Share(c.refreshPeriod, c.NumRanks()), c.NumRanks()), 0, Repeat(c.NumRanks(), false), [], []),
      Repeat(c.NumRanks(), RankState(freshBanks, false, false, [], [], None, 0)),
      [])
  }
}
