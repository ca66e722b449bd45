// Commands, bus packets and the state of one bank, with the state changes that a
// command makes in the controller's table and in the rank's own table.
module BankState {
  import opened SystemConfiguration

  datatype BusPacketType = READ | READ_P | WRITE | WRITE_P | ACTIVATE | PRECHARGE | REFRESH | DATA

  datatype BusPacket = BusPacket(
    kind: BusPacketType, address: nat, column: nat, row: nat, rank: nat, bank: nat)
  {
    predicate IsRead() { kind == READ || kind == READ_P }

    predicate IsWrite() { kind == WRITE || kind == WRITE_P }

    predicate IsColumn() { IsRead() || IsWrite() }
  }

  datatype CurrentBankState = Idle | RowActive | Precharging | Refreshing | PowerDown

  datatype Bank = Bank(
    state: CurrentBankState,
    openRow: nat,
    nextRead: int,
    nextWrite: int,
    nextActivate: int,
    nextPrecharge: int,
    nextPowerUp: int,
    lastCommand: BusPacketType,
    countdown: nat)

  // All banks start precharged.
  const FRESH_BANK := Bank(Idle, 0, 0, 0, 0, 0, 0, READ, 0)

  // ---- The controller's table ----

  // One cycle passes: implicit state changes when a bank's countdown runs out.
  function Age(c: Config, m: Bank): Bank {
    if m.countdown == 0 then m
    else if m.countdown > 1 then m.(countdown := m.countdown - 1)
    else
      match m.lastCommand
      case READ_P | WRITE_P => m.(state := Precharging, lastCommand := PRECHARGE, countdown := c.tRP)
      case REFRESH | PRECHARGE => m.(state := Idle, countdown := 0)
      case _ => m.(countdown := 0)
  }

  // Effect of popping packet p at cycle t on the table entry of bank (rank, bank).
  function Issue(c: Config, t: int, p: BusPacket, rank: nat, bank: nat, m: Bank): Bank {
    match p.kind
    case READ | READ_P => IssueRead(c, t, p, rank, bank, m)
    case WRITE | WRITE_P => IssueWrite(c, t, p, rank, bank, m)
    case ACTIVATE =>
      if rank != p.rank then m
      else if bank == p.bank then
        m.(state := RowActive, lastCommand := ACTIVATE, openRow := p.row,
           nextActivate := Max(t + c.tRC, m.nextActivate),
           nextPrecharge := Max(t + c.tRAS, m.nextPrecharge),
           nextRead := Max(t + (c.tRCD - c.AL), m.nextRead),
           nextWrite := Max(t + (c.tRCD - c.AL), m.nextWrite))
      else m.(nextActivate := Max(t + c.tRRD, m.nextActivate))
    case PRECHARGE =>
      if rank == p.rank && bank == p.bank then
        m.(state := Precharging, lastCommand := PRECHARGE, countdown := c.tRP,
           nextActivate := Max(t + c.tRP, m.nextActivate))
      else m
    case REFRESH =>
      if rank == p.rank then
        m.(nextActivate := t + c.tRFC, state := Refreshing, lastCommand := REFRESH, countdown := c.tRFC)
      else m
    case DATA => m
  }

  function IssueRead(c: Config, t: int, p: BusPacket, rank: nat, bank: nat, m: Bank): Bank {
    if rank != p.rank then
      if m.state == RowActive then
        m.(nextRead := Max(t + c.BL / 2 + c.tRTRS, m.nextRead),
           nextWrite := Max(t + c.ReadToWrite(), m.nextWrite))
      else m
    else if bank != p.bank then
      m.(nextRead := Max(t + c.ColumnGap(), m.nextRead),
         nextWrite := Max(t + c.ReadToWrite(), m.nextWrite))
    else if p.kind == READ_P then
      var next := Max(t + c.ReadAutoPre(), m.nextActivate);
      m.(nextActivate := next, lastCommand := READ_P, countdown := CountdownOf(c.ReadToPre()),
         nextRead := next, nextWrite := next)
    else
      m.(nextPrecharge := Max(t + c.ReadToPre(), m.nextPrecharge), lastCommand := READ,
         nextRead := Max(t + c.ColumnGap(), m.nextRead),
         nextWrite := Max(t + c.ReadToWrite(), m.nextWrite))
  }

  function IssueWrite(c: Config, t: int, p: BusPacket, rank: nat, bank: nat, m: Bank): Bank {
    if rank != p.rank then
      if m.state == RowActive then
        m.(nextWrite := Max(t + c.BL / 2 + c.tRTRS, m.nextWrite),
           nextRead := Max(t + c.WriteToReadRank(), m.nextRead))
      else m
    else if bank != p.bank then
      m.(nextWrite := Max(t + c.ColumnGap(), m.nextWrite),
         nextRead := Max(t + c.WriteToReadBank(), m.nextRead))
    else if p.kind == WRITE_P then
      var next := Max(t + c.WriteAutoPre(), m.nextActivate);
      m.(nextActivate := next, lastCommand := WRITE_P, countdown := CountdownOf(c.WriteToPre()),
         nextRead := next, nextWrite := next)
    else
      m.(nextPrecharge := Max(t + c.WriteToPre(), m.nextPrecharge), lastCommand := WRITE,
         nextWrite := Max(t + c.ColumnGap(), m.nextWrite),
         nextRead := Max(t + c.WriteToReadBank(), m.nextRead))
  }

  // Delays are unsigned in the simulator.
  function CountdownOf(d: int): nat {
    if d < 0 then 0 else d
  }

  // ---- The rank's table ----

  // Whether the rank takes packet p at cycle t instead of stopping the simulation.
  predicate Accepts(t: int, banks: seq<Bank>, p: BusPacket) {
    match p.kind
    case READ | READ_P =>
      p.bank < |banks| && banks[p.bank].state == RowActive && t >= banks[p.bank].nextRead
      && p.row == banks[p.bank].openRow
    case WRITE | WRITE_P =>
      p.bank < |banks| && banks[p.bank].state == RowActive && t >= banks[p.bank].nextWrite
      && p.row == banks[p.bank].openRow
    case ACTIVATE =>
      p.bank < |banks| && banks[p.bank].state == Idle && t >= banks[p.bank].nextActivate
    case PRECHARGE =>
      p.bank < |banks| && banks[p.bank].state == RowActive && t >= banks[p.bank].nextPrecharge
    case REFRESH =>
      forall b :: 0 <= b < |banks| ==> banks[b].state == Idle
    case DATA => true
  }

  // Effect of an accepted packet on the rank's entry for one of its banks.
  function Apply(c: Config, t: int, p: BusPacket, bank: nat, k: Bank): Bank {
    match p.kind
    case READ =>
      var k' := k.(nextRead := Max(k.nextRead, t + c.ColumnGap()),
                   nextWrite := Max(k.nextWrite, t + c.ReadToWrite()));
      if bank == p.bank then k'.(nextPrecharge := Max(k.nextPrecharge, t + c.ReadToPre())) else k'
    case READ_P =>
      var k' := k.(nextRead := Max(k.nextRead, t + c.ColumnGap()),
                   nextWrite := Max(k.nextWrite, t + c.ReadToWrite()));
      if bank == p.bank then
        k'.(state := Idle, nextActivate := Max(k.nextActivate, t + c.ReadAutoPre()))
      else k'
    case WRITE =>
      var k' := k.(nextRead := Max(k.nextRead, t + c.WriteToReadBank()),
                   nextWrite := Max(k.nextWrite, t + c.ColumnGap()));
      if bank == p.bank then k'.(nextPrecharge := Max(k.nextPrecharge, t + c.WriteToPre())) else k'
    case WRITE_P =>
      var k' := k.(nextRead := Max(k.nextRead, t + c.WriteToReadBank()),
                   nextWrite := Max(k.nextWrite, t + c.ColumnGap()));
      if bank == p.bank then
        k'.(state := Idle, nextActivate := Max(k.nextActivate, t + c.WriteAutoPre()))
      else k'
    case ACTIVATE =>
      if bank == p.bank then
        k.(state := RowActive, nextActivate := t + c.tRC, openRow := p.row,
           nextWrite := t + (c.tRCD - c.AL), nextRead := t + (c.tRCD - c.AL),
           nextPrecharge := t + c.tRAS)
      else k.(nextActivate := Max(k.nextActivate, t + c.tRRD))
    case PRECHARGE =>
      if bank == p.bank then k.(state := Idle, nextActivate := Max(k.nextActivate, t + c.tRP)) else k
    case REFRESH => k.(nextActivate := t + c.tRFC)
    case DATA => k
  }

  // ---- How the two tables stay related ----

  // The row is closing by itself: its column access carried an auto-precharge.
  predicate AutoPrecharging(m: Bank) {
    m.state == RowActive && (m.lastCommand == READ_P || m.lastCommand == WRITE_P)
  }

  // The row can still be used.
  predicate Open(m: Bank) {
    m.state == RowActive && m.lastCommand != READ_P && m.lastCommand != WRITE_P
  }

  // The countdown of a controller entry agrees with its state; t is the cycle
  // whose aging step comes next.
  predicate Consistent(t: int, m: Bank) {
    match m.state
    case Idle => m.countdown == 0
    case PowerDown => m.countdown == 0
    case Precharging => m.countdown > 0 && m.lastCommand == PRECHARGE
    case Refreshing => m.countdown > 0 && m.lastCommand == REFRESH && m.nextActivate >= t - 1 + m.countdown
    case RowActive => if AutoPrecharging(m) then m.countdown > 0 else m.countdown == 0
  }

  // The rank's entry k (as it stands once the command in flight has been applied)
  // never asks for more than the controller's entry m, one bus cycle later.
  predicate Tracks(m: Bank, k: Bank) {
    && k.nextActivate <= m.nextActivate + 1
    && (m.state == PowerDown ==> k.state == PowerDown && k.nextPowerUp <= m.nextPowerUp)
    && (m.state == Idle || m.state == Precharging || m.state == Refreshing || AutoPrecharging(m) ==>
          k.state == Idle)
    && (Open(m) ==>
          && k.state == RowActive && k.openRow == m.openRow
          && k.nextRead <= m.nextRead + 1
          && k.nextWrite <= m.nextWrite + 1
          && k.nextPrecharge <= m.nextPrecharge + 1)
  }

  lemma AgeKeepsTracking(c: Config, t: int, m: Bank, k: Bank)
    requires c.Valid() && Consistent(t, m) && Tracks(m, k)
    ensures Consistent(t + 1, Age(c, m)) && Tracks(Age(c, m), k)
  {
  }

  // What the scheduler guarantees of a popped packet, bank by bank.
  ghost predicate MayIssue(t: int, banks: seq<Bank>, p: BusPacket) {
    && p.bank < |banks|
    && match p.kind
       case READ | READ_P =>
         Open(banks[p.bank]) && banks[p.bank].openRow == p.row && t >= banks[p.bank].nextRead
       case WRITE | WRITE_P =>
         Open(banks[p.bank]) && banks[p.bank].openRow == p.row && t >= banks[p.bank].nextWrite
       case ACTIVATE => banks[p.bank].state == Idle && t >= banks[p.bank].nextActivate
       case PRECHARGE => Open(banks[p.bank]) && t >= banks[p.bank].nextPrecharge
       case REFRESH =>
         forall b :: 0 <= b < |banks| ==>
           && banks[b].state != RowActive && banks[b].state != PowerDown && t >= banks[b].nextActivate
       case DATA => false
  }

  // A packet the controller may issue at cycle t is accepted by the rank at t + 1.
  lemma IssuedIsAccepted(t: int, ms: seq<Bank>, ks: seq<Bank>, p: BusPacket)
    requires |ms| == |ks| && MayIssue(t, ms, p)
    requires forall b :: 0 <= b < |ms| ==> Tracks(ms[b], ks[b])
    ensures Accepts(t + 1, ks, p)
  {
    assert Tracks(ms[p.bank], ks[p.bank]);
    if p.kind == REFRESH {
      forall b | 0 <= b < |ks| ensures ks[b].state == Idle {
        assert Tracks(ms[b], ks[b]);
      }
    }
  }

  // Issuing at t in the controller and applying at t + 1 in the rank keep the
  // two entries of one bank related.
  lemma IssueKeepsTracking(c: Config, t: int, ms: seq<Bank>, p: BusPacket, b: nat, k: Bank)
    requires c.Valid() && b < |ms| && MayIssue(t, ms, p)
    requires Consistent(t + 1, ms[b]) && Tracks(ms[b], k)
    ensures Consistent(t + 1, Issue(c, t, p, p.rank, b, ms[b]))
    ensures Tracks(Issue(c, t, p, p.rank, b, ms[b]), Apply(c, t + 1, p, b, k))
  {
  }

  // A bank of another rank is only delayed further.
  lemma IssueElsewhereKeepsTracking(c: Config, t: int, p: BusPacket, rank: nat, b: nat, m: Bank, k: Bank)
    requires rank != p.rank
    requires Consistent(t + 1, m) && Tracks(m, k)
    ensures Consistent(t + 1, Issue(c, t, p, rank, b, m))
    ensures Tracks(Issue(c, t, p, rank, b, m), k)
  {
  }
}
