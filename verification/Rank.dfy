// The rank object: its own bank table, its checks and its read return pipeline.
module Ranks {
  import opened Wrappers
  import opened SystemConfiguration
  import opened BankState
  import opened Channel

  class Rank {
    const c: Config
    var currentClockCycle: nat
    var isPowerDown: bool
    var refreshWaiting: bool
    var readReturnPacket: seq<BusPacket>
    var readReturnCountdown: seq<nat>
    var outgoingDataPacket: Option<BusPacket>
    var dataCyclesLeft: nat
    var bankStates: seq<Bank>

    function State(): RankState
      reads this
    {
      RankState(bankStates, isPowerDown, refreshWaiting, readReturnPacket, readReturnCountdown, outgoingDataPacket,
                dataCyclesLeft)
    }

    ghost predicate Valid()
      reads this
    {
      |bankStates| == c.NumBanks() && |readReturnPacket| == |readReturnCountdown|
    }

    constructor (c: Config)
      ensures Valid() && this.c == c && currentClockCycle == 0
      ensures State() == RankState(Repeat(c.NumBanks(), FRESH_BANK), false, false, [], [], None, 0)
    {
      this.c := c;
      currentClockCycle, isPowerDown, refreshWaiting := 0, false, false;
      readReturnPacket, readReturnCountdown, outgoingDataPacket, dataCyclesLeft := [], [], None, 0;
      bankStates := Repeat(c.NumBanks(), FRESH_BANK);
    }

    // Delay the next column accesses of every bank.
    method DelayColumns(read: int, write: int)
      modifies this`bankStates
      ensures |bankStates| == old(|bankStates|)
      ensures forall b :: 0 <= b < |bankStates| ==>
        bankStates[b] == var k := old(bankStates)[b]; k.(nextRead := Max(k.nextRead, read), nextWrite := Max(k.nextWrite, write))
    {
      var i := 0;
      while i < |bankStates|
        invariant 0 <= i <= |bankStates| == old(|bankStates|)
        invariant forall b :: 0 <= b < i ==>
          bankStates[b] == var k := old(bankStates)[b]; k.(nextRead := Max(k.nextRead, read), nextWrite := Max(k.nextWrite, write))
        invariant forall b :: i <= b < |bankStates| ==> bankStates[b] == old(bankStates)[b]
      {
        bankStates := bankStates[i :=
          bankStates[i].(nextRead := Max(bankStates[i].nextRead, read), nextWrite := Max(bankStates[i].nextWrite, write))];
        i := i + 1;
      }
    }

    // Delay the next activation of every bank but one.
    method DelayActivates(except: nat, activate: int)
      modifies this`bankStates
      ensures |bankStates| == old(|bankStates|)
      ensures forall b :: 0 <= b < |bankStates| ==>
        bankStates[b] == var k := old(bankStates)[b];
          if b == except then k else k.(nextActivate := Max(k.nextActivate, activate))
    {
      var i := 0;
      while i < |bankStates|
        invariant 0 <= i <= |bankStates| == old(|bankStates|)
        invariant forall b :: 0 <= b < i ==>
          bankStates[b] == var k := old(bankStates)[b];
            if b == except then k else k.(nextActivate := Max(k.nextActivate, activate))
        invariant forall b :: i <= b < |bankStates| ==> bankStates[b] == old(bankStates)[b]
      {
        if i != except {
          bankStates := bankStates[i := bankStates[i].(nextActivate := Max(bankStates[i].nextActivate, activate))];
        }
        i := i + 1;
      }
    }

    method ReceiveRead(packet: BusPacket) returns (error: Option<Error>)
      requires Valid() && packet.bank < c.NumBanks()
      requires packet.IsRead()
      modifies this
      ensures currentClockCycle == old(currentClockCycle)
      ensures match RankReceive(c, currentClockCycle, old(State()), packet)
              case Halt(e) => error == Some(e)
              case Ok(k) => error.None? && Valid() && State() == k
    {
      error := None;
      var t, bank, row := currentClockCycle, packet.bank, packet.row;
      var k := bankStates[bank];
      ghost var before := bankStates;
      if k.state != RowActive || t < k.nextRead || row != k.openRow {
        return Some(RankRejectedCommand);
      }
      if packet.kind == READ {
        bankStates := bankStates[bank := k.(nextPrecharge := Max(k.nextPrecharge, t + c.ReadToPre()))];
      } else {
        bankStates := bankStates[bank :=
          k.(state := Idle, nextActivate := Max(k.nextActivate, t + c.ReadAutoPre()))];
      }
      DelayColumns(t + c.ColumnGap(), t + c.ReadToWrite());
      readReturnPacket := readReturnPacket + [packet.(kind := DATA)];
      readReturnCountdown := readReturnCountdown + [c.RL()];
      assert bankStates == seq(|before|, b requires 0 <= b < |before| => Apply(c, t, packet, b, before[b]));
    }

    method ReceiveWrite(packet: BusPacket) returns (error: Option<Error>)
      requires Valid() && packet.bank < c.NumBanks()
      requires packet.IsWrite()
      modifies this
      ensures currentClockCycle == old(currentClockCycle)
      ensures match RankReceive(c, currentClockCycle, old(State()), packet)
              case Halt(e) => error == Some(e)
              case Ok(k) => error.None? && Valid() && State() == k
    {
      error := None;
      var t, bank, row := currentClockCycle, packet.bank, packet.row;
      var k := bankStates[bank];
      ghost var before := bankStates;
      if k.state != RowActive || t < k.nextWrite || row != k.openRow {
        return Some(RankRejectedCommand);
      }
      if packet.kind == WRITE {
        bankStates := bankStates[bank := k.(nextPrecharge := Max(k.nextPrecharge, t + c.WriteToPre()))];
      } else {
        bankStates := bankStates[bank :=
          k.(state := Idle, nextActivate := Max(k.nextActivate, t + c.WriteAutoPre()))];
      }
      DelayColumns(t + c.WriteToReadBank(), t + c.ColumnGap());
      assert bankStates == seq(|before|, b requires 0 <= b < |before| => Apply(c, t, packet, b, before[b]));
    }

    method ReceiveActivate(packet: BusPacket) returns (error: Option<Error>)
      requires Valid() && packet.bank < c.NumBanks()
      requires packet.kind == ACTIVATE
      modifies this
      ensures currentClockCycle == old(currentClockCycle)
      ensures match RankReceive(c, currentClockCycle, old(State()), packet)
              case Halt(e) => error == Some(e)
              case Ok(k) => error.None? && Valid() && State() == k
    {
      error := None;
      var t, bank, row := currentClockCycle, packet.bank, packet.row;
      var k := bankStates[bank];
      ghost var before := bankStates;
      if k.state != Idle || t < k.nextActivate {
        return Some(RankRejectedCommand);
      }
      bankStates := bankStates[bank :=
        k.(state := RowActive, nextActivate := t + c.tRC, openRow := row, nextWrite := t + (c.tRCD - c.AL),
           nextRead := t + (c.tRCD - c.AL), nextPrecharge := t + c.tRAS)];
      DelayActivates(bank, t + c.tRRD);
      assert bankStates == seq(|before|, b requires 0 <= b < |before| => Apply(c, t, packet, b, before[b]));
    }

    method ReceivePrecharge(packet: BusPacket) returns (error: Option<Error>)
      requires Valid() && packet.bank < c.NumBanks()
      requires packet.kind == PRECHARGE
      modifies this
      ensures currentClockCycle == old(currentClockCycle)
      ensures match RankReceive(c, currentClockCycle, old(State()), packet)
              case Halt(e) => error == Some(e)
              case Ok(k) => error.None? && Valid() && State() == k
    {
      error := None;
      var t, bank := currentClockCycle, packet.bank;
      var k := bankStates[bank];
      ghost var before := bankStates;
      if k.state != RowActive || t < k.nextPrecharge {
        return Some(RankRejectedCommand);
      }
      bankStates := bankStates[bank := k.(state := Idle, nextActivate := Max(k.nextActivate, t + c.tRP))];
      assert bankStates == seq(|before|, b requires 0 <= b < |before| => Apply(c, t, packet, b, before[b]));
    }

    method ReceiveRefresh(packet: BusPacket) returns (error: Option<Error>)
      requires Valid() && packet.bank < c.NumBanks()
      requires packet.kind == REFRESH
      modifies this
      ensures currentClockCycle == old(currentClockCycle)
      ensures match RankReceive(c, currentClockCycle, old(State()), packet)
              case Halt(e) => error == Some(e)
              case Ok(k) => error.None? && Valid() && State() == k
    {
      error := None;
      var t := currentClockCycle;
      ghost var before := bankStates;
      refreshWaiting := false;
      var i := 0;
      while i < |bankStates|
        modifies `bankStates
        invariant 0 <= i <= |bankStates| == |before|
        invariant forall b :: 0 <= b < i ==>
          before[b].state == Idle && bankStates[b] == before[b].(nextActivate := t + c.tRFC)
        invariant forall b :: i <= b < |bankStates| ==> bankStates[b] == before[b]
      {
        if bankStates[i].state != Idle {
          return Some(RankRejectedCommand);
        }
        bankStates := bankStates[i := bankStates[i].(nextActivate := t + c.tRFC)];
        i := i + 1;
      }
      assert bankStates == seq(|before|, b requires 0 <= b < |before| => Apply(c, t, packet, b, before[b]));
    }

    // Take a packet from the bus. A command that comes too early, in the wrong state
    // or for the wrong row stops the simulation.
    method ReceiveFromBus(packet: BusPacket) returns (error: Option<Error>)
      requires Valid() && packet.bank < c.NumBanks()
      modifies this
      ensures currentClockCycle == old(currentClockCycle)
      ensures match RankReceive(c, currentClockCycle, old(State()), packet)
              case Halt(e) => error == Some(e)
              case Ok(k) => error.None? && Valid() && State() == k
    {
      match packet.kind
      case READ | READ_P => error := ReceiveRead(packet);
      case WRITE | WRITE_P => error := ReceiveWrite(packet);
      case ACTIVATE => error := ReceiveActivate(packet);
      case PRECHARGE => error := ReceivePrecharge(packet);
      case REFRESH => error := ReceiveRefresh(packet);
      case DATA =>
        error := None;
        ghost var t, before := currentClockCycle, bankStates;
        assert bankStates == seq(|before|, b requires 0 <= b < |before| => Apply(c, t, packet, b, before[b]));
    }

    // One cycle of the data output.
    method Update() returns (delivered: Option<BusPacket>)
      requires Valid()
      modifies this
      ensures Valid() && currentClockCycle == old(currentClockCycle)
      ensures (State(), delivered) == RankUpdate(c, old(State()))
    {
      delivered := None;
      if outgoingDataPacket.Some? {
        dataCyclesLeft := Dec32(dataCyclesLeft);
        if dataCyclesLeft == 0 {
          delivered := outgoingDataPacket;
          outgoingDataPacket := None;
        }
      }
      ghost var before := readReturnCountdown;
      var i := 0;
      while i < |readReturnCountdown|
        modifies `readReturnCountdown
        invariant 0 <= i <= |readReturnCountdown| == |before|
        invariant forall j :: 0 <= j < |before| ==> readReturnCountdown[j] == if j < i then Dec32(before[j]) else before[j]
      {
        readReturnCountdown := readReturnCountdown[i := Dec32(readReturnCountdown[i])];
        i := i + 1;
      }
      assert readReturnCountdown == DecAll(before);
      if |readReturnCountdown| > 0 && readReturnCountdown[0] == 0 {
        outgoingDataPacket := Some(readReturnPacket[0]);
        dataCyclesLeft := c.BL / 2;
        readReturnPacket := readReturnPacket[1..];
        readReturnCountdown := readReturnCountdown[1..];
      }
    }

    method PowerDown() returns (error: Option<Error>)
      requires Valid()
      modifies this
      ensures currentClockCycle == old(currentClockCycle)
      ensures match RankPowerDown(c, currentClockCycle, old(State()))
              case Halt(e) => error == Some(e)
              case Ok(k) => error.None? && Valid() && State() == k
    {
      ghost var before := bankStates;
      var t := currentClockCycle;
      var i := 0;
      while i < |bankStates|
        modifies `bankStates
        invariant 0 <= i <= |bankStates| == |before|
        invariant forall b :: 0 <= b < |before| ==>
          bankStates[b] == if b < i then before[b].(nextPowerUp := t + c.tCKE, state := CurrentBankState.PowerDown) else before[b]
        invariant forall b :: 0 <= b < i ==> before[b].state == Idle
      {
        if bankStates[i].state != Idle {
          return Some(PowerDownRejected);
        }
        bankStates := bankStates[i := bankStates[i].(nextPowerUp := t + c.tCKE, state := CurrentBankState.PowerDown)];
        i := i + 1;
      }
      isPowerDown := true;
      error := None;
      assert State() == RankPowerDown(c, t, old(State())).value;
    }

    method PowerUp() returns (error: Option<Error>)
      requires Valid()
      modifies this
      ensures currentClockCycle == old(currentClockCycle)
      ensures match RankPowerUp(c, currentClockCycle, old(State()))
              case Halt(e) => error == Some(e)
              case Ok(k) => error.None? && Valid() && State() == k
    {
      if !isPowerDown {
        return Some(PowerUpRejected);
      }
      isPowerDown := false;
      ghost var before := bankStates;
      var t := currentClockCycle;
      var i := 0;
      while i < |bankStates|
        modifies `bankStates
        invariant 0 <= i <= |bankStates| == |before|
        invariant forall b :: 0 <= b < |before| ==>
          bankStates[b] == if b < i then before[b].(nextActivate := t + c.tXP, state := Idle) else before[b]
        invariant forall b :: 0 <= b < i ==> before[b].nextPowerUp <= t
      {
        if bankStates[i].nextPowerUp > t {
          return Some(PowerUpRejected);
        }
        bankStates := bankStates[i := bankStates[i].(nextActivate := t + c.tXP, state := Idle)];
        i := i + 1;
      }
      error := None;
      assert State() == RankPowerUp(c, t, old(State())).value;
    }

    method Step()
      requires Valid()
      modifies this`currentClockCycle
      ensures Valid() && State() == old(State()) && currentClockCycle == old(currentClockCycle) + 1
    {
      currentClockCycle := currentClockCycle + 1;
    }
  }
}
