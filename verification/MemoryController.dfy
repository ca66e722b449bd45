// The memory controller object: it owns the bank table, the command queue and the
// buses, and steps them once per cycle.
module MemoryControllers {
  import opened Wrappers
  import opened Bits
  import opened SystemConfiguration
  import opened AddressMapping
  import opened BankState
  import opened Scheduler
  import opened QueueInvariant
  import opened Channel
  import opened CommandQueues
  import opened Ranks
  import opened Sequences

  // The delay that a read puts on a bank's next column accesses.
  function AfterRead(c: Config, t: int, p: BusPacket, rank: nat, m: Bank): Bank {
    if rank != p.rank then
      if m.state == RowActive then
        m.(nextRead := Max(t + c.BL / 2 + c.tRTRS, m.nextRead), nextWrite := Max(t + c.ReadToWrite(), m.nextWrite))
      else m
    else
      m.(nextRead := Max(t + c.ColumnGap(), m.nextRead), nextWrite := Max(t + c.ReadToWrite(), m.nextWrite))
  }

  function AfterWrite(c: Config, t: int, p: BusPacket, rank: nat, m: Bank): Bank {
    if rank != p.rank then
      if m.state == RowActive then
        m.(nextWrite := Max(t + c.BL / 2 + c.tRTRS, m.nextWrite), nextRead := Max(t + c.WriteToReadRank(), m.nextRead))
      else m
    else
      m.(nextWrite := Max(t + c.ColumnGap(), m.nextWrite), nextRead := Max(t + c.WriteToReadBank(), m.nextRead))
  }

  // The channel once the scheduler has run, before its command is acted on.
  function AfterPop(c: Config, s: ChannelState): ChannelState
    requires WellFormed(c, s)
  {
    var (q, popped) := PopSpec(c, s.clock, s.mc.banks, s.mc.queue);
    s.(mc := s.mc.(queue := q, issued := s.mc.issued + [popped]))
  }

  // A write's data follows it after the write latency.
  function AfterWriteData(c: Config, s: ChannelState, p: BusPacket): ChannelState {
    if p.IsWrite() then
      s.(mc := s.mc.(writeDataToSend := s.mc.writeDataToSend + [p.(kind := DATA)],
                     writeDataCountdown := s.mc.writeDataCountdown + [CountdownOf(c.WL())]))
    else s
  }

  // The channel without transaction i, a read now waiting for its data.
  function Taken(s: ChannelState, i: nat): ChannelState
    requires i < |s.mc.transactionQueue|
  {
    var tr := s.mc.transactionQueue[i];
    s.(mc := s.mc.(transactionQueue := Drop(s.mc.transactionQueue, i),
                   pendingReads := if tr.isWrite then s.mc.pendingReads else s.mc.pendingReads + [tr.address]))
  }

  // The controller's cycle in three parts.
  function BeforeIssue(c: Config, s: ChannelState): (r: Result<ChannelState, Error>)
    requires WellFormed(c, s)
    ensures r.Ok? ==> WellFormed(c, r.value)
  {
    var s1 :- Channel.DeliverCommand(c, AgeBanks(c, s));
    var s2 :- Channel.DriveDataBus(c, s1);
    Ok(Channel.RefreshTimer(c, s2))
  }

  function AfterIssue(c: Config, s: ChannelState): (r: Result<ChannelState, Error>)
    requires WellFormed(c, s)
    ensures r.Ok? ==> WellFormed(c, r.value)
  {
    var s1 :- Channel.ExpandTransaction(c, s);
    var s2 :- Channel.ManagePower(c, s1);
    var s3 :- Channel.ReturnRead(c, s2);
    Ok(Channel.CountRefresh(c, s3))
  }

  lemma UpdateInThree(c: Config, s: ChannelState)
    requires WellFormed(c, s)
    ensures UpdateController(c, s) ==
      match BeforeIssue(c, s)
      case Halt(e) => Halt(e)
      case Ok(s1) =>
        match Channel.IssueCommand(c, s1)
        case Halt(e) => Halt(e)
        case Ok(s2) => AfterIssue(c, s2)
  {
    hide Channel.DeliverCommand, Channel.DriveDataBus, Channel.RefreshTimer, Channel.IssueCommand,
      Channel.ExpandTransaction, Channel.ManagePower, Channel.ReturnRead, Channel.CountRefresh, AgeBanks, WellFormed;
  }

  class MemoryController {
    const c: Config
    const banks: SharedBanks
    const commandQueue: CommandQueue
    const ranks: seq<Rank>
    var currentClockCycle: nat
    var outgoingCmdPacket: Option<BusPacket>
    var cmdCyclesLeft: nat
    var outgoingDataPacket: Option<BusPacket>
    var dataCyclesLeft: nat
    var writeDataToSend: seq<BusPacket>
    var writeDataCountdown: seq<nat>
    var transactionQueue: seq<Transaction>
    var returnTransaction: seq<nat>
    var pendingReadTransactions: seq<nat>
    var refreshCountdown: seq<nat>
    var refreshRank: nat
    var powerDown: seq<bool>
    // Records of the command bus and of the read callbacks.
    var issued: seq<Option<BusPacket>>
    var returned: seq<nat>

    function State(): ControllerState
      reads this, banks, commandQueue
    {
      ControllerState(banks.table, commandQueue.State(), outgoingCmdPacket, cmdCyclesLeft, outgoingDataPacket,
                      dataCyclesLeft, writeDataToSend, writeDataCountdown, transactionQueue, returnTransaction,
                      pendingReadTransactions, refreshCountdown, refreshRank, powerDown, issued, returned)
    }

    ghost function RankStates(): (states: seq<RankState>)
      reads ranks
      ensures |states| == |ranks| && forall r :: 0 <= r < |ranks| ==> states[r] == ranks[r].State()
    {
      seq(|ranks|, r requires 0 <= r < |ranks| reads ranks => ranks[r].State())
    }

    // The parts the controller is built from; nothing here depends on its own fields.
    ghost predicate Attached()
      reads banks, commandQueue, ranks
    {
      && c.geometry.Valid()
      && commandQueue.c == c && commandQueue.banks == banks && commandQueue.Valid()
      && |ranks| == c.NumRanks()
      && (forall i, j :: 0 <= i < j < |ranks| ==> ranks[i] != ranks[j])
      && (forall i :: 0 <= i < |ranks| ==> ranks[i].c == c && ranks[i].Valid())
    }

    ghost predicate Fields()
      reads this
    {
      && |refreshCountdown| == c.NumRanks() && |powerDown| == c.NumRanks()
      && refreshRank < c.NumRanks()
      && |writeDataToSend| == |writeDataCountdown|
      && (outgoingCmdPacket.Some? ==>
            outgoingCmdPacket.value.rank < c.NumRanks() && outgoingCmdPacket.value.bank < c.NumBanks())
      && forall i :: 0 <= i < |transactionQueue| ==> transactionQueue[i].address < TWO_64
    }

    ghost predicate Valid()
      reads this, banks, commandQueue, ranks
    {
      Attached() && Fields()
    }

    // The controller and its ranks are in the channel state s.
    ghost predicate Shows(s: ChannelState)
      reads this, banks, commandQueue, ranks
    {
      Valid() && WellFormed(c, s) && s.clock == currentClockCycle && s.mc == State() && s.ranks == RankStates()
    }

    lemma ShownParts(s: ChannelState)
      requires Shows(s)
      ensures s.clock == currentClockCycle && s.mc == State() && s.ranks == RankStates()
    {
    }

    lemma ShownIsWellFormed(s: ChannelState)
      requires Shows(s)
      ensures WellFormed(c, s)
    {
    }

    // Every object has reached the same cycle.
    ghost predicate InStep()
      reads this, commandQueue, ranks
    {
      && commandQueue.currentClockCycle == currentClockCycle
      && forall i :: 0 <= i < |ranks| ==> ranks[i].currentClockCycle == currentClockCycle
    }

    constructor (c: Config, ranks: seq<Rank>)
      requires c.geometry.Valid() && |ranks| == c.NumRanks()
      requires forall i, j :: 0 <= i < j < |ranks| ==> ranks[i] != ranks[j]
      requires forall i :: 0 <= i < |ranks| ==>
        && ranks[i].c == c && ranks[i].Valid() && ranks[i].currentClockCycle == 0
        && ranks[i].State() == Initial(c).ranks[i]
      ensures this.c == c && this.ranks == ranks && fresh(banks) && fresh(commandQueue)
      ensures Shows(Initial(c)) && InStep()
    {
      this.c, this.ranks := c, ranks;
      currentClockCycle := 0;
      outgoingCmdPacket, cmdCyclesLeft, outgoingDataPacket, dataCyclesLeft := None, 0, None, 0;
      writeDataToSend, writeDataCountdown := [], [];
      transactionQueue, returnTransaction, pendingReadTransactions := [], [], [];
      refreshRank, powerDown := 0, Repeat(c.NumRanks(), false);
      issued, returned := [], [];
      refreshCountdown := [];
      var shared := new SharedBanks(Repeat(c.NumRanks(), Repeat(c.NumBanks(), FRESH_BANK)));
      banks := shared;
      commandQueue := new CommandQueue(c, shared);
      new;
      hide InitialQueue, EmptyQueues, Staggered, Shape, AllPlaced, WellFormed, Shows, Share;
      StaggerRefreshes();
      ShowsInitial();
    }

    method StaggerRefreshes()
      modifies `refreshCountdown
      ensures refreshCountdown == Staggered(Share(c.refreshPeriod, c.NumRanks()), c.NumRanks())
    {
      refreshCountdown := [];
      var i := 0;
      while i < c.NumRanks()
        invariant 0 <= i <= c.NumRanks()
        invariant refreshCountdown == Staggered(Share(c.refreshPeriod, c.NumRanks()), i)
      {
        refreshCountdown := refreshCountdown + [c.refreshPeriod / c.NumRanks() * (i + 1)];
        i := i + 1;
      }
    }

    lemma ShowsInitial()
      requires Attached() && currentClockCycle == 0 && State() == Initial(c).mc && transactionQueue == []
      requires forall i :: 0 <= i < |ranks| ==> ranks[i].State() == Initial(c).ranks[i]
      ensures Shows(Initial(c))
    {
      hide InitialQueue, Shape, AllPlaced;
      assert RankStates() == Initial(c).ranks;
    }

    // ---- The phases of an update ----

    method UpdateBankStates(ghost s: ChannelState)
      requires Shows(s) && InStep()
      modifies banks
      ensures Shows(AgeBanks(c, s)) && InStep()
    {
      ghost var before := banks.table;
      var i := 0;
      while i < c.NumRanks()
        modifies banks
        invariant 0 <= i <= c.NumRanks() && TableShape(c, banks.table)
        invariant forall r, b :: 0 <= r < c.NumRanks() && 0 <= b < c.NumBanks() ==>
          banks.table[r][b] == if r < i then Age(c, before[r][b]) else before[r][b]
      {
        var j := 0;
        while j < c.NumBanks()
          modifies banks
          invariant 0 <= j <= c.NumBanks() && TableShape(c, banks.table)
          invariant forall r, b :: 0 <= r < c.NumRanks() && 0 <= b < c.NumBanks() ==>
            banks.table[r][b] == if r < i || (r == i && b < j) then Age(c, before[r][b]) else before[r][b]
        {
          var m := banks.table[i][j];
          if m.countdown > 0 {
            m := m.(countdown := m.countdown - 1);
            if m.countdown == 0 {
              match m.lastCommand
              case WRITE_P | READ_P => m := m.(state := Precharging, lastCommand := PRECHARGE, countdown := c.tRP);
              case REFRESH | PRECHARGE => m := m.(state := Idle);
              case _ =>
            }
          }
          banks.table := Put(banks.table, i, j, m);
          j := j + 1;
        }
        i := i + 1;
      }
      SameTable(banks.table, AgeAll(c, before));
    }

    // The command on the bus reaches its rank.
    method HandOver(ghost s: ChannelState) returns (error: Option<Error>)
      requires Shows(s) && InStep() && outgoingCmdPacket.Some? && cmdCyclesLeft == 0
      modifies `outgoingCmdPacket, ranks
      ensures var p := s.mc.outgoingCmd.value;
        match RankReceive(c, s.clock, s.ranks[p.rank], p)
        case Halt(e) => error == Some(e)
        case Ok(k) =>
          && error.None? && InStep()
          && Shows(s.(mc := s.mc.(cmdCyclesLeft := 0, outgoingCmd := None), ranks := s.ranks[p.rank := k]))
    {
      hide RankReceive, Shape, AllPlaced;
      var p := outgoingCmdPacket.value;
      error := ranks[p.rank].ReceiveFromBus(p);
      if error.None? {
        outgoingCmdPacket := None;
        assert RankStates() == s.ranks[p.rank := ranks[p.rank].State()];
      }
    }

    method DeliverCommand(ghost s: ChannelState) returns (error: Option<Error>)
      requires Shows(s) && InStep()
      modifies this, ranks
      ensures match Channel.DeliverCommand(c, s)
              case Halt(e) => error == Some(e)
              case Ok(s') => error.None? && Shows(s') && InStep()
    {
      hide Attached, RankStates, RankReceive, Shape, TableShape;
      error := None;
      if outgoingCmdPacket.Some? {
        cmdCyclesLeft := Dec32(cmdCyclesLeft);
        ghost var s1 := s.(mc := s.mc.(cmdCyclesLeft := cmdCyclesLeft));
        assert Shows(s1);
        hide WellFormed, Shows, InStep;
        if cmdCyclesLeft == 0 {
          error := HandOver(s1);
        }
      }
    }

    method AdvanceBursts()
      modifies `outgoingDataPacket, `dataCyclesLeft, `writeDataCountdown
      ensures State() == Channel.AdvanceBursts(old(State())) && |writeDataCountdown| == old(|writeDataCountdown|)
    {
      if outgoingDataPacket.Some? {
        dataCyclesLeft := Dec32(dataCyclesLeft);
        if dataCyclesLeft == 0 {
          outgoingDataPacket := None;
        }
      }
      ghost var before := writeDataCountdown;
      var i := 0;
      while i < |writeDataCountdown|
        modifies `writeDataCountdown
        invariant 0 <= i <= |writeDataCountdown| == |before|
        invariant forall j :: 0 <= j < |before| ==> writeDataCountdown[j] == if j < i then Dec32(before[j]) else before[j]
      {
        writeDataCountdown := writeDataCountdown[i := Dec32(writeDataCountdown[i])];
        i := i + 1;
      }
      assert writeDataCountdown == DecAll(before);
    }

    // The oldest write's data takes the bus.
    method StartBurst(ghost s: ChannelState)
      requires Shows(s) && InStep() && |writeDataToSend| > 0
      modifies `outgoingDataPacket, `dataCyclesLeft, `writeDataCountdown, `writeDataToSend
      ensures InStep()
      ensures Shows(s.(mc := s.mc.(outgoingData := Some(s.mc.writeDataToSend[0]), dataCyclesLeft := c.BL / 2,
                                   writeDataCountdown := s.mc.writeDataCountdown[1..],
                                   writeDataToSend := s.mc.writeDataToSend[1..])))
    {
      hide Attached, RankStates, TableShape, Shape;
      outgoingDataPacket := Some(writeDataToSend[0]);
      dataCyclesLeft := c.BL / 2;
      writeDataCountdown := writeDataCountdown[1..];
      writeDataToSend := writeDataToSend[1..];
    }

    method DriveDataBus(ghost s: ChannelState) returns (error: Option<Error>)
      requires Shows(s) && InStep()
      modifies `outgoingDataPacket, `dataCyclesLeft, `writeDataCountdown, `writeDataToSend
      ensures match Channel.DriveDataBus(c, s)
              case Halt(e) => error == Some(e)
              case Ok(s') => error.None? && Shows(s') && InStep()
    {
      hide Attached, RankStates, TableShape, Shape, DecAll, Channel.AdvanceBursts;
      AdvanceBursts();
      ghost var s1 := s.(mc := Channel.AdvanceBursts(s.mc));
      assert Shows(s1) && InStep() && |writeDataToSend| == |writeDataCountdown|;
      hide WellFormed, Shows, InStep;
      if |writeDataCountdown| > 0 && writeDataCountdown[0] == 0 {
        if outgoingDataPacket.Some? {
          return Some(DataBusCollision);
        }
        StartBurst(s1);
      }
      error := None;
    }

    // Tell a rank that a refresh waits for it.
    method FlagRank(r: nat, ghost s: ChannelState)
      requires Shows(s) && InStep() && r < c.NumRanks()
      modifies ranks
      ensures Shows(s.(ranks := s.ranks[r := s.ranks[r].(refreshWaiting := true)])) && InStep()
    {
      hide Shape, AllPlaced, TableShape;
      ranks[r].refreshWaiting := true;
      assert RankStates() == s.ranks[r := s.ranks[r].(refreshWaiting := true)];
    }

    method AskForRefresh(r: nat, ghost s: ChannelState)
      requires Shows(s) && InStep() && r < c.NumRanks()
      modifies commandQueue
      ensures Shows(s.(mc := s.mc.(queue := NeedRefresh(s.mc.queue, r)))) && InStep()
    {
      hide AllPlaced, TableShape, TableOf, Shape, RankStates, Fields, Placed;
      commandQueue.NeedsRefresh(r);
      assert RankStates() == s.ranks;
    }

    method RestartRefreshTimer(ghost s: ChannelState)
      requires Shows(s) && InStep()
      modifies `refreshCountdown, `refreshRank
      ensures var r := s.mc.refreshRank;
        && InStep()
        && Shows(s.(mc := s.mc.(refreshCountdown := s.mc.refreshCountdown[r := c.refreshPeriod],
                                refreshRank := if r + 1 == c.NumRanks() then 0 else r + 1)))
    {
      hide Attached, RankStates, Shape, TableShape;
      refreshCountdown := refreshCountdown[refreshRank := c.refreshPeriod];
      refreshRank := refreshRank + 1;
      if refreshRank == c.NumRanks() {
        refreshRank := 0;
      }
    }

    method RefreshTimer(ghost s: ChannelState)
      requires Shows(s) && InStep()
      modifies this, commandQueue, ranks
      ensures Shows(Channel.RefreshTimer(c, s)) && InStep()
    {
      assert WellFormed(c, s) && s.mc == State() && Fields();
      hide Shows, InStep, Attached, Fields, NeedRefresh;
      var r := refreshRank;
      if refreshCountdown[r] == 0 {
        AskForRefresh(r, s);
        ghost var s1 := s.(mc := s.mc.(queue := NeedRefresh(s.mc.queue, r)));
        FlagRank(r, s1);
        RestartRefreshTimer(s1.(ranks := s1.ranks[r := s1.ranks[r].(refreshWaiting := true)]));
      } else if powerDown[r] && refreshCountdown[r] <= c.tXP {
        FlagRank(r, s);
      }
    }

    // ---- The table after a popped command ----

    method DelayAfterRead(p: BusPacket)
      requires TableShape(c, banks.table)
      modifies banks
      ensures TableShape(c, banks.table)
      ensures forall r, b :: 0 <= r < c.NumRanks() && 0 <= b < c.NumBanks() ==>
        banks.table[r][b] == AfterRead(c, currentClockCycle, p, r, old(banks.table)[r][b])
    {
      ghost var before := banks.table;
      var t := currentClockCycle;
      var i := 0;
      while i < c.NumRanks()
        modifies banks
        invariant 0 <= i <= c.NumRanks() && TableShape(c, banks.table)
        invariant forall r, b :: 0 <= r < c.NumRanks() && 0 <= b < c.NumBanks() ==>
          banks.table[r][b] == if r < i then AfterRead(c, t, p, r, before[r][b]) else before[r][b]
      {
        var j := 0;
        while j < c.NumBanks()
          modifies banks
          invariant 0 <= j <= c.NumBanks() && TableShape(c, banks.table)
          invariant forall r, b :: 0 <= r < c.NumRanks() && 0 <= b < c.NumBanks() ==>
            banks.table[r][b] ==
              if r < i || (r == i && b < j) then AfterRead(c, t, p, r, before[r][b]) else before[r][b]
        {
          var m := banks.table[i][j];
          if i != p.rank {
            if m.state == RowActive {
              m := m.(nextRead := Max(t + c.BL / 2 + c.tRTRS, m.nextRead),
                      nextWrite := Max(t + c.ReadToWrite(), m.nextWrite));
            }
          } else {
            m := m.(nextRead := Max(t + c.ColumnGap(), m.nextRead), nextWrite := Max(t + c.ReadToWrite(), m.nextWrite));
          }
          banks.table := Put(banks.table, i, j, m);
          j := j + 1;
        }
        i := i + 1;
      }
    }

    method DelayAfterWrite(p: BusPacket)
      requires TableShape(c, banks.table)
      modifies banks
      ensures TableShape(c, banks.table)
      ensures forall r, b :: 0 <= r < c.NumRanks() && 0 <= b < c.NumBanks() ==>
        banks.table[r][b] == AfterWrite(c, currentClockCycle, p, r, old(banks.table)[r][b])
    {
      ghost var before := banks.table;
      var t := currentClockCycle;
      var i := 0;
      while i < c.NumRanks()
        modifies banks
        invariant 0 <= i <= c.NumRanks() && TableShape(c, banks.table)
        invariant forall r, b :: 0 <= r < c.NumRanks() && 0 <= b < c.NumBanks() ==>
          banks.table[r][b] == if r < i then AfterWrite(c, t, p, r, before[r][b]) else before[r][b]
      {
        var j := 0;
        while j < c.NumBanks()
          modifies banks
          invariant 0 <= j <= c.NumBanks() && TableShape(c, banks.table)
          invariant forall r, b :: 0 <= r < c.NumRanks() && 0 <= b < c.NumBanks() ==>
            banks.table[r][b] ==
              if r < i || (r == i && b < j) then AfterWrite(c, t, p, r, before[r][b]) else before[r][b]
        {
          var m := banks.table[i][j];
          if i != p.rank {
            if m.state == RowActive {
              m := m.(nextWrite := Max(t + c.BL / 2 + c.tRTRS, m.nextWrite),
                      nextRead := Max(t + c.WriteToReadRank(), m.nextRead));
            }
          } else {
            m := m.(nextWrite := Max(t + c.ColumnGap(), m.nextWrite),
                    nextRead := Max(t + c.WriteToReadBank(), m.nextRead));
          }
          banks.table := Put(banks.table, i, j, m);
          j := j + 1;
        }
        i := i + 1;
      }
    }

    method TableAfterRead(p: BusPacket)
      requires TableShape(c, banks.table) && p.IsRead() && p.rank < c.NumRanks() && p.bank < c.NumBanks()
      modifies banks
      ensures banks.table == IssueAll(c, currentClockCycle, p, old(banks.table))
    {
      ghost var before := banks.table;
      var t, rank, bank := currentClockCycle, p.rank, p.bank;
      var m := banks.table[rank][bank];
      if p.kind == READ_P {
        m := m.(nextActivate := Max(t + c.ReadAutoPre(), m.nextActivate), lastCommand := READ_P,
                countdown := CountdownOf(c.ReadToPre()));
      } else {
        m := m.(nextPrecharge := Max(t + c.ReadToPre(), m.nextPrecharge), lastCommand := READ);
      }
      banks.table := Put(banks.table, rank, bank, m);
      DelayAfterRead(p);
      if p.kind == READ_P {
        m := banks.table[rank][bank];
        banks.table := Put(banks.table, rank, bank, m.(nextRead := m.nextActivate, nextWrite := m.nextActivate));
      }
      SameTable(banks.table, IssueAll(c, t, p, before));
    }

    method TableAfterWrite(p: BusPacket)
      requires TableShape(c, banks.table) && p.IsWrite() && p.rank < c.NumRanks() && p.bank < c.NumBanks()
      modifies banks
      ensures banks.table == IssueAll(c, currentClockCycle, p, old(banks.table))
    {
      ghost var before := banks.table;
      var t, rank, bank := currentClockCycle, p.rank, p.bank;
      var m := banks.table[rank][bank];
      if p.kind == WRITE_P {
        m := m.(nextActivate := Max(t + c.WriteAutoPre(), m.nextActivate), lastCommand := WRITE_P,
                countdown := CountdownOf(c.WriteToPre()));
      } else {
        m := m.(nextPrecharge := Max(t + c.WriteToPre(), m.nextPrecharge), lastCommand := WRITE);
      }
      banks.table := Put(banks.table, rank, bank, m);
      DelayAfterWrite(p);
      if p.kind == WRITE_P {
        m := banks.table[rank][bank];
        banks.table := Put(banks.table, rank, bank, m.(nextRead := m.nextActivate, nextWrite := m.nextActivate));
      }
      SameTable(banks.table, IssueAll(c, t, p, before));
    }

    method TableAfterActivate(p: BusPacket)
      requires TableShape(c, banks.table) && p.kind == ACTIVATE && p.rank < c.NumRanks() && p.bank < c.NumBanks()
      modifies banks
      ensures banks.table == IssueAll(c, currentClockCycle, p, old(banks.table))
    {
      ghost var before := banks.table;
      var t, rank, bank := currentClockCycle, p.rank, p.bank;
      var m := banks.table[rank][bank];
      banks.table := Put(banks.table, rank, bank,
        m.(state := RowActive, lastCommand := ACTIVATE, openRow := p.row,
           nextActivate := Max(t + c.tRC, m.nextActivate), nextPrecharge := Max(t + c.tRAS, m.nextPrecharge),
           nextRead := Max(t + (c.tRCD - c.AL), m.nextRead), nextWrite := Max(t + (c.tRCD - c.AL), m.nextWrite)));
      ghost var mid: BankTable := banks.table;
      var i := 0;
      while i < c.NumBanks()
        modifies banks
        invariant 0 <= i <= c.NumBanks() && TableShape(c, banks.table)
        invariant forall r, b :: 0 <= r < c.NumRanks() && 0 <= b < c.NumBanks() ==>
          banks.table[r][b] ==
            if r == rank && b < i && b != bank then mid[r][b].(nextActivate := Max(t + c.tRRD, mid[r][b].nextActivate))
            else mid[r][b]
      {
        if i != bank {
          m := banks.table[rank][i];
          banks.table := Put(banks.table, rank, i, m.(nextActivate := Max(t + c.tRRD, m.nextActivate)));
        }
        i := i + 1;
      }
      SameTable(banks.table, IssueAll(c, t, p, before));
    }

    method TableAfterPrecharge(p: BusPacket)
      requires TableShape(c, banks.table) && p.kind == PRECHARGE && p.rank < c.NumRanks() && p.bank < c.NumBanks()
      modifies banks
      ensures banks.table == IssueAll(c, currentClockCycle, p, old(banks.table))
    {
      ghost var before := banks.table;
      var m := banks.table[p.rank][p.bank];
      banks.table := Put(banks.table, p.rank, p.bank,
        m.(state := Precharging, lastCommand := PRECHARGE, countdown := c.tRP,
           nextActivate := Max(currentClockCycle + c.tRP, m.nextActivate)));
      SameTable(banks.table, IssueAll(c, currentClockCycle, p, before));
    }

    method TableAfterRefresh(p: BusPacket)
      requires TableShape(c, banks.table) && p.kind == REFRESH && p.rank < c.NumRanks()
      modifies banks
      ensures banks.table == IssueAll(c, currentClockCycle, p, old(banks.table))
    {
      ghost var before := banks.table;
      var t, rank := currentClockCycle, p.rank;
      var i := 0;
      while i < c.NumBanks()
        modifies banks
        invariant 0 <= i <= c.NumBanks() && TableShape(c, banks.table)
        invariant forall r, b :: 0 <= r < c.NumRanks() && 0 <= b < c.NumBanks() ==>
          banks.table[r][b] == if r == rank && b < i then Issue(c, t, p, r, b, before[r][b]) else before[r][b]
      {
        var m := banks.table[rank][i];
        banks.table := Put(banks.table, rank, i,
          m.(nextActivate := t + c.tRFC, state := Refreshing, lastCommand := REFRESH, countdown := c.tRFC));
        i := i + 1;
      }
      SameTable(banks.table, IssueAll(c, t, p, before));
    }

    // The controller's table for a popped command.
    method UpdateTable(p: BusPacket)
      requires TableShape(c, banks.table) && p.rank < c.NumRanks() && p.bank < c.NumBanks() && p.kind != DATA
      modifies banks
      ensures banks.table == IssueAll(c, currentClockCycle, p, old(banks.table))
    {
      match p.kind
      case READ_P | READ => TableAfterRead(p);
      case WRITE_P | WRITE => TableAfterWrite(p);
      case ACTIVATE => TableAfterActivate(p);
      case PRECHARGE => TableAfterPrecharge(p);
      case REFRESH => TableAfterRefresh(p);
    }

    method PopCommand(ghost s: ChannelState) returns (popped: Option<BusPacket>)
      requires Shows(s) && InStep()
      modifies `issued, commandQueue
      ensures popped == PopSpec(c, s.clock, s.mc.banks, s.mc.queue).1
      ensures popped.Some? ==>
        popped.value.rank < c.NumRanks() && popped.value.bank < c.NumBanks() && popped.value.kind != DATA
      ensures InStep() && Shows(AfterPop(c, s))
    {
      hide PopSpec, AllPlaced;
      PopsACommand(c, currentClockCycle, banks.table, commandQueue.State());
      popped := commandQueue.Pop();
      issued := issued + [popped];
      assert RankStates() == s.ranks;
    }

    method SendWriteData(p: BusPacket, ghost s: ChannelState)
      requires Shows(s) && InStep()
      modifies `writeDataToSend, `writeDataCountdown
      ensures InStep() && Shows(AfterWriteData(c, s, p))
    {
      hide Attached, RankStates, Shape, TableShape;
      if p.IsWrite() {
        writeDataToSend := writeDataToSend + [p.(kind := DATA)];
        writeDataCountdown := writeDataCountdown + [CountdownOf(c.WL())];
      }
    }

    method RecordInTable(p: BusPacket, ghost s: ChannelState)
      requires Shows(s) && InStep() && p.rank < c.NumRanks() && p.bank < c.NumBanks() && p.kind != DATA
      modifies banks
      ensures InStep() && Shows(s.(mc := s.mc.(banks := IssueAll(c, s.clock, p, s.mc.banks))))
    {
      hide AllPlaced, Shape, Issue;
      UpdateTable(p);
      assert RankStates() == s.ranks;
    }

    method PutOnBus(p: BusPacket, ghost s: ChannelState)
      requires Shows(s) && InStep() && p.rank < c.NumRanks() && p.bank < c.NumBanks()
      modifies `outgoingCmdPacket, `cmdCyclesLeft
      ensures InStep() && Shows(s.(mc := s.mc.(outgoingCmd := Some(p), cmdCyclesLeft := c.tCMD)))
    {
      hide Attached, RankStates, Shape, TableShape;
      outgoingCmdPacket := Some(p);
      cmdCyclesLeft := c.tCMD;
    }

    method IssueCommand(ghost s: ChannelState) returns (error: Option<Error>)
      requires Shows(s) && InStep()
      modifies this, banks, commandQueue
      ensures match Channel.IssueCommand(c, s)
              case Halt(e) => error == Some(e)
              case Ok(s') => error.None? && Shows(s') && InStep()
    {
      hide Issue, Shape, IssueWrite, IssueRead, TableOf, TableShape;
      assert WellFormed(c, s);
      assert outgoingCmdPacket == s.mc.outgoingCmd;
      ghost var s1 := AfterPop(c, s);
      hide PopSpec, IssueAll, Shows, InStep, WellFormed;
      error := None;
      var popped := PopCommand(s);
      if popped.Some? {
        var p := popped.value;
        SendWriteData(p, s1);
        ghost var s2 := AfterWriteData(c, s1, p);
        RecordInTable(p, s2);
        ghost var s3 := s2.(mc := s2.mc.(banks := IssueAll(c, s2.clock, p, s2.mc.banks)));
        if outgoingCmdPacket.Some? {
          return Some(CommandBusCollision);
        }
        PutOnBus(p, s3);
      }
    }

    // The first transaction whose queue has room for its two commands.
    method FindRoom() returns (i: nat)
      requires Valid()
      ensures i == FirstWithRoom(c, commandQueue.State(), transactionQueue)
    {
      hide FirstWithRoom, HasRoomFor, Shape, Decode, AllPlaced, Fill, InRange, Placed, TableOf;
      i := 0;
      while i < |transactionQueue|
        invariant 0 <= i <= |transactionQueue|
        invariant forall j :: 0 <= j < i ==> !HasRoomFor(c, commandQueue.State(), 2, Target(c, transactionQueue[j]))
      {
        DecodeInRange(c.geometry, transactionQueue[i].address);
        var loc := AddressMapping.AddressMapping(c.geometry, transactionQueue[i].address);
        assert Cursor(loc.rank, loc.bank) == Target(c, transactionQueue[i]);
        var room := commandQueue.HasRoom(2, loc.rank, loc.bank);
        if room {
          break;
        }
        i := i + 1;
      }
      FirstWithRoomIs(c, commandQueue.State(), transactionQueue, i);
    }

    method EnqueueFor(kind: BusPacketType, transaction: Transaction, ghost s: ChannelState) returns (error: Option<Error>)
      requires Shows(s) && InStep() && kind != DATA && transaction.address < TWO_64
      modifies commandQueue
      ensures InGrid(c, Target(c, transaction))
      ensures match Channel.Enqueue(c, s.mc.queue, CommandFor(c, kind, transaction))
              case Halt(e) => error == Some(e)
              case Ok(q) => error.None? && InStep() && Shows(s.(mc := s.mc.(queue := q)))
    {
      hide TableShape, Shape, Channel.Enqueue, Decode, AllPlaced, Fields, Fill, InRange, Placed, TableOf;
      DecodeInRange(c.geometry, transaction.address);
      var loc := AddressMapping.AddressMapping(c.geometry, transaction.address);
      assert Cursor(loc.rank, loc.bank) == Target(c, transaction);
      error := commandQueue.Enqueue(BusPacket(kind, transaction.address, loc.column, loc.row, loc.rank, loc.bank));
      assert RankStates() == s.ranks;
    }

    // Take transaction i out; a read waits for its data from now on.
    method TakeTransaction(i: nat, ghost s: ChannelState)
      requires Shows(s) && InStep() && i < |transactionQueue|
      modifies `transactionQueue, `pendingReadTransactions
      ensures InStep() && Shows(Taken(s, i))
    {
      hide Attached, RankStates, Shape, TableShape;
      var transaction := transactionQueue[i];
      transactionQueue := Drop(transactionQueue, i);
      if !transaction.isWrite {
        pendingReadTransactions := pendingReadTransactions + [transaction.address];
      }
    }

    method ExpandTransaction(ghost s: ChannelState) returns (error: Option<Error>)
      requires Shows(s) && InStep()
      modifies this, commandQueue
      ensures match Channel.ExpandTransaction(c, s)
              case Halt(e) => error == Some(e)
              case Ok(s') => error.None? && Shows(s') && InStep()
    {
      hide FirstWithRoom, Decode, AllPlaced, Fill, Placed, TableOf, TableShape;
      assert WellFormed(c, s) && State() == s.mc && Fields();
      error := None;
      var i := FindRoom();
      hide Shows, InStep, Attached, RankStates, Target, Channel.Enqueue, CommandFor, HasRoomFor;
      if i < |transactionQueue| {
        var transaction := transactionQueue[i];
        error := EnqueueFor(ACTIVATE, transaction, s);
        if error.Some? { return; }
        ghost var q1 := Channel.Enqueue(c, s.mc.queue, CommandFor(c, ACTIVATE, transaction)).value;
        ghost var s1 := s.(mc := s.mc.(queue := q1));
        error := EnqueueFor(CommandKind(c, transaction), transaction, s1);
        if error.Some? { return; }
        ghost var q2 := Channel.Enqueue(c, q1, CommandFor(c, CommandKind(c, transaction), transaction)).value;
        TakeTransaction(i, s1.(mc := s1.mc.(queue := q2)));
      }
    }

    // Change every entry of a rank's row of the table.
    method SetRow(i: nat, f: Bank -> Bank, ghost row: seq<Bank>, ghost s: ChannelState)
      requires Shows(s) && InStep() && i < c.NumRanks()
      requires |row| == |s.mc.banks[i]| && forall b :: 0 <= b < |row| ==> row[b] == f(s.mc.banks[i][b])
      modifies banks
      ensures InStep() && Shows(s.(mc := s.mc.(banks := s.mc.banks[i := row])))
    {
      hide Shape, AllPlaced;
      ghost var before := banks.table;
      var j := 0;
      while j < c.NumBanks()
        modifies banks
        invariant 0 <= j <= c.NumBanks() && TableShape(c, banks.table)
        invariant forall r, b :: 0 <= r < c.NumRanks() && 0 <= b < c.NumBanks() ==>
          banks.table[r][b] == if r == i && b < j then f(before[r][b]) else before[r][b]
      {
        banks.table := Put(banks.table, i, j, f(banks.table[i][j]));
        j := j + 1;
      }
      SameTable(banks.table, before[i := row]);
      assert RankStates() == s.ranks;
    }

    // Whether every bank of a rank is idle in the controller's table.
    method RankIsIdle(i: nat) returns (yes: bool)
      requires TableShape(c, banks.table) && i < c.NumRanks()
      ensures yes == AllIdle(banks.table[i])
    {
      yes := true;
      var j := 0;
      while j < c.NumBanks()
        invariant 0 <= j <= c.NumBanks()
        invariant yes && forall b :: 0 <= b < j ==> banks.table[i][b].state == Idle
      {
        if banks.table[i][j].state != Idle {
          return false;
        }
        j := j + 1;
      }
    }

    // The flag and the object of rank i have changed, its row of the table has not yet.
    lemma ShowsWithRank(i: nat, flag: bool, k: RankState, s: ChannelState)
      requires Valid() && WellFormed(c, s) && i < c.NumRanks() && s.clock == currentClockCycle
      requires s.mc.(powerDown := s.mc.powerDown[i := flag]) == State() && |k.banks| == c.NumBanks()
      requires |k.readReturnPacket| == |k.readReturnCountdown|
      requires forall r :: 0 <= r < |ranks| ==> ranks[r].State() == if r == i then k else s.ranks[r]
      ensures Shows(WithRank(s, i, s.mc.banks[i], flag, k))
    {
      hide Shape, AllPlaced;
      assert RankStates() == s.ranks[i := k];
    }

    method PowerDownRank(i: nat, ghost s: ChannelState) returns (error: Option<Error>)
      requires Shows(s) && InStep() && i < c.NumRanks()
      modifies `powerDown, banks, ranks
      ensures match RankPowerDown(c, s.clock, s.ranks[i])
              case Halt(e) => error == Some(e)
              case Ok(k) =>
                && error.None? && InStep()
                && Shows(WithRank(s, i, PoweredDownRow(c, s.clock, s.mc.banks[i]), true, k))
    {
      hide Shape, AllPlaced, RankPowerDown;
      powerDown := powerDown[i := true];
      error := ranks[i].PowerDown();
      if error.None? {
        var t := currentClockCycle;
        ghost var k := RankPowerDown(c, s.clock, s.ranks[i]).value;
        ghost var s1 := WithRank(s, i, s.mc.banks[i], true, k);
        ShowsWithRank(i, true, k, s);
        hide Shows, InStep, Attached, RankStates;
        ghost var row := PoweredDownRow(c, t, s.mc.banks[i]);
        SetRow(i, (m: Bank) => m.(state := PowerDown, nextPowerUp := t + c.tCKE), row, s1);
        assert WithRank(s, i, row, true, k) == s1.(mc := s1.mc.(banks := s1.mc.banks[i := row]));
      }
    }

    method PowerUpRank(i: nat, ghost s: ChannelState) returns (error: Option<Error>)
      requires Shows(s) && InStep() && i < c.NumRanks()
      modifies `powerDown, banks, ranks
      ensures match RankPowerUp(c, s.clock, s.ranks[i])
              case Halt(e) => error == Some(e)
              case Ok(k) =>
                && error.None? && InStep()
                && Shows(WithRank(s, i, PoweredUpRow(c, s.clock, s.mc.banks[i]), false, k))
    {
      hide Shape, AllPlaced, RankPowerUp;
      powerDown := powerDown[i := false];
      error := ranks[i].PowerUp();
      if error.None? {
        var t := currentClockCycle;
        ghost var k := RankPowerUp(c, s.clock, s.ranks[i]).value;
        ghost var s1 := WithRank(s, i, s.mc.banks[i], false, k);
        ShowsWithRank(i, false, k, s);
        hide Shows, InStep, Attached, RankStates;
        ghost var row := PoweredUpRow(c, t, s.mc.banks[i]);
        SetRow(i, (m: Bank) => m.(state := Idle, nextActivate := t + c.tXP), row, s1);
        assert WithRank(s, i, row, false, k) == s1.(mc := s1.mc.(banks := s1.mc.banks[i := row]));
      }
    }

    // Power one rank down when nothing needs it, or up when something does.
    method PowerRank(i: nat, ghost s: ChannelState) returns (error: Option<Error>)
      requires Shows(s) && InStep() && i < c.NumRanks()
      modifies this, banks, ranks
      ensures match PowerOne(c, s.clock, s.mc.banks[i], s.mc.powerDown[i], RankQueuesEmpty(c, s.mc.queue, i), s.ranks[i])
              case Halt(e) => error == Some(e)
              case Ok(out) => error.None? && InStep() && Shows(WithRank(s, i, out.0, out.1, out.2))
    {
      assert WellFormed(c, s) && TableShape(c, banks.table) && State() == s.mc && s.clock == currentClockCycle;
      assert |ranks| == c.NumRanks() && ranks[i].State() == s.ranks[i];
      error := None;
      var empty := commandQueue.IsEmpty(i);
      var idle := RankIsIdle(i);
      assert WithRank(s, i, s.mc.banks[i], s.mc.powerDown[i], s.ranks[i]) == s;
      hide Shows, InStep, Attached, RankStates, Shape, RankPowerDown, RankPowerUp, RankQueuesEmpty, AllIdle, WithRank;
      if empty && !ranks[i].refreshWaiting {
        if idle {
          error := PowerDownRank(i, s);
        }
      } else if currentClockCycle >= banks.table[i][0].nextPowerUp && powerDown[i] {
        error := PowerUpRank(i, s);
      }
    }

    // Rank i, once the ranks before it have been handled.
    method PowerNext(i: nat, ghost s: ChannelState, ghost now: ChannelState) returns (error: Option<Error>)
      requires WellFormed(c, s) && i < c.NumRanks() && PowerRanks(c, s, i) == Ok(now)
      requires Shows(now) && InStep()
      modifies this, banks, ranks
      ensures match PowerRanks(c, s, i + 1)
              case Halt(e) => error == Some(e)
              case Ok(s') => error.None? && Shows(s') && InStep()
    {
      hide PowerOne, PowerRanks, RankQueuesEmpty, WithRank, Shows, InStep, WellFormed;
      PowerRanksStep(c, s, i);
      error := PowerRank(i, now);
    }

    method ManagePower(ghost s: ChannelState) returns (error: Option<Error>)
      requires Shows(s) && InStep()
      modifies this, banks, ranks
      ensures match Channel.ManagePower(c, s)
              case Halt(e) => error == Some(e)
              case Ok(s') => error.None? && Shows(s') && InStep()
    {
      hide PowerRanks, Shows, InStep, WellFormed, Attached, RankStates;
      ShownIsWellFormed(s);
      PowerRanksStart(c, s);
      error := None;
      if !c.useLowPower {
        return;
      }
      ghost var now := s;
      var i := 0;
      while i < c.NumRanks()
        invariant 0 <= i <= c.NumRanks() && error.None? && InStep()
        invariant Shows(now) && PowerRanks(c, s, i) == Ok(now)
      {
        error := PowerNext(i, s, now);
        if error.Some? {
          PowerRanksHalt(c, s, i + 1, c.NumRanks());
          return;
        }
        now := PowerRanks(c, s, i + 1).value;
        i := i + 1;
      }
    }

    // Hand the oldest returned data to the first pending read of its address.
    method ReturnRead(ghost s: ChannelState) returns (error: Option<Error>)
      requires Shows(s) && InStep()
      modifies this
      ensures match Channel.ReturnRead(c, s)
              case Halt(e) => error == Some(e)
              case Ok(s') => error.None? && Shows(s') && InStep()
    {
      error := None;
      if |returnTransaction| > 0 {
        var foundMatch := false;
        var address := returnTransaction[0];
        ghost var waiting := pendingReadTransactions;
        var i := 0;
        while i < |pendingReadTransactions|
          modifies {}
          invariant 0 <= i <= |pendingReadTransactions| && !foundMatch
          invariant forall j :: 0 <= j < i ==> waiting[j] != address
        {
          if pendingReadTransactions[i] == address {
            foundMatch := true;
            break;
          }
          i := i + 1;
        }
        IndexOfIs(waiting, address, i);
        if !foundMatch {
          return Some(NoMatchingRead);
        }
        returned := returned + [address];
        pendingReadTransactions := Drop(pendingReadTransactions, i);
        returnTransaction := returnTransaction[1..];
      }
    }

    method CountRefresh(ghost s: ChannelState)
      requires Shows(s) && InStep()
      modifies this`refreshCountdown
      ensures Shows(Channel.CountRefresh(c, s)) && InStep()
    {
      ghost var before := refreshCountdown;
      var i := 0;
      while i < c.NumRanks()
        modifies `refreshCountdown
        invariant 0 <= i <= c.NumRanks() == |refreshCountdown| == |before|
        invariant forall j :: 0 <= j < |before| ==> refreshCountdown[j] == if j < i then Dec32(before[j]) else before[j]
      {
        refreshCountdown := refreshCountdown[i := Dec32(refreshCountdown[i])];
        i := i + 1;
      }
      assert refreshCountdown == DecAll(before);
    }

    method UpToIssue(ghost s: ChannelState) returns (error: Option<Error>)
      requires Shows(s) && InStep()
      modifies this, banks, commandQueue, ranks
      ensures match BeforeIssue(c, s)
              case Halt(e) => error == Some(e)
              case Ok(s') => error.None? && Shows(s') && InStep()
    {
      hide Channel.DeliverCommand, Channel.DriveDataBus, Channel.RefreshTimer, AgeBanks, WellFormed, Shows, InStep;
      ShownIsWellFormed(s);
      UpdateBankStates(s);
      ghost var s1 := AgeBanks(c, s);
      error := DeliverCommand(s1);
      if error.Some? { return; }
      ghost var s2 := Channel.DeliverCommand(c, s1).value;
      error := DriveDataBus(s2);
      if error.Some? { return; }
      RefreshTimer(Channel.DriveDataBus(c, s2).value);
    }

    method FromExpansion(ghost s: ChannelState) returns (error: Option<Error>)
      requires Shows(s) && InStep()
      modifies this, banks, commandQueue, ranks
      ensures match AfterIssue(c, s)
              case Halt(e) => error == Some(e)
              case Ok(s') => error.None? && Shows(s') && InStep()
    {
      hide Channel.ExpandTransaction, Channel.ManagePower, Channel.ReturnRead, Channel.CountRefresh, WellFormed, Shows,
        InStep;
      ShownIsWellFormed(s);
      error := ExpandTransaction(s);
      if error.Some? { return; }
      ghost var s1 := Channel.ExpandTransaction(c, s).value;
      error := ManagePower(s1);
      if error.Some? { return; }
      ghost var s2 := Channel.ManagePower(c, s1).value;
      error := ReturnRead(s2);
      if error.Some? { return; }
      CountRefresh(Channel.ReturnRead(c, s2).value);
    }

    // One cycle. The command queue's clock moves here, the controller's own in Step.
    method Update(ghost s: ChannelState) returns (error: Option<Error>)
      requires Shows(s) && InStep()
      modifies this, banks, commandQueue, ranks
      ensures match UpdateController(c, s)
              case Halt(e) => error == Some(e)
              case Ok(s') =>
                && error.None? && Shows(s')
                && commandQueue.currentClockCycle == currentClockCycle + 1
                && forall i :: 0 <= i < |ranks| ==> ranks[i].currentClockCycle == currentClockCycle
    {
      hide BeforeIssue, Channel.IssueCommand, AfterIssue, UpdateController, WellFormed, Shows, InStep;
      ShownIsWellFormed(s);
      UpdateInThree(c, s);
      error := UpToIssue(s);
      if error.Some? { return; }
      ghost var s1 := BeforeIssue(c, s).value;
      error := IssueCommand(s1);
      if error.Some? { return; }
      ghost var s2 := Channel.IssueCommand(c, s1).value;
      error := FromExpansion(s2);
      if error.Some? { return; }
      StepQueue(AfterIssue(c, s2).value);
    }

    method StepQueue(ghost s: ChannelState)
      requires Shows(s) && InStep()
      modifies commandQueue
      ensures Shows(s) && commandQueue.currentClockCycle == currentClockCycle + 1
      ensures forall i :: 0 <= i < |ranks| ==> ranks[i].currentClockCycle == currentClockCycle
    {
      commandQueue.Step();
      assert RankStates() == s.ranks;
    }

    // Data returned by a rank.
    method ReceiveFromBus(p: BusPacket) returns (error: Option<Error>)
      modifies this`returnTransaction
      ensures error == if p.kind != DATA then Some(NotADataPacket) else None
      ensures error.None? ==> returnTransaction == old(returnTransaction) + [p.address]
    {
      if p.kind != DATA {
        return Some(NotADataPacket);
      }
      returnTransaction := returnTransaction + [p.address];
      error := None;
    }

    method AddTransaction(transaction: Transaction) returns (accepted: bool)
      modifies this`transactionQueue
      ensures accepted == (old(|transactionQueue|) < c.transQueueDepth)
      ensures transactionQueue == if accepted then old(transactionQueue) + [transaction] else old(transactionQueue)
    {
      accepted := |transactionQueue| < c.transQueueDepth;
      if accepted {
        transactionQueue := transactionQueue + [transaction];
      }
    }

    method Step(ghost s: ChannelState)
      requires Shows(s)
      modifies `currentClockCycle
      ensures currentClockCycle == old(currentClockCycle) + 1 && Shows(s.(clock := s.clock + 1))
    {
      hide Attached, RankStates, Shape, TableShape;
      currentClockCycle := currentClockCycle + 1;
    }
  }

  // Whatever the queue pops is a command.
  lemma PopsACommand(c: Config, t: int, banks: BankTable, q: QueueState)
    requires TableShape(c, banks) && Shape(c, q)
    ensures var p := PopSpec(c, t, banks, q).1; p.Some? ==> p.value.kind != DATA
  {
    hide FirstReady, Ready, FirstClosable, FirstEligible, Eligible, TakeFrom, Closable, Issuable, FirstTo;
    var q0 := AgeWindows(q);
    assert Shape(c, q0);
    RefreshSendsACommand(c, t, banks, q0);
    var (q1, p1) := RefreshWork(c, t, banks, q0);
    ScanSendsACommand(c, t, banks, q1);
    hide AgeWindows, Finish, RefreshWork, ScanQueues, TableShape, Shape;
  }

  lemma RefreshSendsACommand(c: Config, t: int, banks: BankTable, q: QueueState)
    requires TableShape(c, banks) && Shape(c, q)
    ensures var p := RefreshWork(c, t, banks, q).1; p.Some? ==> p.value.kind != DATA
  {
    hide Put, Drop, FirstBusy, FirstTo;
  }

  lemma ScanSendsACommand(c: Config, t: int, banks: BankTable, q: QueueState)
    requires TableShape(c, banks) && Shape(c, q)
    ensures var p := ScanQueues(c, t, banks, q).1; p.Some? ==> p.value.kind != DATA
  {
    hide TakeFrom, EarlierColumn, AdvanceQueue;
  }

  lemma FirstWithRoomIs(c: Config, q: QueueState, trs: seq<Transaction>, k: nat)
    requires Shape(c, q) && k <= |trs| && (k < |trs| ==> HasRoomFor(c, q, 2, Target(c, trs[k])))
    requires forall j :: 0 <= j < k ==> !HasRoomFor(c, q, 2, Target(c, trs[j]))
    ensures FirstWithRoom(c, q, trs) == k
  {
    hide HasRoomFor, Target;
    var n := FirstWithRoom(c, q, trs);
    assert n == |trs| || HasRoomFor(c, q, 2, Target(c, trs[n]));
    assert k == |trs| || HasRoomFor(c, q, 2, Target(c, trs[k]));
  }

  lemma IndexOfIs(s: seq<nat>, a: nat, k: nat)
    requires k <= |s| && (k < |s| ==> s[k] == a)
    requires forall j :: 0 <= j < k ==> s[j] != a
    ensures IndexOf(s, a) == k
  {
    var n := IndexOf(s, a);
    assert forall j :: 0 <= j < n ==> s[j] != a by {
      forall j | 0 <= j < n ensures s[j] != a {
        assert s[..n][j] == s[j];
      }
    }
  }

  // Once the power handling of a rank stops the simulator, later ranks do not matter.
  lemma {:induction false} PowerRanksHalt(c: Config, s: ChannelState, n: nat, m: nat)
    requires WellFormed(c, s) && n <= m <= c.NumRanks() && PowerRanks(c, s, n).Halt?
    ensures PowerRanks(c, s, m) == PowerRanks(c, s, n)
  {
    hide WellFormed, PowerOne, RankQueuesEmpty, Shape, TableOf, TableShape;
    if n < m {
      PowerRanksHalt(c, s, n, m - 1);
    }
  }

  lemma SameTable(a: BankTable, b: BankTable)
    requires |a| == |b| && forall r :: 0 <= r < |a| ==> |a[r]| == |b[r]|
    requires forall r, i :: 0 <= r < |a| && 0 <= i < |a[r]| ==> a[r][i] == b[r][i]
    ensures a == b
  {
    forall r | 0 <= r < |a| ensures a[r] == b[r] {
    }
  }
}
