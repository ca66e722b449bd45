// The memory system object: it steps its ranks and its controller in a fixed order
// and holds the transactions the controller has no room for.
module MemorySystems {
  import opened Wrappers
  import opened Bits
  import opened SystemConfiguration
  import opened BankState
  import opened Scheduler
  import opened Channel
  import opened CommandQueues
  import opened Ranks
  import opened MemoryControllers

  predicate DeliversData(c: Config, s: ChannelState, r: nat)
    requires WellFormed(c, s) && r < c.NumRanks()
  {
    Output(c, s, r).Some? ==> Output(c, s, r).value.kind == DATA
  }

  // Ranks before i have delivered their data, and the controller has it.
  ghost predicate MovedUpTo(c: Config, s: ChannelState, i: nat, returned: seq<nat>)
    requires WellFormed(c, s) && i <= c.NumRanks()
  {
    && returned == s.mc.returnTransaction + OutputsUpTo(c, s, i)
    && forall r :: 0 <= r < i ==> DeliversData(c, s, r)
  }

  lemma MovesNone(c: Config, s: ChannelState)
    requires WellFormed(c, s)
    ensures |s.ranks| == c.NumRanks() && MovedUpTo(c, s, 0, s.mc.returnTransaction)
  {
  }

  lemma MovesOne(c: Config, s: ChannelState, i: nat, returned: seq<nat>)
    requires WellFormed(c, s) && i < c.NumRanks() && MovedUpTo(c, s, i, returned)
    ensures var out := RankUpdate(c, s.ranks[i]).1;
      if out.Some? && out.value.kind != DATA then exists r :: 0 <= r < c.NumRanks() && !DeliversData(c, s, r)
      else MovedUpTo(c, s, i + 1, returned + AddressesIn(out))
  {
    hide RankUpdate;
    assert DeliversData(c, s, i) <==> (Output(c, s, i).Some? ==> Output(c, s, i).value.kind == DATA);
  }

  lemma InitialWaitsForNothing(c: Config)
    ensures Initial(c).clock == 0 && Initial(c).pending == []
  {
    hide InitialQueue, Staggered, Share, Shape, TableShape;
  }

  class MemorySystem {
    const c: Config
    const memoryController: MemoryController
    const ranks: seq<Rank>
    var currentClockCycle: nat
    var pendingTransactions: seq<Transaction>

    // The state of the whole channel.
    ghost function View(): ChannelState
      reads this, memoryController, memoryController.banks, memoryController.commandQueue, memoryController.ranks
    {
      ChannelState(currentClockCycle, memoryController.State(), memoryController.RankStates(), pendingTransactions)
    }

    ghost predicate Valid()
      reads this, memoryController, memoryController.banks, memoryController.commandQueue, memoryController.ranks
    {
      && memoryController.c == c && memoryController.ranks == ranks
      && memoryController.Shows(View()) && memoryController.InStep()
      && forall i :: 0 <= i < |pendingTransactions| ==> pendingTransactions[i].address < TWO_64
    }

    constructor (c: Config)
      requires c.geometry.Valid()
      ensures Valid() && this.c == c && View() == Initial(c)
      ensures fresh(memoryController) && fresh(memoryController.banks) && fresh(memoryController.commandQueue)
    {
      InitialWaitsForNothing(c);
      hide MemoryController.Shows, Initial;
      var built := NewRanks(c);
      var controller := new MemoryController(c, built);
      this.c, ranks, memoryController := c, built, controller;
      currentClockCycle, pendingTransactions := 0, [];
      new;
      memoryController.ShownParts(Initial(c));
    }

    static method NewRanks(c: Config) returns (built: seq<Rank>)
      ensures |built| == c.NumRanks() && forall a, b :: 0 <= a < b < |built| ==> built[a] != built[b]
      ensures forall r :: 0 <= r < |built| ==>
        && fresh(built[r]) && built[r].c == c && built[r].Valid() && built[r].currentClockCycle == 0
        && built[r].State() == Initial(c).ranks[r]
    {
      hide InitialQueue;
      built := [];
      var i := 0;
      while i < c.NumRanks()
        invariant |built| == i <= c.NumRanks()
        invariant forall a, b :: 0 <= a < b < |built| ==> built[a] != built[b]
        invariant forall r :: 0 <= r < |built| ==>
          && fresh(built[r]) && built[r].c == c && built[r].Valid() && built[r].currentClockCycle == 0
          && built[r].State() == RankState(Repeat(c.NumBanks(), FRESH_BANK), false, false, [], [], None, 0)
      {
        var rank := new Rank(c);
        built := built + [rank];
        i := i + 1;
      }
    }

    // One rank moves its data; what it delivers goes to the controller.
    method UpdateRank(i: nat, ghost before: RankState) returns (error: Option<Error>)
      requires i < |ranks| && ranks[i].c == c && ranks[i].Valid() && ranks[i].State() == before
      modifies ranks[i], memoryController`returnTransaction
      ensures ranks[i].Valid() && ranks[i].State() == RankUpdate(c, before).0
      ensures ranks[i].currentClockCycle == old(ranks[i].currentClockCycle)
      ensures var out := RankUpdate(c, before).1;
        if out.Some? && out.value.kind != DATA then error == Some(NotADataPacket)
        else error.None? && memoryController.returnTransaction == old(memoryController.returnTransaction) + AddressesIn(out)
    {
      hide RankUpdate;
      error := None;
      var delivered := ranks[i].Update();
      if delivered.Some? {
        error := memoryController.ReceiveFromBus(delivered.value);
      }
    }

    // All ranks, in order, up to the first that does not deliver data.
    method MoveRanks(ghost s: ChannelState) returns (error: Option<Error>)
      requires WellFormed(c, s) && |ranks| == c.NumRanks()
      requires forall i, j :: 0 <= i < j < |ranks| ==> ranks[i] != ranks[j]
      requires forall r :: 0 <= r < |ranks| ==> ranks[r].c == c && ranks[r].Valid() && ranks[r].State() == s.ranks[r]
      requires memoryController.returnTransaction == s.mc.returnTransaction
      modifies ranks, memoryController`returnTransaction
      ensures forall r :: 0 <= r < |ranks| ==> ranks[r].currentClockCycle == old(ranks[r].currentClockCycle)
      ensures error.Some? ==> error.value == NotADataPacket && exists r :: 0 <= r < |ranks| && !DeliversData(c, s, r)
      ensures error.None? ==>
        && MovedUpTo(c, s, c.NumRanks(), memoryController.returnTransaction)
        && forall r :: 0 <= r < |ranks| ==> ranks[r].Valid() && ranks[r].State() == RankUpdate(c, s.ranks[r]).0
    {
      hide RankUpdate, Shape, TableShape, MovedUpTo, DeliversData, AddressesIn;
      MovesNone(c, s);
      error := None;
      var i := 0;
      while i < c.NumRanks()
        modifies ranks, memoryController`returnTransaction
        invariant 0 <= i <= c.NumRanks() && error.None?
        invariant forall r :: 0 <= r < |ranks| ==>
          ranks[r].Valid() && ranks[r].currentClockCycle == old(ranks[r].currentClockCycle)
        invariant forall r :: 0 <= r < i ==> ranks[r].State() == RankUpdate(c, s.ranks[r]).0
        invariant forall r :: i <= r < |ranks| ==> ranks[r].State() == s.ranks[r]
        invariant MovedUpTo(c, s, i, memoryController.returnTransaction)
      {
        MovesOne(c, s, i, memoryController.returnTransaction);
        error := UpdateRank(i, s.ranks[i]);
        if error.Some? {
          return;
        }
        i := i + 1;
      }
    }

    method UpdateRanks(ghost s: ChannelState) returns (error: Option<Error>)
      requires memoryController.c == c && memoryController.ranks == ranks
      requires memoryController.Shows(s) && memoryController.InStep()
      modifies ranks, memoryController`returnTransaction
      ensures match Channel.UpdateRanks(c, s)
              case Halt(e) => error == Some(e)
              case Ok(s') => error.None? && memoryController.Shows(s') && memoryController.InStep()
    {
      hide RankUpdate, Shape, AllPlaced, TableShape, Channel.UpdateRanks, DeliversData, MovedRanks, OutputsUpTo, View,
           Placed, TableOf;
      error := MoveRanks(s);
      UpdateRanksIs(c, s);
      if error.None? {
        assert memoryController.RankStates() == Channel.UpdateRanks(c, s).value.ranks;
      }
    }

    // Let one waiting transaction in.
    method AdmitPending(ghost s: ChannelState)
      requires Holds(s)
      modifies `pendingTransactions, memoryController`transactionQueue
      ensures Holds(Channel.AdmitPending(c, s))
    {
      hide Shape, TableShape, MemoryController.Attached, MemoryController.RankStates;
      if |pendingTransactions| > 0 && |memoryController.transactionQueue| < c.transQueueDepth {
        var accepted := memoryController.AddTransaction(pendingTransactions[0]);
        pendingTransactions := pendingTransactions[1..];
      }
    }

    // Mid-cycle: the controller and its ranks, and what waits outside, are as in s.
    ghost predicate Holds(s: ChannelState)
      reads this, memoryController, memoryController.banks, memoryController.commandQueue, memoryController.ranks
    {
      && memoryController.c == c && memoryController.ranks == ranks
      && memoryController.Shows(s) && memoryController.InStep()
      && currentClockCycle == s.clock && pendingTransactions == s.pending
      && forall i :: 0 <= i < |pendingTransactions| ==> pendingTransactions[i].address < TWO_64
    }

    // Every object moves to the next cycle.
    method StepAll(ghost s: ChannelState)
      requires memoryController.c == c && memoryController.ranks == ranks
      requires memoryController.Shows(s) && currentClockCycle == s.clock && pendingTransactions == s.pending
      requires forall i :: 0 <= i < |pendingTransactions| ==> pendingTransactions[i].address < TWO_64
      requires memoryController.commandQueue.currentClockCycle == memoryController.currentClockCycle + 1
      requires forall i :: 0 <= i < |ranks| ==> ranks[i].currentClockCycle == memoryController.currentClockCycle
      modifies `currentClockCycle, memoryController, ranks
      ensures Valid() && View() == s.(clock := s.clock + 1)
    {
      StepRanks(s);
      hide MemoryController.Shows;
      memoryController.Step(s);
      currentClockCycle := currentClockCycle + 1;
      assert View() == s.(clock := s.clock + 1) by {
        memoryController.ShownParts(s.(clock := s.clock + 1));
      }
    }

    method StepRanks(ghost s: ChannelState)
      requires memoryController.c == c && memoryController.ranks == ranks && memoryController.Shows(s)
      requires forall i :: 0 <= i < |ranks| ==> ranks[i].currentClockCycle == s.clock
      modifies ranks
      ensures memoryController.Shows(s)
      ensures forall i :: 0 <= i < |ranks| ==> ranks[i].currentClockCycle == s.clock + 1
    {
      hide Shape, AllPlaced, TableShape;
      var i := 0;
      while i < c.NumRanks()
        modifies ranks
        invariant 0 <= i <= c.NumRanks()
        invariant forall r :: 0 <= r < |ranks| ==>
          && ranks[r].Valid() && ranks[r].State() == s.ranks[r]
          && ranks[r].currentClockCycle == if r < i then s.clock + 1 else s.clock
      {
        ranks[i].Step();
        i := i + 1;
      }
      assert memoryController.RankStates() == s.ranks;
    }

    // One cycle of the memory system.
    method Update() returns (error: Option<Error>)
      requires Valid()
      modifies this, memoryController, memoryController.banks, memoryController.commandQueue, ranks
      ensures match Channel.Update(c, old(View()))
              case Halt(e) => error == Some(e)
              case Ok(s) => error.None? && Valid() && View() == s
    {
      hide Channel.UpdateRanks, Channel.AdmitPending, UpdateController, WellFormed, MemoryController.Shows,
        MemoryController.InStep;
      ghost var s := View();
      memoryController.ShownIsWellFormed(s);
      error := UpdateRanks(s);
      if error.Some? { return; }
      ghost var s1 := Channel.UpdateRanks(c, s).value;
      RanksKeepRest(c, s);
      AdmitPending(s1);
      ghost var s2 := Channel.AdmitPending(c, s1);
      error := memoryController.Update(s2);
      if error.Some? { return; }
      ControllerKeepsRest(c, s2);
      StepAll(UpdateController(c, s2).value);
    }

    // A request from the host.
    method AddTransaction(isWrite: bool, address: nat) returns (accepted: bool)
      requires Valid() && address < TWO_64
      modifies `pendingTransactions, memoryController`transactionQueue
      ensures Valid() && accepted
      ensures View() == Channel.AddTransaction(c, old(View()), Transaction(isWrite, address))
    {
      hide Shape, TableShape, MemoryController.Attached, MemoryController.RankStates;
      var transaction := Transaction(isWrite, address);
      if |memoryController.transactionQueue| < c.transQueueDepth {
        accepted := memoryController.AddTransaction(transaction);
      } else {
        pendingTransactions := pendingTransactions + [transaction];
        accepted := true;
      }
    }
  }

  lemma UpdateRanksIs(c: Config, s: ChannelState)
    requires WellFormed(c, s)
    ensures Channel.UpdateRanks(c, s) ==
      if forall r :: 0 <= r < c.NumRanks() ==> DeliversData(c, s, r) then
        Ok(s.(ranks := MovedRanks(c, s),
              mc := s.mc.(returnTransaction := s.mc.returnTransaction + OutputsUpTo(c, s, c.NumRanks()))))
      else Halt(NotADataPacket)
  {
    hide RankUpdate;
    if r :| 0 <= r < c.NumRanks() && !DeliversData(c, s, r) {
      assert Output(c, s, r).Some? && Output(c, s, r).value.kind != DATA;
    } else {
      forall r | 0 <= r < c.NumRanks() ensures !(Output(c, s, r).Some? && Output(c, s, r).value.kind != DATA) {
        assert DeliversData(c, s, r);
      }
    }
  }

  lemma RanksKeepRest(c: Config, s: ChannelState)
    requires WellFormed(c, s)
    ensures var r := Channel.UpdateRanks(c, s); r.Ok? ==> r.value.clock == s.clock && r.value.pending == s.pending
  {
  }

  lemma ControllerKeepsRest(c: Config, s: ChannelState)
    requires WellFormed(c, s)
    ensures var r := UpdateController(c, s); r.Ok? ==> r.value.clock == s.clock && r.value.pending == s.pending
  {
    hide BeforeIssue, Channel.IssueCommand, AfterIssue, UpdateController, WellFormed;
    UpdateInThree(c, s);
    if UpdateController(c, s).Ok? {
      BeforeIssueKeepsRest(c, s);
      IssueKeepsRest(c, BeforeIssue(c, s).value);
      AfterIssueKeepsRest(c, Channel.IssueCommand(c, BeforeIssue(c, s).value).value);
    }
  }

  lemma BeforeIssueKeepsRest(c: Config, s: ChannelState)
    requires WellFormed(c, s)
    ensures var r := BeforeIssue(c, s); r.Ok? ==> r.value.clock == s.clock && r.value.pending == s.pending
  {
    hide RankReceive, WellFormed, DecAll, AgeAll;
  }

  lemma IssueKeepsRest(c: Config, s: ChannelState)
    requires WellFormed(c, s)
    ensures var r := Channel.IssueCommand(c, s); r.Ok? ==> r.value.clock == s.clock && r.value.pending == s.pending
  {
    hide PopSpec, WellFormed;
  }

  lemma AfterIssueKeepsRest(c: Config, s: ChannelState)
    requires WellFormed(c, s)
    ensures var r := AfterIssue(c, s); r.Ok? ==> r.value.clock == s.clock && r.value.pending == s.pending
  {
    hide Enqueue, CommandFor, WellFormed, DecAll, PowerRanks, FirstWithRoom, Target, HasRoomFor, Shape, TableOf,
         TableShape;
  }
}
