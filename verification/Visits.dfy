// One transaction's visit to a rank, cycle by cycle: it enters the empty queues of a rank
// at rest, its activate is sent, then its column access.
module Visits {
  import opened Wrappers
  import opened SystemConfiguration
  import opened BankState
  import opened Scheduler
  import opened QueueInvariant
  import opened Channel
  import opened WriteBus
  import opened ControlPath

  // The transaction is queued in cycle `entry` and its activate is sent in cycle `act`.
  datatype Visit = Visit(cur: Cursor, transaction: Transaction, entry: nat, act: nat)

  function ActOf(c: Config, v: Visit): BusPacket {
    CommandFor(c, ACTIVATE, v.transaction)
  }

  function ColumnOf(c: Config, v: Visit): BusPacket {
    CommandFor(c, CommandKind(c, v.transaction), v.transaction)
  }

  // The cycle of its column access.
  function ColumnCycle(c: Config, v: Visit): nat {
    v.act + ToColumn(c)
  }

  predicate Planned(c: Config, v: Visit) {
    v.cur == Target(c, v.transaction) && v.entry < v.act
  }

  lemma PacketsOf(c: Config, v: Visit)
    requires Planned(c, v)
    ensures InGrid(c, v.cur)
    ensures ActOf(c, v).rank == ColumnOf(c, v).rank == v.cur.rank && ActOf(c, v).bank == ColumnOf(c, v).bank == v.cur.bank
    ensures ActOf(c, v).kind == ACTIVATE && ActOf(c, v).row == ColumnOf(c, v).row
    ensures ColumnFor(c.policy, ColumnOf(c, v).kind) && (ColumnOf(c, v).IsWrite() <==> v.transaction.isWrite)
  {
  }

  // What control says about one rank.
  datatype View = View(row: seq<Bank>, flag: bool, slots: seq<seq<BusPacket>>, window: seq<nat>, counters: seq<nat>)

  predicate ViewFits(c: Config, w: View) {
    |w.row| == |w.counters| == c.NumBanks() && |w.slots| >= NumSlots(c)
  }

  // The rank's banks before its power handling in cycle t.
  function IssuedRow(c: Config, t: int, r: nat, popped: Option<BusPacket>, row: seq<Bank>): (row': seq<Bank>)
    ensures |row'| == |row|
    ensures forall b :: 0 <= b < |row| ==>
      row'[b] == if popped.Some? then Issue(c, t, popped.value, r, b, Age(c, row[b])) else Age(c, row[b])
  {
    seq(|row|, b requires 0 <= b < |row| =>
      if popped.Some? then Issue(c, t, popped.value, r, b, Age(c, row[b])) else Age(c, row[b]))
  }

  ghost predicate NoneQueued(c: Config, slots: seq<seq<BusPacket>>)
    requires |slots| >= NumSlots(c)
  {
    forall i :: 0 <= i < NumSlots(c) ==> slots[i] == []
  }

  // From w to w' in cycle t, in which `popped` was sent.
  ghost predicate Moves(c: Config, t: int, r: nat, w: View, w': View, popped: Option<BusPacket>)
    requires ViewFits(c, w) && ViewFits(c, w')
  {
    && (w'.row, w'.flag) == (if c.useLowPower then
          PowerRow(c, t, IssuedRow(c, t, r, popped, w.row), w.flag, NoneQueued(c, w'.slots))
        else (IssuedRow(c, t, r, popped, w.row), w.flag))
    && |w'.window| <= |w.window| + 1
    && (popped == None || popped.value.kind != ACTIVATE || popped.value.rank != r ==> |w'.window| <= |w.window|)
    && forall b :: 0 <= b < |w.counters| ==> w'.counters[b] == w.counters[b] || w'.counters[b] == 0
  }

  // ---- The stages ----

  ghost predicate AllAre(row: seq<Bank>, state: CurrentBankState) {
    forall b :: 0 <= b < |row| ==> row[b].state == state && row[b].countdown == 0
  }

  // The column access will find the bank's columns free and its row counter at zero.
  ghost predicate Unused(w: View, b: nat)
    requires b < |w.row| && b < |w.counters|
  {
    w.row[b].nextRead <= 0 && w.row[b].nextWrite <= 0 && w.row[b].nextPrecharge <= 0 && w.counters[b] == 0
  }

  // Up to its entry: the rank is idle, or it sleeps and can be woken at the entry.
  ghost predicate Resting(c: Config, t: nat, w: View, v: Visit)
    requires ViewFits(c, w) && InGrid(c, v.cur)
  {
    && t <= v.entry && NoneQueued(c, w.slots) && |w.window| < 4
    && if c.useLowPower && w.flag then
         && AllAre(w.row, PowerDown) && v.act == v.entry + Max(1, c.tXP)
         && forall b :: 0 <= b < |w.row| ==> w.row[b].nextPowerUp <= v.entry
       else
         && (c.useLowPower ==> t == v.entry) && v.act == v.entry + 1
         && AllAre(w.row, Idle) && w.row[v.cur.bank].nextActivate <= v.act
  }

  ghost predicate OnlyQueued(c: Config, slots: seq<seq<BusPacket>>, bank: nat, queue: seq<BusPacket>)
    requires |slots| >= NumSlots(c) && bank < c.NumBanks()
  {
    forall i :: 0 <= i < NumSlots(c) ==> slots[i] == if i == Slot(c, bank) then queue else []
  }

  // Its two packets are queued and the bank may be activated in cycle v.act, not before.
  ghost predicate Coming(c: Config, t: nat, w: View, v: Visit)
    requires ViewFits(c, w) && InGrid(c, v.cur)
  {
    && v.entry < t <= v.act && |w.window| < 4
    && OnlyQueued(c, w.slots, v.cur.bank, [ActOf(c, v), ColumnOf(c, v)])
    && (c.useLowPower ==> !w.flag) && AllAre(w.row, Idle)
    && w.row[v.cur.bank].nextActivate <= v.act && (t == v.act || w.row[v.cur.bank].nextActivate == v.act)
  }

  // Its row is open and the column access may be sent from cycle ColumnCycle on.
  ghost predicate Opened(c: Config, t: nat, w: View, v: Visit)
    requires ViewFits(c, w) && InGrid(c, v.cur)
  {
    var m := w.row[v.cur.bank];
    && v.act < t <= ColumnCycle(c, v)
    && OnlyQueued(c, w.slots, v.cur.bank, [ColumnOf(c, v)])
    && (c.useLowPower ==> !w.flag)
    && m.state == RowActive && m.lastCommand == ACTIVATE && m.countdown == 0 && m.openRow == ColumnOf(c, v).row
    && m.nextRead == m.nextWrite == v.act + (c.tRCD - c.AL) && m.nextPrecharge == v.act + c.tRAS
    && w.counters[v.cur.bank] == 0
    && forall b :: 0 <= b < |w.row| && b != v.cur.bank ==> w.row[b].state == Idle && w.row[b].countdown == 0
  }

  // ---- Other ranks' commands ----

  // A packet that leaves the rank alone.
  predicate Foreign(popped: Option<BusPacket>, r: nat) {
    popped.Some? ==> popped.value.rank != r
  }

  predicate Opening(popped: Option<BusPacket>) {
    popped.Some? ==> popped.value.kind == ACTIVATE || popped.value.kind == PRECHARGE
  }

  lemma QuietBank(c: Config, t: int, r: nat, b: nat, popped: Option<BusPacket>, m: Bank)
    requires Foreign(popped, r) && m.countdown == 0 && (m.state != RowActive || Opening(popped))
    ensures Age(c, m) == m && (popped.Some? ==> Issue(c, t, popped.value, r, b, m) == m)
  {
  }

  lemma QuietRow(c: Config, t: int, r: nat, popped: Option<BusPacket>, row: seq<Bank>)
    requires Foreign(popped, r) && forall b :: 0 <= b < |row| ==> row[b].countdown == 0
    requires Opening(popped) || forall b :: 0 <= b < |row| ==> row[b].state != RowActive
    ensures IssuedRow(c, t, r, popped, row) == row
  {
    hide Age, Issue;
    forall b | 0 <= b < |row| ensures IssuedRow(c, t, r, popped, row)[b] == row[b] {
      QuietBank(c, t, r, b, popped, row[b]);
    }
  }

  // ---- From stage to stage ----

  lemma RestStays(c: Config, t: nat, w: View, w': View, popped: Option<BusPacket>, v: Visit)
    requires ViewFits(c, w) && ViewFits(c, w') && InGrid(c, v.cur)
    requires Resting(c, t, w, v) && t < v.entry && Moves(c, t, v.cur.rank, w, w', popped) && Foreign(popped, v.cur.rank)
    requires NoneQueued(c, w'.slots)
    ensures Resting(c, t + 1, w', v) && w'.row == w.row
  {
    hide Issue, IssueWrite, IssueRead, NoneQueued;
    QuietRow(c, t, v.cur.rank, popped, w.row);
    hide IssuedRow;
  }

  // The transaction enters, and wakes the rank if it sleeps.
  lemma RestEnds(c: Config, w: View, w': View, popped: Option<BusPacket>, v: Visit)
    requires ViewFits(c, w) && ViewFits(c, w') && Planned(c, v) && InGrid(c, v.cur)
    requires Resting(c, v.entry, w, v) && Moves(c, v.entry, v.cur.rank, w, w', popped) && Foreign(popped, v.cur.rank)
    requires OnlyQueued(c, w'.slots, v.cur.bank, [ActOf(c, v), ColumnOf(c, v)])
    ensures Coming(c, v.entry + 1, w', v) && (Unused(w, v.cur.bank) ==> Unused(w', v.cur.bank))
  {
    hide Issue, ColumnOf, Target, ActOf, IssueWrite, IssueRead;
    QuietRow(c, v.entry, v.cur.rank, popped, w.row);
    hide IssuedRow, CommandFor;
    assert !NoneQueued(c, w'.slots) by {
      assert w'.slots[Slot(c, v.cur.bank)] != [];
    }
  }

  lemma ComingStays(c: Config, t: nat, w: View, w': View, popped: Option<BusPacket>, v: Visit)
    requires ViewFits(c, w) && ViewFits(c, w') && InGrid(c, v.cur)
    requires Coming(c, t, w, v) && t < v.act && Moves(c, t, v.cur.rank, w, w', popped) && Foreign(popped, v.cur.rank)
    requires w'.slots == w.slots
    ensures Coming(c, t + 1, w', v) && (Unused(w, v.cur.bank) ==> Unused(w', v.cur.bank))
  {
    hide Issue, ColumnOf, ActOf, IssueWrite, IssueRead;
    QuietRow(c, t, v.cur.rank, popped, w.row);
    hide IssuedRow, CommandFor;
    assert !NoneQueued(c, w'.slots) by {
      assert w'.slots[Slot(c, v.cur.bank)] != [];
    }
  }

  lemma ActSent(c: Config, w: View, w': View, v: Visit)
    requires c.Valid() && ViewFits(c, w) && ViewFits(c, w') && Planned(c, v) && InGrid(c, v.cur)
    requires Coming(c, v.act, w, v) && Unused(w, v.cur.bank) && Moves(c, v.act, v.cur.rank, w, w', Some(ActOf(c, v)))
    requires OnlyQueued(c, w'.slots, v.cur.bank, [ColumnOf(c, v)])
    ensures Opened(c, v.act + 1, w', v)
  {
    PacketsOf(c, v);
    hide CommandFor;
    assert !NoneQueued(c, w'.slots) by {
      assert w'.slots[Slot(c, v.cur.bank)] != [];
    }
  }

  lemma OpenedStays(c: Config, t: nat, w: View, w': View, popped: Option<BusPacket>, v: Visit)
    requires ViewFits(c, w) && ViewFits(c, w') && InGrid(c, v.cur)
    requires Opened(c, t, w, v) && t < ColumnCycle(c, v) && Moves(c, t, v.cur.rank, w, w', popped)
    requires Foreign(popped, v.cur.rank) && Opening(popped) && w'.slots == w.slots
    ensures Opened(c, t + 1, w', v)
  {
    hide Issue, ColumnOf, IssueWrite, IssueRead;
    QuietRow(c, t, v.cur.rank, popped, w.row);
    hide IssuedRow, CommandFor;
    assert !NoneQueued(c, w'.slots) by {
      assert w'.slots[Slot(c, v.cur.bank)] != [];
    }
  }
}
