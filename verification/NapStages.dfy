// A rank that serves one transaction, falls asleep as soon as it can and is woken for the
// next one, cycle by cycle.
module NapStages {
  import opened Wrappers
  import opened SystemConfiguration
  import opened BankState
  import opened Scheduler
  import opened Channel
  import opened ControlPath
  import opened Visits

  // From the column access to the cycle in which its row may close.
  function AfterColumn(c: Config, isWrite: bool): int {
    if isWrite then c.WriteToPre() else c.ReadToPre()
  }

  // The visit's row begins to close in this cycle.
  function CloseCycle(c: Config, v: Visit): int {
    var used := ColumnCycle(c, v) + AfterColumn(c, v.transaction.isWrite);
    if c.policy == OpenPage then Max(used, v.act + c.tRAS) else used
  }

  // Its bank is idle, and its rank falls asleep.
  function SleepCycle(c: Config, v: Visit): int {
    CloseCycle(c, v) + c.tRP
  }

  // The visit u enters as soon as the rank of v may be woken.
  predicate NapsBetween(c: Config, v: Visit, u: Visit) {
    && c.useLowPower && Planned(c, v) && Planned(c, u) && InGrid(c, v.cur) && InGrid(c, u.cur) && u.cur.rank == v.cur.rank
    && u.entry == SleepCycle(c, v) + Max(1, c.tCKE) && u.act == u.entry + Max(1, c.tXP)
    && ColumnCycle(c, v) < CloseCycle(c, v) < SleepCycle(c, v)
  }

  ghost predicate OthersIdle(row: seq<Bank>, bank: nat) {
    forall b :: 0 <= b < |row| && b != bank ==> row[b].state == Idle && row[b].countdown == 0
  }

  // The column access has been sent and its row waits to close.
  ghost predicate Closing(c: Config, t: nat, w: View, v: Visit)
    requires ViewFits(c, w) && InGrid(c, v.cur)
  {
    var m := w.row[v.cur.bank];
    && ColumnCycle(c, v) < t <= CloseCycle(c, v) && NoneQueued(c, w.slots) && !w.flag && OthersIdle(w.row, v.cur.bank)
    && m.state == RowActive
    && if c.policy == ClosePage then AutoPrecharging(m) && m.countdown == CloseCycle(c, v) + 1 - t
       else !AutoPrecharging(m) && m.countdown == 0 && m.nextPrecharge == CloseCycle(c, v)
  }

  // The row closes.
  ghost predicate Shutting(c: Config, t: nat, w: View, v: Visit)
    requires ViewFits(c, w) && InGrid(c, v.cur)
  {
    var m := w.row[v.cur.bank];
    && CloseCycle(c, v) < t <= SleepCycle(c, v) && NoneQueued(c, w.slots) && !w.flag && OthersIdle(w.row, v.cur.bank)
    && m.state == Precharging && m.lastCommand == PRECHARGE && m.countdown == SleepCycle(c, v) + 1 - t
  }

  lemma BusyStays(c: Config, t: int, row: seq<Bank>, bank: nat)
    requires bank < |row| && row[bank].state != Idle
    ensures PowerRow(c, t, row, false, true) == (row, false)
  {
  }

  lemma ColumnSent(c: Config, w: View, w': View, v: Visit, u: Visit)
    requires c.Valid() && NapsBetween(c, v, u) && ViewFits(c, w) && ViewFits(c, w') && Opened(c, ColumnCycle(c, v), w, v)
    requires Moves(c, ColumnCycle(c, v), v.cur.rank, w, w', Some(ColumnOf(c, v))) && NoneQueued(c, w'.slots)
    ensures Closing(c, ColumnCycle(c, v) + 1, w', v)
  {
    PacketsOf(c, v);
    hide CommandFor, PowerRow;
    BusyStays(c, ColumnCycle(c, v), IssuedRow(c, ColumnCycle(c, v), v.cur.rank, Some(ColumnOf(c, v)), w.row), v.cur.bank);
  }

  lemma ClosingStays(c: Config, t: nat, w: View, w': View, v: Visit)
    requires c.Valid() && c.useLowPower && InGrid(c, v.cur) && ViewFits(c, w) && ViewFits(c, w') && Closing(c, t, w, v)
    requires t < CloseCycle(c, v) && Moves(c, t, v.cur.rank, w, w', None) && w'.slots == w.slots
    ensures Closing(c, t + 1, w', v)
  {
    hide PowerRow;
    BusyStays(c, t, IssuedRow(c, t, v.cur.rank, None, w.row), v.cur.bank);
  }

  // The row closes by itself, or by a precharge.
  lemma ClosingEnds(c: Config, w: View, w': View, v: Visit, popped: Option<BusPacket>)
    requires c.Valid() && c.useLowPower && InGrid(c, v.cur) && ViewFits(c, w) && ViewFits(c, w')
    requires Closing(c, CloseCycle(c, v), w, v) && CloseCycle(c, v) >= 0
    requires popped == if c.policy == OpenPage then Some(BusPacket(PRECHARGE, 0, 0, 0, v.cur.rank, v.cur.bank)) else None
    requires Moves(c, CloseCycle(c, v), v.cur.rank, w, w', popped) && w'.slots == w.slots
    ensures Shutting(c, CloseCycle(c, v) + 1, w', v)
  {
    hide PowerRow, IssueWrite, IssueRead, CloseCycle, NoneQueued;
    BusyStays(c, CloseCycle(c, v), IssuedRow(c, CloseCycle(c, v), v.cur.rank, popped, w.row), v.cur.bank);
  }

  lemma ShuttingStays(c: Config, t: nat, w: View, w': View, v: Visit)
    requires c.Valid() && c.useLowPower && InGrid(c, v.cur) && ViewFits(c, w) && ViewFits(c, w') && Shutting(c, t, w, v)
    requires t < SleepCycle(c, v) && Moves(c, t, v.cur.rank, w, w', None) && w'.slots == w.slots
    ensures Shutting(c, t + 1, w', v)
  {
    hide PowerRow;
    BusyStays(c, t, IssuedRow(c, t, v.cur.rank, None, w.row), v.cur.bank);
  }

  // The rank falls asleep.
  lemma ShuttingEnds(c: Config, w: View, w': View, v: Visit, u: Visit)
    requires c.Valid() && NapsBetween(c, v, u) && ViewFits(c, w) && ViewFits(c, w')
    requires Shutting(c, SleepCycle(c, v), w, v) && |w.window| < 4
    requires Moves(c, SleepCycle(c, v), v.cur.rank, w, w', None) && w'.slots == w.slots
    ensures Resting(c, SleepCycle(c, v) + 1, w', u)
  {
    assert AllIdle(IssuedRow(c, SleepCycle(c, v), v.cur.rank, None, w.row));
  }
}
