# Models of a memory-system simulator, with proofs

This project models the timing cores of a memory-system simulator and proves what they are
meant to guarantee over whole runs. Objects that the simulator updates in place are classes
here, with the same fields and loops; each of their methods is proved against a function on
plain values, and the properties of all runs are proved about those functions.

`dafny verify dfyconfig.toml` checks everything.

## The DRAM channel

`CommandQueue`, `Rank`, `MemoryController` and `MemorySystem` are classes. The state of a whole
channel is the value `Channel.ChannelState`, and one cycle is `Channel.Update`:
`MemorySystem.Update` is proved to take the objects from the state they show to exactly that
next state, or to the same error exit. Row policy, queue structure, scheduling order, address
scheme, number of ranks and banks, queue depths, low-power mode and all device timings are
parameters. A run starts in `Channel.Initial` and is any sequence of cycles, each preceded by
any host requests.

The controller never looks at the timing fields of a rank. It keeps its own table of bank
states, and a rank stops the simulation when a command comes too early, in the wrong state or
for the wrong row. The main result is `ChannelSafety.NoErrorExit`: no such stop is ever reached.
Its invariant joins four parts:

- `QueueInvariant`: every queued activate is followed by its own column access, and a column
  access whose activate has been issued waits as the first packet of its bank, whose row is open.
- `TimingSafety`: once the command in flight has been applied, every entry of the controller's
  table is at least as strict as the rank's, one bus cycle later.
- `ReadPipeline` and `WriteBus`: bursts stay a burst apart, in the ranks' output slots and on the
  data bus.
- `Conservation`: the pending reads are, address by address, exactly the reads in flight.

On top of it, for all runs:

- Timing: legality of the full command history (`CommandHistory`, `RowHistory`, `Turnaround`), what
  low-power mode keeps of it (`SleepHistory`), all of it in the device's own parameters
  (`DeviceTimings`), and the other direction, that nothing is held back longer (`HeldBack`); write
  spacing (`WriteSpacing`, `BusHistory`) and the four-activation window (`ActivationWindow`). The
  rules are those of JEDEC JESD79-3, sections 4.11 to 4.15, as far as the simulator's own
  parameters express them.
- Data: every command stands for its own address (`PacketAddresses`), accesses to one address keep
  their order (`AccessOrder`, `ServiceOrder`), reads are answered and writes driven at fixed times
  (`ReadLatency`, `WriteLatency`, over `Bursts`), and every transaction is accounted for
  (`TransactionLedger`).
- Scheduling: turns and work conservation (`RoundRobin`), use and fair use of rows (`RowUse`,
  `RowFairness`).
- Refresh: the schedule (`RefreshSchedule`), exactly when a refresh is sent (`RefreshPop`), waking
  up for it (`RefreshFlag`), and how long it can take (`RefreshWait`, over the stages of each bank
  in `BankStages`).

Two properties hold on some configurations only. For both the exact condition is proved: where it
fails, a run from the initial state shows it. `ControlPath` cuts a cycle down to what decides the
commands, `SinglePops`, `Visits`, `VisitCycles` and `VisitPairs` follow single transactions through
it, and `CollisionRun` and `NapRun` (with `NapStages` and `NapCycles`) are the runs.

`Config.Valid` holds what the device parameters must satisfy: tCMD is 1 (a command that stays
longer on the bus can meet the next one), tRP, tRFC and tFAW are at least 1, BL is even and at
least 2, AL is at most tRCD, CL + AL is at least 2, a row may be accessed at least once, a queue
has room for two packets, and rank and bank counts are powers of two.

## The instruction window

`ExecBlock` builds the graph of data nodes, groups them by step count and computes offsets,
producer counts and the window size. `Context` runs a circular window of whole global steps
with a reorder window at its head. `ProgramOrder.Machine` is its specification: the whole
program laid out without a circular buffer, in which no slot is ever reused. `ExecGraph`,
`Dependencies`, `Programs` and `WindowFetch` show that static counting, offsets and distances
agree; `OrderSafety`, `OrderRuns`, `PortBounds` and `OpTimes` prove what every run of the machine keeps,
`Progress` and `Liveness` that it goes on and ends, where it does (`StuckRun` shows where it does
not). Each method of `Context` is proved to take a window that shows one machine state to a window
that shows the next, over the slots of `WindowSlots` and the single steps of `OrderSteps`. `Driving`
and `Engines` are the engine's loop for one thread. The cache is an arbitrary sequence of answers,
and a node's addresses an arbitrary list whose length does not change.

## Smaller cores

- `LruCaches`, `Caches`: the LRU cache over arrays of time-stamped blocks, against a list of
  lines in order of use (`Recency`) and whole traces (`CacheRuns`).
- `AddressMapping`, `AddressFields`: the seven address mappings, with their inverse, and what each
  field is.
- `ClockDomains`: the clock-domain crosser.
- `Ftls`: the flash translation layer without scheduling and without garbage collection, over
  its two tables (`PageTables`) and the module's layout (`FlashGeometry`).

## Where the code falls short

- A 64-bit power of two of 2^32 or more is refused by `isPowerOfTwo`
  (`SystemConfiguration.IsPowerOfTwo`), and the position of the highest bit is wrong for every
  word of 2^32 or more (`CacheShapes.FloorLog2`).
- An unused cache block is marked by tag 0, so line 0 hits before it was ever brought in. Lookups
  are right exactly for other tags or in full sets (`LruCaches.AnswerIsRightExactlyWhen`).
- Waking a rank replaces a longer activation delay by the wake-up delay. All delays are kept
  exactly when a nap is long enough (`SleepHistory.NapsAreLong`, `NapRun.DelaysKeptExactlyWhen`,
  `NapRun.FortyBecomesEight`); what is kept in general is stated in
  `SleepHistory.EveryRunKeepsDelays`.
- A write to a bank that is closed is not held back by a write to another rank, so two write
  bursts can meet. They do exactly when there are two ranks and a row can be written less than
  BL/2 - 1 cycles after its activate (`CollisionRun.CollidesExactlyWhen`,
  `CollisionRun.TwoWritesCollide`).
- A new transaction gets past those that wait outside the controller when the controller has room
  again before they are let in, and so possibly past an older one to the same address
  (`ServiceOrder.NewcomerWaitsExactlyWhen`, `ServiceOrder.NewcomerGetsPast`). Inside, accesses to one
  address keep their order (`AccessOrder.EveryAddressInOrder`).
- On a core that can send two stores a cycle a program can hang. A store that enters the reorder
  window behind the sweep completes in the very cycle it leaves in, which is no later event, so
  nothing makes the context look at it again (`StuckRun.StoreNeverRetires`,
  `StuckRun.TwoOperationsHang`). With one store a cycle every run goes on (`Liveness.EveryRunGoesOn`,
  `StuckRun.FinishesExactlyWhen`).
- The search for a free flash page can give up beside a free page: its second half compares a
  block number with a block number divided by a size in bytes
  (`PageTables.GivesUpExactlyWhen`, `Ftls.FourthWriteGivesUp`).
- The comment in `dramsim2/CommandQueue.cpp:291-292` says that nothing behind the front of a
  per-bank queue could go instead. This holds in closed page for activates and for column
  accesses whose activate has gone (`RoundRobin.FrontIsEnough`).

## Model

| member | source | states |
|---|---|---|
| SystemConfiguration.DramsimLog2 | dramsim2/SystemConfiguration.h:200-212 | The result is the ceiling of the base-2 logarithm: the least k with 2^k at least the argument. |
| SystemConfiguration.IsPowerOfTwo | dramsim2/SystemConfiguration.h:213-216 | A 64-bit value is accepted exactly when it is a power of two below 2^32: the logarithm drops the high half of its argument. |
| AddressMapping.AddressMapping | dramsim2/AddressMapping.cpp:58-297 | The chain of shifts and exclusive-ors of each of the seven schemes yields the five bit fields of the address, lowest first, in the order of the scheme. |
| AddressMapping.DecodeInRange | dramsim2/AddressMapping.cpp:58-297 | Every field of every decoded address is below its configured count, in all seven schemes. |
| AddressMapping.EncodeOfDecode | dramsim2/AddressMapping.cpp:58-297 | Encoding the decoded location of an address gives the address back but for its alignment bits, for all addresses below the total size. |
| AddressMapping.DecodeOfEncode | dramsim2/AddressMapping.cpp:58-297 | Every location within the counts is decoded from its own encoding; with the row above, each scheme is a bijection. |
| AddressFields.DecodedFields | dramsim2/AddressMapping.cpp:98-297 | What each field of the decoded location is, scheme by scheme: the quotient of the address by the power of two of all widths below the field, modulo that of its own width. |
| AddressFields.NextAddress | dramsim2/AddressMapping.cpp:98-297 | From one aligned address to the next the lowest field of the scheme counts on, and every other field does exactly when all fields below it start over. |
| BankState.AgeKeepsTracking | dramsim2/MemoryController.cpp:158-191 | Counting a controller entry down for one cycle keeps it at least as strict as the rank's entry, although the rank changed state at once. |
| BankState.IssuedIsAccepted | dramsim2/Rank.cpp:94-292 | A command that the scheduler's rules admit at cycle t meets every check the rank makes at t + 1, when the controller's entries cover the rank's. |
| BankState.IssueKeepsTracking | dramsim2/MemoryController.cpp:301-468 | Updating the controller's table at t (by maxima) and the rank's at t + 1 (by assignments) keeps the first covering the second, for every command. |
| QueueInvariant.AppendPair | dramsim2/MemoryController.cpp:533-546 | Queueing a transaction keeps every activate immediately followed by its own column access, and every column access whose activate has gone waiting for the open row. |
| QueueInvariant.PickedActivateIsFirst | dramsim2/CommandQueue.cpp:252-297 | An activate that the scan picks is the first packet queued for its bank: nothing that needs the row now open is left behind. |
| QueueInvariant.PickedColumn | dramsim2/CommandQueue.cpp:403-458 | A column access that the scan picks has had its activate issued, or, in open page, leaves together with its activate while nothing else waits for that row. |
| SchedulerSafety.PopIsSafe | dramsim2/CommandQueue.cpp:164-555 | Whatever pop returns, under both row policies, both queue structures and both orders, may be issued now, and the pairing and open-row invariant of all queues holds afterwards. |
| RoundRobin.BankLap | dramsim2/CommandQueue.cpp:721-756 | In both orders the next-rank-and-bank step comes back to where it started after exactly as many steps as there are banks, and not before: the scan terminates. |
| RoundRobin.BankVisited | dramsim2/CommandQueue.cpp:721-756 | Every rank and bank is met on such a lap. |
| RoundRobin.QueueLap | dramsim2/CommandQueue.cpp:304-320 | The scan over the queues closes after exactly one visit to each queue of its structure. |
| RoundRobin.QueueVisited | dramsim2/CommandQueue.cpp:304-320 | Every queue is met on such a lap. |
| RoundRobin.TurnAfterSteps | dramsim2/CommandQueue.cpp:721-756 | Rank then bank, every step goes to the next rank and the bank moves on by one when the ranks start over; bank then rank, the other way round. |
| RoundRobin.FirstInTurnGoes | dramsim2/CommandQueue.cpp:252-555 | A command that pop takes from the queues for a rank without a pending refresh comes from the first queue in turn that could send anything and is the first in it that could go, as the bank table, the windows and the counters say; then it is the next queue's turn, with posted column accesses after every other command. |
| RoundRobin.PopIsWorkConserving | dramsim2/CommandQueue.cpp:252-555 | Pop returns nothing only if no refresh is due, no packet anywhere in the queues of a rank that is not held back for a refresh could go (its bank would let it, and nothing that must go first is before it) and, in open page, no open row is unwanted or used up and old enough to be closed. |
| RoundRobin.FrontIsEnough | dramsim2/CommandQueue.cpp:286-297 | In per-bank closed-page queues, when the front packet cannot go, no activate and no column access with an issued activate behind it could go either. |
| RefreshPop.RefreshIsSentExactlyWhen | dramsim2/CommandQueue.cpp:194-249 | For every table and queue state: pop sends a refresh if and only if one has been asked for, no bank of its rank has an open row or a later activation time, and bank 0 is not asleep; then it is the refresh of that rank and the request is settled, and otherwise the request stays. |
| RefreshPop.OpenBankIsServed | dramsim2/CommandQueue.cpp:328-401 | While the first bank that keeps a refresh back has an open row, the first packet queued for that row decides: a column access is sent as soon as the bank allows it; if there is none or an activate comes first, in open page the row is closed as soon as the bank allows it. |
| RefreshPop.WaitingRankIsSpared | dramsim2/CommandQueue.cpp:194-325 | No command goes to a rank whose refresh has been asked for but the refresh itself, a column access that waits for the open row of its first busy bank, and, in open page, a precharge. |
| RefreshFlag.CycleWakes | dramsim2/MemoryController.cpp:575-616 | Over any cycle, a rank that has been told of its refresh is not put to sleep, its banks wake up as soon as they may, and it keeps the flag. |
| RefreshFlag.SleeperIsWokenAhead | dramsim2/MemoryController.cpp:275-279 | A rank that sleeps while its turn is next and its refresh at most tXP away wakes up in that cycle, or as soon as it has slept long enough. |
| RefreshWait.EveryRefreshComes | dramsim2/CommandQueue.cpp:194-401 | In every run, from any point on, the cycles in which the refresh request of a rank is neither served nor replaced by another rank's number less than (3 * banks + 1 + x)(D + 1): D is one more than the sum of the device delays other than tFAW, and x the column accesses to other ranks meanwhile, none if there is one rank. |
| CommandQueues.CommandQueue.constructor | dramsim2/CommandQueue.cpp:49-108 | All queues are empty, all counters zero, both positions at the first bank. |
| CommandQueues.CommandQueue.Enqueue | dramsim2/CommandQueue.cpp:131-160 | The packet is at the back of its own queue and nothing else changed; beyond the depth the simulation stops. |
| CommandQueues.CommandQueue.IsEmpty | dramsim2/CommandQueue.cpp:693-712 | True exactly when no queue of the rank holds a packet. |
| CommandQueues.CommandQueue.AgeActivations | dramsim2/CommandQueue.cpp:171-184 | Every activation counter is one lower and one that ran out is gone. |
| CommandQueues.CommandQueue.RefreshClosePage | dramsim2/CommandQueue.cpp:194-249 | The refresh, a column access the open bank still waits for, or nothing: the first decided by the first busy bank, as the specification of refresh work says. |
| CommandQueues.CommandQueue.RefreshOpenPage | dramsim2/CommandQueue.cpp:328-401 | As above, with a precharge for an open row that nobody queued for wants. |
| CommandQueues.CommandQueue.ScanAllQueues | dramsim2/CommandQueue.cpp:252-325 | The first eligible packet in round-robin order is removed, in open page with the activate just before it and one more access counted for its row. |
| CommandQueues.CommandQueue.ScanOpenBanks | dramsim2/CommandQueue.cpp:461-531 | The first bank in round-robin order whose row may be closed is precharged and its access counter cleared. |
| CommandQueues.CommandQueue.Pop | dramsim2/CommandQueue.cpp:164-555 | The new queues, counters, positions and windows and the returned packet are those of the specified scheduler, about which all safety lemmas speak. |
| Ranks.Rank.constructor | dramsim2/Rank.cpp:40-60 | All banks idle with nothing due, no data in the pipeline. |
| Ranks.Rank.ReceiveFromBus | dramsim2/Rank.cpp:82-292 | An accepted packet changes the bank table and the read pipeline as specified; one that is early, in the wrong state or for the wrong row reports the error exit. |
| Ranks.Rank.Update | dramsim2/Rank.cpp:299-343 | The burst that ends is delivered, the packet whose latency ends takes the output slot, all others wait one cycle less. |
| Ranks.Rank.PowerDown | dramsim2/Rank.cpp:345-362 | Every bank is powered down with the same earliest wake-up cycle, or an active bank stops the simulation. |
| Ranks.Rank.PowerUp | dramsim2/Rank.cpp:364-385 | Every bank is idle again after the wake-up delay, or waking too early stops the simulation. |
| MemoryControllers.MemoryController.constructor | dramsim2/MemoryController.cpp:63-111 | The controller shows the initial channel state, with refreshes staggered by equal shares of the period. |
| MemoryControllers.MemoryController.ReceiveFromBus | dramsim2/MemoryController.cpp:114-135 | Data returned by a rank joins the end of the returned list; anything else stops the simulation. |
| MemoryControllers.MemoryController.UpdateBankStates | dramsim2/MemoryController.cpp:158-191 | Every entry of the table has aged by one cycle. |
| MemoryControllers.MemoryController.DeliverCommand | dramsim2/MemoryController.cpp:193-203 | The command on the bus reaches its rank once its bus cycles are over. |
| MemoryControllers.MemoryController.DriveDataBus | dramsim2/MemoryController.cpp:206-260 | The burst on the data bus and all waiting writes move on by one cycle; a write whose turn meets a busy bus stops the simulation. |
| MemoryControllers.MemoryController.RefreshTimer | dramsim2/MemoryController.cpp:264-279 | The rank whose countdown ran out is flagged, its period restarted and the next rank's turn begins; a sleeping rank is flagged in time to wake up. |
| MemoryControllers.MemoryController.IssueCommand | dramsim2/MemoryController.cpp:284-490 | The popped command is recorded in the whole table, its write data queued and the command put on the bus; a busy bus stops the simulation. |
| MemoryControllers.MemoryController.ExpandTransaction | dramsim2/MemoryController.cpp:492-570 | The first transaction whose queue has room for two packets becomes an activate and a column access; a read joins the pending reads. |
| MemoryControllers.MemoryController.ManagePower | dramsim2/MemoryController.cpp:575-616 | Rank by rank, an idle rank with nothing to do sleeps and one that has work wakes when it may. |
| MemoryControllers.MemoryController.ReturnRead | dramsim2/MemoryController.cpp:661-700 | The oldest returned data is handed to the first pending read of its address; without one the simulation stops. |
| MemoryControllers.MemoryController.Update | dramsim2/MemoryController.cpp:153-760 | One cycle takes the controller and its ranks from any well-formed channel state to the state the specification gives, error exits included. |
| MemoryControllers.MemoryController.AddTransaction | dramsim2/MemoryController.cpp:768-780 | A transaction is accepted exactly when the queue has room, and then is its last element. |
| MemorySystems.MemorySystem.constructor | dramsim2/MemorySystem.cpp:56-150 | The whole channel is in its initial state. |
| MemorySystems.MemorySystem.UpdateRanks | dramsim2/MemorySystem.cpp:210-218 | All ranks move in order and what they deliver joins the returned data in rank order. |
| MemorySystems.MemorySystem.Update | dramsim2/MemorySystem.cpp:210-239 | One cycle of ranks, controller, pending transactions and clocks gives exactly the specified next channel state, with all clocks in step, or its error exit. |
| MemorySystems.MemorySystem.AddTransaction | dramsim2/MemorySystem.cpp:179-195 | The transaction waits inside the controller if it has room and outside otherwise; none is dropped. |
| TimingSafety.DeliverCommandIsSafe | dramsim2/MemoryController.cpp:193-203 | The command in flight is never rejected by its rank, and the shadow table covers the rank's afterwards. |
| TimingSafety.IssueCommandIsSafe | dramsim2/MemoryController.cpp:284-490 | Popping never meets a busy command bus, and the new command will be accepted one bus delay later. |
| TimingSafety.ManagePowerIsSafe | dramsim2/MemoryController.cpp:575-616 | Neither powering down nor waking is ever refused by a rank, and no command is in flight to a rank that changes its power state. |
| ReadPipeline.RankUpdateKeepsSpacing | dramsim2/Rank.cpp:299-342 | Packets in a rank's read pipeline stay a burst apart, so the output slot is free when the next one needs it. |
| ReadPipeline.SlotIsFree | dramsim2/Rank.cpp:322-342 | When a waiting packet takes the output slot, the packet that held it has just been delivered: no read burst is overwritten. |
| WriteBus.DriveDataBusIsSafe | dramsim2/MemoryController.cpp:206-260 | With write bursts a burst apart, the oldest write never meets a burst on the data bus. |
| ChannelSafety.UpdateIsSafe | dramsim2/MemorySystem.cpp:210-239 | Every cycle keeps the invariant that joins queues, shadow table, rank tables, buses, pipelines and pending reads; of all error exits only the data-bus collision is left, and not that one when the bus is wide enough. |
| ChannelSafety.NoErrorExit | dramsim2/Rank.cpp:94-385 | From the initial state, for every configuration and every sequence of host requests, no rank ever rejects a command or power transition, no queue overflows, no command collides, every returned burst finds its read; and no data collides if 1 + max(1, tRCD - AL) >= BL/2 or there is one rank. |
| WriteSpacing.EveryRunSpacesWrites | dramsim2/MemoryController.cpp:206-293 | On such a bus every run goes on to its end, and any two writes, on the same or different ranks, are issued at least BL/2 cycles apart. |
| BusHistory.SurvivingWritesAreSpaced | dramsim2/MemoryController.cpp:206-260 | On every configuration, in a run that has not stopped any two writes whose bursts have begun were issued at least BL/2 cycles apart: writes issued closer together always end in the collision. |
| ControlPath.UpdateFollowsControl | dramsim2/MemoryController.cpp:153-706 | While no refresh is due, what a cycle issues and how it leaves bank table, queues, transactions and power flags depends on these alone. |
| CollisionRun.NarrowBusCollides | dramsim2/MemoryController.cpp:235-249 | For every configuration that misses that bound, given room for a transaction and no refresh meanwhile, two writes to two ranks end the run in the data-bus collision. |
| CollisionRun.CollidesExactlyWhen | dramsim2/MemoryController.cpp:206-260 | The exact condition: then all runs go on if and only if 1 + max(1, tRCD - AL) >= BL/2 or there is one rank. |
| CollisionRun.TwoWritesCollide | dramsim2/MemoryController.cpp:235-249 | One such configuration, with two writes two cycles apart. |
| CommandHistory.EveryRunIsLegal | dramsim2/MemoryController.cpp:301-468 | In the command history of every run: ACT to ACT and to REF of a bank at least tRC, of a rank tRRD, PRE to ACT tRP, REF to ACT tRFC, auto-precharge columns their full delay, ACT to PRE tRAS, columns to PRE, ACT to column tRCD - AL, columns of a rank their turnaround. With low-power mode on, delays before ACT and REF hold at least up to tCKE + tXP. |
| SleepHistory.EveryRunKeepsDelays | dramsim2/MemoryController.cpp:575-616 | In every run every ACT and REF keeps the full delay after each earlier command of its rank, or, in low-power mode, the smaller of that delay and the time until the rank can be asleep plus the shortest nap, max(1, tCKE) + max(1, tXP). |
| SleepHistory.EveryRunKeepsFullDelays | dramsim2/MemoryController.cpp:575-616 | With low-power mode off, or naps that outlast tRC, tRRD (given two banks) and, in closed page, the delay after a read, no run loses any of a delay. |
| NapRun.DelaysKeptExactlyWhen | dramsim2/MemoryController.cpp:600-614 | The exact condition: with room for a transaction and no refresh meanwhile, some run activates a bank too early if and only if naps are not that long. |
| NapRun.ActivateTooEarly | dramsim2/MemoryController.cpp:600-614 | When tRC or tRRD outlasts the nap, a run of two transactions in which the second activate comes too early: the rank falls asleep in between and waking it replaces the delay. |
| NapRun.FortyBecomesEight | dramsim2/MemoryController.cpp:600-614 | One such run: with tRC = 40 a bank is activated in cycles 1 and 9. |
| DeviceTimings.EveryRunKeepsTheDevice | dramsim2/SystemConfiguration.h:121-128 | In every run, in the device's own parameters (between two column accesses as far as Turnaround.EveryRunTurnsAround goes): bursts never overlap and lie tRTRS apart when the bus turns around to a write or changes ranks, written data is tWTR old before its rank is read and tWR old before its row is closed, columns of a rank are tCCD apart, a row is open tRCD before use (AL of it after the command) and tRAS before it is closed, and a bank rests tRP, tRC and tRFC, in full when no nap cuts them short. |
| DeviceTimings.RankKeepsTheDevice | dramsim2/Rank.cpp:94-292 | The same distances between any two packets that a rank takes one after the other, from its own table. |
| DeviceTimings.RankFindsItsRow | dramsim2/Rank.cpp:94-292 | A rank takes a column access only for the row that the last activate of its bank opened, with no precharge or auto-precharge since. |
| HeldBack.NothingIsHeldInVain | dramsim2/MemoryController.cpp:158-468 | The other direction, without low-power mode: whenever the controller's table does not admit an activate, a precharge or, its row being open, a column access, or a bank is closing or being refreshed, it is within the device's delay after a command that was issued. |
| Turnaround.EveryRunTurnsAround | dramsim2/MemoryController.cpp:327-380 | In every run, under both policies and whatever rows close or open in between, a column keeps the full turnaround from every earlier column of another bank that its own bank remembers: one sent to its rank, or one sent to another rank while it was open, and no auto-precharge column to itself since. |
| RowUse.EveryRowIsUsed | dramsim2/CommandQueue.cpp:328-401 | In every run a bank is precharged only after a column access since its last activate: no row is opened in vain. |
| RowHistory.EveryCommandFindsItsRow | dramsim2/CommandQueue.cpp:198-298 | With bank states read off the command history alone: in every run ACT finds its bank closed, a column access finds it open on its own row, PRE finds it open, and REF finds all banks of the rank closed. |
| PacketAddresses.EveryPacketIsAtItsAddress | dramsim2/MemoryController.cpp:500-546 | In every run every activate and column access, queued, on the bus or issued, names exactly the rank, bank, row and column that its own address decodes to. |
| PacketAddresses.EveryAccessReachesItsRow | dramsim2/MemoryController.cpp:500-546 | When a column access is issued in any run, the row of its address is open in the rank and bank of its address. |
| ActivationWindow.EveryRunKeepsWindow | dramsim2/CommandQueue.cpp:171-184 | In every run each rank's counters are exactly the activations of the last tFAW cycles, oldest first, and any five activations of a rank span at least tFAW cycles. |
| RowFairness.EveryRunIsFair | dramsim2/CommandQueue.cpp:647-664 | At every point of every run, at most TOTAL_ROW_ACCESSES + 1 column accesses have gone to a bank since its last activate, and the counter of every open row is that number or one less. |
| TransactionLedger.EveryReadIsAccountedFor | dramsim2/MemoryController.cpp:661-700 | For every address, the reads asked for are those waiting, those pending and those returned, each counted once; and the pending ones are exactly the reads in queues, on the bus, in rank pipelines and output slots, or in the returned list. |
| TransactionLedger.EveryTransactionIsAccountedFor | dramsim2/CommandQueue.cpp:198-526 | Every transaction becomes exactly one column access; in closed page exactly one activate comes with it and never after it; in open page at most one; none is orphaned by a precharge or refresh. |
| ReadLatency.EveryReadIsOnTime | dramsim2/Rank.cpp:299-343 | In every run the reads answered so far are exactly those whose commands were issued at least CL + AL + BL/2 + 1 cycles ago, one of them for the command bus, in the order of their commands; nothing waits to be handed over. |
| WriteLatency.EveryWriteIsOnTime | dramsim2/MemoryController.cpp:206-293 | In every run the data of a write, and no other, is on the data bus from CL + AL - 1 cycles after its command on for BL/2 cycles, and the controller drives nothing else. |
| ServiceOrder.EveryCycleServesTheFirst | dramsim2/MemoryController.cpp:492-570 | Every cycle lets the first transaction outside in if there is room, takes up the first one inside whose queue has room for two commands, and leaves all others in their order. |
| ServiceOrder.NewcomerWaitsExactlyWhen | dramsim2/MemorySystem.cpp:179-195 | A new transaction goes to the end of all that wait if and only if nothing waits outside the controller or the controller is full; otherwise it gets past those outside. |
| ServiceOrder.NewcomerGetsPast | dramsim2/MemorySystem.cpp:179-228 | For every queue depth: requests that fill the controller and leave one outside, one cycle, and a newcomer goes ahead of the one outside. |
| AccessOrder.CycleKeepsOrder | dramsim2/CommandQueue.cpp:252-458 | Every cycle keeps, for every address, the sequence of reads and writes that were issued, are queued and still wait: none gets past another to its address. |
| AccessOrder.EveryAddressInOrder | dramsim2/CommandQueue.cpp:252-458 | The same over runs: from any point of any run, while nothing new is asked of an address, that sequence stays as it is, whatever goes on at other addresses. |
| AccessOrder.NewAccessIsLast | dramsim2/MemorySystem.cpp:179-195 | A new transaction is the last of its address, unless it gets past one to the same address that waits outside. |
| RefreshSchedule.SignalledWhenDue | dramsim2/MemoryController.cpp:264-274 | With step c = period / ranks at least 1, rank i is signalled in exactly the cycles (i + 1)c + kP of every run. |
| RefreshSchedule.TimerOnSchedule | dramsim2/MemoryController.cpp:702-706 | One cycle of the timer keeps every countdown equal to the time to its rank's next turn; none goes below zero. |
| RefreshSchedule.CyclicOrder | dramsim2/MemoryController.cpp:107-110 | On schedule, countdowns are strictly increasing in cyclic order from the rank that is next, so at most one rank is due at a time. |
| ExecBlocks.ExecBlock.LinkNode | engine/ar_parse.cpp:389-415 | Every named dependency of a node becomes an edge from the nearest earlier node of that name, recorded at both ends; the first name without one is an error. |
| ExecBlocks.ExecBlock.PlaceNode | engine/ar_parse.cpp:422-434 | The node joins the last group if its step count is the same and opens a group of its own if not, so the groups cut the nodes into runs of equal step counts. |
| ExecBlocks.ExecBlock.BuildExecgraph | engine/ar_parse.cpp:358-444 | Without an error, all dependencies are resolved, edges are recorded at both ends and point forward, groups are maximal runs of equal step counts, and every computation is spread evenly over the accesses of its data node. |
| ExecBlocks.ExecBlock.InitOffsets | engine/ar_execblock.cpp:88-145 | Each node's offset is where its group and node begin in the walk of a global step, each count of producers adds up its edges (times the steps of the producer's group when that is another one), and the window size is the length of that walk. |
| ExecBlocks.LayoutIsConsistent | engine/ar_execblock.cpp:88-145 | The stored numbers are those the laid-out graph itself defines, so later stages may use either. |
| ExecGraph.AtInjective | engine/ar_execblock.cpp:93-124 | Different operations of a global step stand at different positions of the window. |
| ExecGraph.WalkAt | engine/ar_context.cpp:116-190 | The operation generated at each point of the walk stands exactly at the position that base, step, offset and index compute. |
| Dependencies.InDegreeIsExact | engine/ar_execblock.cpp:112-122 | The edges that the walk of a global step emits into any operation are exactly as many as its node's stored count of producers. |
| Programs.BlockIsExact | engine/ar_context.cpp:131-168 | Turned into distances inside the step, all edges lead forward and stay inside it, and each operation's starting counter is its in-degree. |
| WindowFetch.OffsetsAreExact | engine/ar_context.cpp:131-168 | The offsets computed per node and step expand, for every access, to exactly the distances to its consumers. |
| OrderSafety.DispatchKeeps | engine/ar_context.cpp:239-301 | Dispatching the operation that enters the reorder window keeps counters exact, sends or lists it once, and never a second time. |
| OrderSafety.NotifyKeeps | engine/ar_context.cpp:425-438 | Telling all consumers of a completed operation never meets a counter at zero: the panic cannot be reached. |
| OrderSafety.RetireKeeps | engine/ar_context.cpp:592-617 | Retirement removes exactly the oldest operation and takes up exactly the next one. |
| OrderSafety.AdvanceKeeps | engine/ar_context.cpp:376-478 | Advancing to any time keeps the order invariant and reports the end exactly when every operation has retired. |
| OrderRuns.ProducersFirst | engine/ar_context.cpp:239-301 | In any reachable state, an operation that has started has all its producers completed, at a time already reached. |
| OrderRuns.HeadIsUnderWay | engine/ar_context.cpp:398-447 | In any reachable state that is not the end, the oldest operation waits for no producer: it has completed, it is with the cache, or it waits for its port. |
| Liveness.EveryRunGoesOn | engine/ar_context.cpp:376-475 | On a core that sends one store a cycle, when loads are answered later than they leave: after any advance of any run the run is over, or its oldest operation waits for the memory or a line-fill buffer, or its event is still to come and the next event known is no later. An advance to its completion retires it; an advance to the cycle it may leave in sends it, if a line-fill buffer is free. |
| Liveness.EveryRunEnds | engine/ar_context.cpp:376-475 | On such a core, with line-fill buffers free, the clock reaches the event of an oldest operation at most twice for every operation in any run, and after that often everything has retired. |
| Driving.EngineFinishes | engine/ar_engine.cpp:152-190 | One thread, no memory simulator, a cache that answers at once: the engine's loop ends in at most two steps for every operation. |
| Engines.ExecNode | engine/ar_engine.cpp:152-190 | The loop on the context object, with its advances and questions for the next event: it terminates with no panic, in at most two steps for every operation, with the whole program retired. |
| StuckRun.StoreNeverRetires | engine/ar_context.cpp:376-475 | On every core that can send two stores a cycle a run of loads and one store gets stuck: the store that enters behind the sweep completes in that very cycle, and no later advance ever retires it. |
| StuckRun.FinishesExactlyWhen | engine/ar_engine.cpp:152-190 | For every core with a line-fill buffer: the engine brings every program to its end, with every cache that answers at once and later than the loads leave, if and only if the core sends one store a cycle. |
| StuckRun.TwoOperationsHang | engine/ar_context.cpp:592-617 | A load and a store, with one operation in the reorder window and two stores a cycle, never come to an end after the advance to cycle 2. |
| OrderRuns.EveryRunIsInOrder | engine/ar_context.cpp:376-617 | In every run, whatever cache and engine do: no counter underflows; what has retired is a completed prefix of the program; each operation is sent to the cache exactly once and only after all its producers; the run is done exactly when all operations of all global steps have retired. |
| OrderRuns.EveryBlockRunsInOrder | engine/ar_execblock.cpp:88-145 | The same for every block whose graph is linked and grouped: static counting and the dynamic machine agree. |
| ProgramOrder.NextEventIsEarliest | engine/ar_context.cpp:459-469 | The next event is the earliest of the reorder window that lies after now, or never. |
| PortBounds.EveryRunIsFair | engine/ar_context.cpp:195-237 | In every run and for every cycle at most `ld` loads and `st` stores leave, and none before it is ready. |
| PortBounds.AluIsExact | engine/ar_context.cpp:244-267 | The count of arithmetic slots behind the port advances by exactly the slots an operation computes, from the later of port time and now. |
| OpTimes.ReadyIsExact | engine/ar_context.cpp:239-301 | An operation that computes is ready in the very cycle its last arithmetic slot is taken, counted from the later of port time and now; one that does not compute is ready now. |
| OpTimes.EveryRunUsesTheAlu | engine/ar_context.cpp:239-301 | In every run: for every cycle t, all operations that left by t together compute at most alu * t; each left no earlier than the completion of its last producer plus its own arithmetic; and none is ready later than it must be, as from any coming cycle on all slots before its ready time are taken by operations that are ready from then on. |
| OpTimes.EveryRequestIsAnswered | engine/ar_context.cpp:195-237 | In every run the loads that left are exactly the questions answered with a free line-fill buffer; a load is complete when the cache's answer to it says, unless that is left open; a store is complete in the cycle it leaves, or one later if it takes the last slot of its port. |
| Contexts.Context.TryDispatchLd | engine/ar_context.cpp:195-215 | The load leaves by the port exactly when the port and the line-fill buffers allow, and the port moves as specified. |
| Contexts.Context.TryDispatchSt | engine/ar_context.cpp:217-237 | The same for a store. |
| Contexts.Context.Dispatch | engine/ar_context.cpp:239-301 | The slot, ports, waiting lists and cache traffic become those of the program-order machine after it dispatched the operation at that position. |
| Contexts.Context.FetchGlobalStep | engine/ar_context.cpp:108-190 | One global step is written into free slots: each holds the operation of its own program position with its producer count, address and distances, and no live slot is touched. |
| Contexts.Context.Refill | engine/ar_context.cpp:592-603 | Whole steps are fetched while one fits, so that the reorder window stays full or the program is fetched to its end. |
| Contexts.Context.RetireHead | engine/ar_context.cpp:592-617 | The head leaves, the window is refilled and the operation that enters the reorder window is dispatched: as the program-order machine retires its head. |
| Contexts.Context.Notify | engine/ar_context.cpp:425-438 | Every consumer found through slot arithmetic is the right operation of the program, and its counter is not zero. |
| Contexts.Context.VisitSlot | engine/ar_context.cpp:422-447 | What the sweep does to a slot is what the program-order machine does to the position it holds, even when the slot has just been reused. |
| Contexts.Context.Sweep | engine/ar_context.cpp:411-457 | One pass over the reorder window visits the positions from head on, each once. |
| Contexts.Context.FindNextEvent | engine/ar_context.cpp:459-469 | The next event is the earliest of the reorder window that lies after now. |
| Contexts.Context.Advance | engine/ar_context.cpp:376-478 | The circular window refines the unbounded program: after advancing it shows the advanced program-order machine, reports the end when it does, and never panics. |
| Contexts.Context.GetNextEvent | engine/ar_context.cpp:78-85 | The next event of the window, or the event of its oldest operation, is what the machine has. |
| Contexts.Context.CompleteOp | engine/ar_context.cpp:576-590 | The completion time told by the memory lands in the operation that asked for it. |
| Contexts.Context.FillWindow | engine/ar_context.cpp:304-324 | The window is a whole number of global steps, at least two unless the program is shorter, and holds the program's beginning. |
| Contexts.Context.InitWindow | engine/ar_context.cpp:304-355 | After the first fill and dispatch the context shows the start of the program-order machine, with its reorder window full. |
| Contexts.Context.EdgesInSlot | engine/ar_context.cpp:425-438 | A slot that a refill has given to a later operation while its edges are still being followed holds the same edges: the window is a whole number of global steps. |
| WindowSlots.WindowIsLarge | engine/ar_context.cpp:308-312 | The window holds the whole program or has room for one more global step while its reorder window is full. |
| LruCaches.LRU.constructor | engine/ar_cache.h:145-157 | An empty set. |
| LruCaches.LRU.FindAndUpdate | engine/ar_cache.h:161-196 | On the list of lines in order of use: a hit exactly when the tag is present, and its line moves to the front, dirty after a write-back store. For tag 0 in a set with unused blocks it says what really happens instead. |
| LruCaches.AnswerIsRightExactlyWhen | engine/ar_cache.h:174-196 | Lookups agree with what was brought in if and only if the tag is not 0 or every block of the set is in use: an unused block is marked by tag 0 and so answers for it. |
| LruCaches.ColdLineHits | engine/ar_cache.h:174-196 | In a set that nothing was brought into, a read of tag 0 hits. |
| LruCaches.LRU.ChooseVictim | engine/ar_cache.h:198-218 | The victim is the first unused block, else one used no later than any other. |
| LruCaches.LRU.EvictAndUpdate | engine/ar_cache.h:198-237 | The new line is the most recent one; the line that leaves, if any, is the least recent of a full set. |
| Recency.HoldsLatest | engine/ar_cache.h:161-237 | With allocation on every miss, after any trace a set holds exactly its last `associativity` distinct tags in order of use. |
| Recency.LargerSetsHitToo | engine/ar_cache.h:161-237 | A hit at some associativity is a hit at any larger one, after the same trace. |
| Recency.DirtyUntilEvicted | engine/ar_cache.h:198-237 | Any access leaves a dirty line dirty with its address, or hands it over as the victim. |
| Recency.StoresAreNotLost | engine/ar_cache.h:161-237 | Over any trace a dirty line is still in its set, dirty and with its address, or among the lines handed over since. |
| CacheShapes.FloorLog2 | engine/ar_cache.h:86-99 | The position of the highest set bit exactly for nonzero words below 2^32; -1 for 0; a wrong answer for every wider word. |
| Caches.Cache.constructor | engine/ar_cache.cpp:8-30 | Shift and mask are those of the line size and the number of sets, and all sets are empty and separate. |
| Caches.Cache.LookupEvictUpdate | engine/ar_cache.h:348-386 | The set of the address makes the step of the recency list and all other sets stay; the block handed back tells hit from miss and is dirty exactly when a dirty line left, with that line's address. |
| CacheRuns.SetsRunAlone | engine/ar_cache.h:348-386 | After any trace each set holds what its own accesses alone would have put there. |
| CacheRuns.HitsAreLatest | engine/ar_cache.h:348-386 | After any trace an access hits if and only if its tag is among the last `associativity` distinct tags of its set. |
| CacheRuns.MoreWaysHitToo | engine/ar_cache.h:348-386 | More ways never lose a hit of the whole cache. |
| CacheRuns.RunIsSound | engine/ar_cache.h:348-386 | After any trace no set holds a line twice, and every line holds an address of its own. |
| CacheRuns.StoreIsKept | engine/ar_cache.h:348-386 | In a write-back, write-allocate cache, after a store and any further trace, the stored line is dirty in its set or a dirty line with an address of it has been handed back. |
| ClockDomains.ClockDomainCrosser.Update | dramsim2/ClockDomain.cpp:59-89 | The loop ends, and the callbacks of this update bring the total to n * clock1 / clock2 rounded up after n updates, despite all resets; both counters stay at or below every common multiple of the clocks. |
| ClockDomains.LeastReaching | dramsim2/ClockDomain.cpp:72-82 | That total is the one number of second-clock ticks that reaches n first-clock ticks without overshooting by a whole tick. |
| ClockDomains.RateIsExact | dramsim2/ClockDomain.cpp:84-88 | Any clock2 updates in a row call back exactly clock1 times: the crossing never drifts. |
| FlashGeometry.TranslateIsExact | nvdimmsim/src/Ftl.cpp:131-154 | Translating any byte address inside a page gives back the page, block, plane, die and package it was laid out from. |
| FlashGeometry.TranslateCovers | nvdimmsim/src/Ftl.cpp:131-154 | Every address below the total size is translated, to a location within the counts whose page contains it. |
| FlashGeometry.PageOfAddress | nvdimmsim/src/Ftl.cpp:697-704 | The table of used pages is indexed by the very block and page that the address was made from. |
| FlashGeometry.PointerLap | nvdimmsim/src/Ftl.cpp:1007-1013 | The write pointer comes back after exactly as many writes as there are planes, and not before. |
| FlashGeometry.PointerVisits | nvdimmsim/src/Ftl.cpp:1007-1013 | Every plane gets its turn in such a lap. |
| PageTables.GiveUp | nvdimmsim/src/Ftl.cpp:697-704 | Marking the old page of a rewritten address unused, once or again on every retry, leaves the used pages the image of the injective map but for that one hole. |
| PageTables.Take | nvdimmsim/src/Ftl.cpp:706-733 | Taking a free page fills the hole: the used pages are exactly the image of an injective map again. |
| PageTables.WriteIsSeen | nvdimmsim/src/Ftl.cpp:706-733 | A write to a free page changes what is stored for its own virtual address and for no other. |
| PageTables.ChoiceIsUnique | nvdimmsim/src/Ftl.cpp:853-896 | The search chooses at most one page, and none exactly when it gives up. |
| PageTables.PointedPlaneServes | nvdimmsim/src/Ftl.cpp:849-867 | If the plane that the write pointer names has a free page, the chosen page lies in that plane. |
| PageTables.GivesUpExactlyWhen | nvdimmsim/src/Ftl.cpp:872-896 | The search gives up if and only if every free page lies below the write pointer's first block and not below that block number divided by the block size. |
| Ftls.FourthWriteGivesUp | nvdimmsim/src/Ftl.cpp:816-896 | From empty tables of two one-page planes, writes of two addresses and a rewrite of the first lead to tables in which the next rewrite of the first finds nothing, with the page it has just given up free. |
| Ftls.Ftl.constructor | nvdimmsim/src/Ftl.cpp:45-129 | Nothing is used, mapped or queued. |
| Ftls.Ftl.AddTransaction | nvdimmsim/src/Ftl.cpp:250-272 | The transaction joins the queue exactly when it has room; an address out of bounds ends the simulation. |
| Ftls.Ftl.WriteUsedHandler | nvdimmsim/src/Ftl.cpp:697-704 | Exactly the page of the rewritten address is given up. |
| Ftls.Ftl.HandleWrite | nvdimmsim/src/Ftl.cpp:816-1020 | With room, the write takes the page the search chooses, is stored for its address alone, leaves the queue and moves the pointer; without room it waits and nothing stored is lost; the simulation ends exactly when the search gives up. |
| Ftls.Ftl.HandleDiskRead | nvdimmsim/src/Ftl.cpp:398-537 | An address first met by a read is given a page as a write would, then read; it gives up exactly when the search does and the deadlock time is over. |
| Ftls.Ftl.HandleRead | nvdimmsim/src/Ftl.cpp:540-695 | A mapped address is read at the page holding its latest content; an unmapped one is answered at once. |
| Ftls.Ftl.Update | nvdimmsim/src/Ftl.cpp:338-395 | Transactions are served in the order queued, each exactly once. |
| Ftls.Ftl.LastWriteIsStored | nvdimmsim/src/Ftl.cpp:540-733 | In every reachable state the page of a virtual address holds the data of the last write served for it. |

## Left out

- Storage contents of the DRAM, energy, latency histograms, statistics, logs, debug output, ini
  and trace files, command lines, destructors and memory ownership.
- The refresh period and the clock ratio are integers; the constructor that approximates a ratio
  by continued fractions is not modelled. Clocks and counters of cycles are unbounded, where the
  simulator's are 64 bits wide.
- Ranks.Rank.Update: hands its packet back instead of calling the controller; MemorySystem passes
  it on.
- CommandQueues.CommandQueue.NeedsRefresh: nothing is claimed about a refresh that is replaced
  before it was issued, because the code then forgets it.
- RefreshWait.EveryRefreshComes: column accesses to other ranks can hold a refresh back and are
  counted, not bounded, because the host decides how many there are.
- HeldBack.NothingIsHeldInVain: with low-power mode on, delays that start when a rank wakes up are
  not backed by a command.
- CommandHistory.EveryRunIsLegal: after an auto-precharge column the other banks of the rank are
  only claimed to wait BL/2, and columns of different ranks are not part of it.
  Turnaround.EveryRunTurnsAround has the full distances where the table remembers them: it skips
  closed banks of other ranks, and an auto-precharge column overwrites its own bank's entry.
  DeviceTimings.EveryRunKeepsTheDevice goes as far between columns.
- CollisionRun.NarrowBusCollides, NapRun.ActivateTooEarly: runs in which a refresh falls into the
  few cycles shown, or the host never finds room for a transaction, are left out of the exact
  conditions.
- RoundRobin.FrontIsEnough: open-page per-bank queues, where the code searches the whole queue.
- ExecBlocks.ExecBlock.BuildExecgraph: a computation at the end of the node list is an error here,
  where the code reads past the list; a node with fewer accesses than global steps is excluded, as
  its group would have no steps; which of two errors is met first is not stated; memory objects
  are not attached to nodes.
- Contexts.Context.InitWindow: requires at least one global step, at least one step in every node
  and at least one port of each kind, without which the simulator does not run either.
- Contexts.Context.Advance: which slot a completion comes back for, and when, is up to the caller,
  as the memory below the first-level cache is not part of this model.
- StuckRun.FinishesExactlyWhen: one thread without a memory simulator, and a reorder window of
  fewer than 2^64 - 2 operations. The loop over several threads, which also asks threads that are
  done for their next event, and the events of a memory simulator are not part of this model.
- Address generators of data nodes: any function whose number of addresses per node is constant.
- The unused variants in the engine (`advance_bk`, `fetch_ops`, `update_loop`,
  `update_dependency`, warm-up) and the reading of application and machine models.
- Request propagation between cache and memory objects, and the adapters to other simulators.
- LruCaches.LRU.FindAndUpdate: after a store to line 0 in a set that is not full nothing more is
  claimed about that set, because its block then has an address that was never set.
- Caches.Cache.LookupEvictUpdate: hit and miss counters; the fields of the returned block that the
  code leaves unset on a hit.
- Flushing all dirty lines, and counters by access type.
- Ftls.Ftl.Update: scheduled and perfect-schedule modes, write scripts, saving and loading, and the
  counters of locked cycles; whether the controller has room is an input of each cycle.
- Garbage collection in the flash translation layer: a block is erased before the last page moved
  out of it is written again, so the tables do not stay exact there. Controllers, buffers, dies and
  channels of the flash module are not part of this model.
- ClockDomains.ClockDomainCrosser.Update: requires a positive second clock; with a zero one and a
  positive first clock the loop does not end.
