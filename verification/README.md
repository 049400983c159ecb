# A verified model of atap's concurrent core

atap is a lock-free task runtime. Its core is a set of small protocols over atomics, and a
few sequential machines beside them. This project models both in Dafny and proves what they
promise, for every interleaving or every input.

`dafny verify dfyconfig.toml` checks the whole project.

## How the models are built

**Protocols between threads** are step systems. A state holds one program counter per
thread, the shared words, and a history that the code does not have. Each atomic operation
is one step, and what a mutex guards is one step. `Next` says which steps there are. A
`Trace` is a run of any length, and `Valid` says that every step of it is allowed. A theorem
takes any valid run of any number of threads. Exchanges that may fail spuriously do. What the
kernel, the pool and the tasks themselves do is part of the state, set from outside at any time,
and the code's steps follow it. So a theorem can say for what reasons something happens.

**Data structures and byte machines** are classes and methods with loops, proved against
specification functions.

`Chains` and `Options` hold what several modules share.

When a property fails, the module has a run that breaks it. The lemma whose name ends in
`Iff` then says exactly when the property holds.

| module | models | where the steps or methods are |
|---|---|---|
| `Receivers` | registrations on a task, walks, closes | `src/modules/receivers.rs` |
| `Gather`, `HandleSet` | one output per task collected into rounds | `src/modules/gather.rs`, `src/modules/handle_set.rs` |
| `Slot` | reads, takes, runs and the last reference | `src/modules/task_data.rs`, `src/executor.rs` |
| `Gate` | gives, runs, the budget, the last giver | `src/modules/gate.rs`, `src/executor.rs` |
| `FreeList`, `TaskTable` | ids, the tagged free list, trims | `src/modules/task_table.rs` |
| `Band`, `Bands`, `Injector` | the shared queue: one band and every band between threads, and as a structure | `src/modules/injector.rs` |
| `Ring` | a worker's ring with 32-bit counters | `src/modules/worker.rs` |
| `QueueMark` | who may run a queued task | `src/modules/task_data.rs`, `src/modules/worker_pool.rs` |
| `ParkSubmit` | a worker falling asleep beside a submission | `src/modules/thread_slot.rs`, `src/modules/worker_pool.rs` |
| `ParkClaim` | a task put down until something happens | `src/executor.rs` |
| `Stream` | receiving from a byte stream | `src/futures/net/stream.rs` |
| `Channel` | a channel and its doorbells | `src/futures/channel/core.rs` |

### What was found

These hold only under the condition given, and each has a run that breaks them otherwise.

- A value can be moved out and dropped when a slot is run again. A run may begin from
  `Taken` while the taker is still moving the value out (`Slot.OwnedOnceIff`).
- A gate for single runs with a limit of two or more can take more gives than the limit, since
  the exchange and the spend are two steps (`Gate.LimitKeptIff`). It passes the limit by at most
  one fewer than the most gives under way at once, and it can pass it by that many, even through
  one handle that several threads share (`Gate.OverspendBound`, `Gate.Overspends`).
- A gate for single runs with a limit of two or more can rest waiting with no give left, since
  its last run can end before the last give is spent (`Gate.SpentFinishesIff`).
- A set of two or more tasks can empty a round out after its target was let go
  (`Gather.RoundsHeldIff`).
- A trim drops every id it drained at or above the mark it read, and that id is never used again
  (`FreeList.TrimDropsExactly`, `FreeList.DropsNothingIff`). Growth can hand one out after the
  mark was read, and it can be given back before the drain (`FreeList.GrownIdDropped`).
- A slot that is emptied while the shared queue links it takes its link with it. Everything
  linked behind it can no longer be reached and is still counted (`Injector.LosesTail`,
  `Injector.LostIff`). This happens when a repeating task is released while it is queued
  (`src/executor.rs:2591-2628`) and its last handle then goes.
- If that slot is given to another task, and that one is queued while the old link still stands,
  the slot is linked twice and the links spell out no lists at all (`Injector.LinksTwice`,
  `QueueMark.LinkedOnceIff`).
- A steal that stalls while the ring's counter goes all the way round takes entries that are
  no longer there (`Ring.RingIsFifoIff`).
- A worker that is stopped may leave with a task queued, having spent the wake meant for that
  task, while another worker sleeps on. That is the only way a wake is lost: workers that are
  started, or leave an empty queue, lose none (`ParkSubmit.NoLostWakeIff`).
- A refused registration that acts after its own park was claimed can take down a later park of
  the same task, which is being watched (`ParkClaim.RefusalIsOwnIff`).

## Model

| member | source | states |
|---|---|---|
| `Receivers.NoWalkLost` | src/modules/receivers.rs:71-154 | Once no thread is registering, forwarding, walking or closing, every listed registration has been handed the readable output, and a closed task has none listed. The early return on an empty head loses nothing. |
| `Receivers.HandedOnce` | src/modules/receivers.rs:240-267 | Over every run, no registration is handed the same output twice. |
| `Receivers.NoRegistrationLost` | src/modules/receivers.rs:157-221 | Every registration ever made is listed, in the walk's hands or let go, in exactly one of those places. |
| `Receivers.LastOutputFirst` | src/modules/receivers.rs:150-184 | A registration let go by a close has had the last output, as long as that output stayed readable. |
| `Receivers.LetGoForAReason` | src/modules/receivers.rs:240-267 | Over every run, a registration is let go only by a close of a task that is over or that somebody ended, because its far end had finished, or because a delivery to it panicked. |
| `Receivers.KeptUntilThen` | src/modules/receivers.rs:157-221 | A registration that none of these happened to is still listed or in the walk's hands, and once nobody is inside it is listed and has had the readable output. |
| `Receivers.VisitKeepsIff` | src/modules/receivers.rs:240-267 | A visit keeps a registration exactly if the pass saw no close, its far end has not finished and no delivery to it panics. An output it hands over is new to it and read with no run writing. |
| `Receivers.StoppedLetsGo` | src/modules/task_data.rs:548-564 | A task that was stopped, and has ended a run or had something register on it since, is closed once nobody is inside, with every registration let go. |
| `Gather.OneInFlight` | src/modules/gather.rs:87-125 | At most one round is ever between being emptied out of the slots and being given, and the count of rounds being given is then one. |
| `Gather.TargetKept` | src/modules/gather.rs:87-157 | A round emptied out while the target was held still finds the target when it is given, whatever leaves meanwhile. |
| `Gather.EveryRoundGiven` | src/modules/gather.rs:87-125 | Once no fill is under way, the target was given exactly the rounds emptied out while it was held, in order and once each. |
| `Gather.RoundsNewer` | src/modules/gather.rs:87-104 | Every round holds, for every task, a newer output than the round before. |
| `Gather.LetGoInTheEnd` | src/modules/gather.rs:130-157 | Once every task of the set has left and no fill is under way, the target has been let go. |
| `Gather.LastValueGiven` | src/modules/gather.rs:139-157 | A task that left with its slot full, the target held and no fill under way has its value in a round the target is owed, if that round fills. |
| `Gather.RoundWithoutTarget` | src/modules/gather.rs:110-157 | For every set of two or more tasks, a run in which a round is emptied out after the fill before it let the target go. |
| `Gather.RoundsHeldIff` | src/modules/gather.rs:87-157 | Every round is emptied out while the target is held, over every run without a write-off, exactly for sets of at most one task. |
| `Gather.HeldUntilThen` | src/modules/gather.rs:130-195 | Until a task of the set leaves, the target is held exactly as long as the set is not written off. |
| `Gather.LetGoOnceStuck` | src/modules/gather.rs:145-157 | Once a task has left its slot empty and no fill is under way, the target is let go. |
| `Gather.RoundsAreLatest` | src/modules/gather.rs:87-104 | A full slot holds its task's latest output, so a round emptied out is the latest output of every task. |
| `HandleSet.StartsEmpty` | src/modules/handle_set.rs:125-127 | A nested set starts with one empty slot per handle, in the set's own shape. |
| `HandleSet.FilledIff` | src/modules/handle_set.rs:129-131 | A nested set is filled exactly when every slot of its flat row holds a value. |
| `HandleSet.Assembled` | src/modules/handle_set.rs:133-135 | Assembling hands on the row's values in place and in shape, and leaves every slot empty with the shape unchanged. |
| `HandleSet.SamePaths` | src/modules/handle_set.rs:137-155 | The ways to the slots depend on the shape alone, and there is one for each slot. |
| `HandleSet.PutReaches` | src/modules/handle_set.rs:137-155 | A value written through the `k`th registration's way lands in the `k`th slot of the row and in no other. |
| `Slot.ReadersAlone` | src/modules/task_data.rs:384-404 | For every kind of task, no reader is inside the payload while a run drops or writes it, or while the last reference empties the slot. |
| `Slot.TakerAlone` | src/modules/task_data.rs:409-420 | While a take moves the value out there is no other take, no run, no reader and no disposal, unless a run began beside the take. |
| `Slot.OneTaker` | src/modules/task_data.rs:409-420 | A task that runs once is taken at most once, and no run ever begins beside its take. |
| `Slot.EveryValueOnce` | src/modules/task_data.rs:886-1013 | While no run began beside a take, no value is moved out or dropped twice, and once the slot is free every value written was moved out or dropped exactly once. |
| `Slot.TakenTwice` | src/modules/task_data.rs:886-920 | For every kind that runs again, a run in which one value is both dropped and moved out. |
| `Slot.OwnedOnceIff` | src/modules/task_data.rs:886-940 | No value is ever moved out or dropped twice, over all runs of a kind, exactly for the kinds that do not run again. |
| `Slot.PhaseSaysSo` | src/modules/task_data.rs:886-940 | While a reference is held and no run began beside a take, a slot that reads ready holds the value last written, neither moved out nor dropped. One that reads taken has had it moved out, or a take is about to. |
| `Slot.PhaseForAReason` | src/modules/task_data.rs:886-1013 | A slot reads running only while a run is under way, is stopped only from outside or by a panic, and is free once every reference is gone. |
| `Slot.ReadGrantedIff` | src/modules/task_data.rs:384-395 | A read is granted exactly if the slot is ready when it looks, and it then finds the value there. |
| `Slot.WonForAReason` | src/modules/task_data.rs:409-420 | A take is won only from a ready slot, and a run begins only from one waiting to, or for a task that runs again from a ready or taken one. |
| `Slot.CanTake` | src/modules/task_data.rs:409-420 | Nothing holds up a take of a ready slot, whatever else is going on. |
| `Slot.CanRun` | src/modules/task_data.rs:886-906 | Nothing holds up a run of a slot that it may begin from. |
| `Gate.GiveOwedRun` | src/modules/gate.rs:177-285 | In every configuration, a give that is owed a run is followed by one that begins after its value was left, unless the gate is cancelled, written off or cannot queue a run: until then one is queued, pending or in a thread's hands. For single runs every give taken is owed one. |
| `Gate.GiveSeen` | src/modules/gated.rs:88-94 | Once nothing is under way, every give owed a run has been read, or a newer one has, with only those ways out. |
| `Gate.NeverAbandoned` | src/modules/gate.rs:235-297 | At rest, a gate that is waiting has a handle left that can give. |
| `Gate.FinishedForGood` | src/modules/gate.rs:287-297 | A finished gate stays finished whatever happens. Of the last giver, the end of a run, a cancel and a write-off, at most one caller ever closes a waiting gate, over every run. |
| `Gate.FinishedForAReason` | src/modules/gate.rs:235-297 | A gate finishes only because it was cancelled or written off, could not queue a run, has no give left or has no handle left. |
| `Gate.WaitsUntilThen` | src/modules/gate.rs:235-285 | At rest, a gate that none of these happened to waits for its next give. |
| `Gate.RefusedForAReason` | src/modules/gate.rs:177-209 | Every give is taken, refused or still under way, and is refused only by a gate that is finished or has no give left. |
| `Gate.StopFinishes` | src/executor.rs:2425-2456 | Once nothing is under way, a gate that was written off is finished, and one whose slot went is finished at once. |
| `Gate.LimitReached` | src/modules/gate.rs:212-222 | The gives run out only once as many as the limit were taken. |
| `Gate.Overspends` | src/modules/gate.rs:177-222 | For every limit of two or more on single runs and every number of gives at once, a run that passes the limit by one fewer than that, all of them through one handle. |
| `Gate.OverspendBound` | src/modules/gate.rs:177-222 | Over every run, the gives taken pass the limit by at most one fewer than the most gives that were under way at once, and a limit of zero takes none. |
| `Gate.LimitKeptIff` | src/modules/gate.rs:177-222 | The gives that start or are owed a run never pass the limit, over all runs, exactly for a series or a limit of at most one. |
| `Gate.RestsSpent` | src/modules/gate.rs:235-285 | For every limit of two or more on single runs, a run after which the gate waits with no give left and nothing under way. |
| `Gate.SpentFinishesIff` | src/modules/gate.rs:235-285 | A gate at rest and waiting has a give left, over all runs, exactly without a limit, with a limit of one, or for a series with any limit but zero. |
| `FreeList.HandedOutOnce` | src/modules/task_table.rs:94-166 | An id is handed out to one caller at a time, and is then on no list and in nobody else's hands. The live count is exact. |
| `FreeList.PopsTheFront` | src/modules/task_table.rs:94-122 | The head and links always spell out the free list without duplicates, and an exchange that lands installs the true successor. |
| `FreeList.TrimmedUnused` | src/modules/task_table.rs:226-294 | From picking the new mark until the mark comes down, every id between the two is in the trim's hands alone, and the table cannot grow into them. The new mark keeps at least 100 ids and most of the old span. |
| `FreeList.NothingAboveMark` | src/modules/task_table.rs:275-294 | No id at or above the mark is handed out, listed or in anybody's hands, however often the mark came down. |
| `FreeList.NothingMissing` | src/modules/task_table.rs:297-357 | At rest, every id below the mark is handed out, listed, refused by the kernel or dropped by a trim. |
| `FreeList.KeepMark` | src/modules/task_table.rs:255-266 | The mark comes down to the floor or to just above the highest id that was not drained, and everything it passes was drained. |
| `FreeList.GrownIdDropped` | src/modules/task_table.rs:297-301 | A run of ordinary allocs and frees in which a trim drains an id handed out after it read the mark, and never puts it back. |
| `FreeList.TrimDropsExactly` | src/modules/task_table.rs:297-309 | A trim drops exactly the ids it drained at or above the mark it read, whichever way it ends. |
| `FreeList.DropsNothingIff` | src/modules/task_table.rs:226-309 | Once no trim is under way, the ids ever dropped are exactly those that were on the free list at or above the mark a trim had read when its exchange took the list. So none is dropped exactly when there was none. |
| `FreeList.GrowsOnlyEmpty` | src/modules/task_table.rs:94-135 | An alloc grows the table exactly when it finds the free list empty, and comes back with nothing only when the kernel has no memory. |
| `FreeList.RefusedForAReason` | src/modules/task_table.rs:124-135 | No id is refused over a whole run in which the kernel always had memory. |
| `FreeList.FloorExact` | src/modules/task_table.rs:226-245 | The least a trim leaves is the live ids and 4096 more, four fifths of the span or 100, whichever is most, and the trim stops there exactly if that is the whole span. |
| `FreeList.TrimLowersIff` | src/modules/task_table.rs:246-294 | A trim brings the mark down exactly if the id just under the mark it read was drained and the table has not grown since, and puts an id straight back exactly if it is below the floor. |
| `TaskTable.Position` | src/modules/task_table.rs:449-455 | An id's offset is inside its block, and the block's first id plus the offset is the id. |
| `TaskTable.PositionsMatch` | src/modules/task_table.rs:449-455 | Positions are a bijection between the ids below the maximum and the slots of the 23 blocks. |
| `TaskTable.BlocksFollow` | src/modules/task_table.rs:449-455 | The first block starts at id zero, each block starts where the one before ends and is twice as long, and the last ends at the maximum id. |
| `TaskTable.PagesOf` | src/modules/task_table.rs:375-394 | A block's range starts and ends at multiples of the slots to a page inside the block, holds only ids between the two given, and leaves out no whole page of them. |
| `TaskTable.ReleasePages` | src/modules/task_table.rs:360-403 | The ranges given back are whole pages of mapped blocks between the two ids, at most one to a block and only where the kernel accepts. Every such page is in one, and the total is the size of a slot times the number of ids they cover. |
| `TaskTable.KeepMark` | src/modules/task_table.rs:246-266 | The walk down a bitmap of 64-bit words finds the same mark as the search of the drained ids. |
| `TaskTable.ReleasedUnused` | src/modules/task_table.rs:268-272 | Whenever a trim gives pages back, no slot on them belongs to an id that is handed out, listed or in another thread's hands. |
| `Band.BandIsFifo` | src/modules/injector.rs:60-87 | In every interleaving of pushes, pops and flips, what was popped followed by the band is what was pushed, the two sides share no id, and the count is never low. |
| `Band.RestsExact` | src/modules/injector.rs:346-388 | With nobody inside, the band is its served side followed by its pushed side reversed, and the count is exact. |
| `Band.PopsOldest` | src/modules/injector.rs:289-336 | An exchange that lands on the served side takes the oldest task of the band, and no flip has hold of any then. |
| `Band.NothingThereIff` | src/modules/injector.rs:289-365 | A pop finds nothing exactly when the served side is empty, and a flip leaves the band alone exactly when it is not or nothing was pushed. |
| `Band.CanPush` | src/modules/injector.rs:60-87 | A task in no band can be pushed by any thread, whatever the others are in the middle of. |
| `Band.CanServe` | src/modules/injector.rs:262-388 | Whatever a band holds, a thread that finds no flip at work can get the oldest of it, turning the pushed side round first if it has to. |
| `Bands.EachIsFifo` | src/modules/injector.rs:60-388 | With any number of bands and promotions beside pushes, pops and flips of all of them, what left each band followed by what it stands for is what came into it. |
| `Bands.InOnePlace` | src/modules/injector.rs:206-235 | In every interleaving a task is in one band at most, in none while a promotion carries it, and carried by one promotion at most. |
| `Bands.ServedOnce` | src/modules/injector.rs:60-235 | Each time a task was submitted it has been served, once, or it is in a band or being promoted now. |
| `Bands.PromotesOldest` | src/modules/injector.rs:206-217 | A promotion that lands takes the oldest task of its band, whatever else goes on. |
| `Bands.LandsLast` | src/modules/injector.rs:223-234 | A push that lands, a promotion's too, puts its task behind everything in its band. |
| `Bands.CarriesOn` | src/modules/injector.rs:217-234 | A promotion that has its task can always go on to push it onto the band above. |
| `Bands.CountNeverLow` | src/modules/injector.rs:126-131 | The count is never below what the bands stand for together, and exact once nobody is inside the queue. |
| `Bands.PromotionUncounted` | src/modules/injector.rs:217-222 | No step of a promotion changes the count. |
| `Injector.Injector.Link` | src/modules/injector.rs:78-86 | Linking a slot that is on no list puts it at the back of its band, leaves the other bands alone, and keeps every chain acyclic and apart from the others. Linking one that a list still links leaves heads and links that spell out no lists. |
| `Injector.Injector.Push` | src/modules/injector.rs:60-87 | A live task goes to the back of the band whose number is its priority, or of the last band for any priority past it, and no other band changes. An id with no live task changes nothing. If a list still links the slot, and only then, no lists are left. |
| `Injector.Injector.Spawn` | src/modules/task_data.rs:200-235 | A task put in an empty slot is unmarked and its link cleared. If a list still links the slot, what is behind it is lost, and nothing else changes. |
| `Injector.Injector.Retire` | src/modules/task_data.rs:955-1013 | Emptying a slot clears its link: each list keeps what comes up to the slot, everything behind it is lost and still counted, and nothing else changes. |
| `Injector.ReachedIff` | src/modules/task_data.rs:1007-1012 | A linked task can still be reached after a slot is emptied exactly if that slot is not linked ahead of it. |
| `Injector.LostFromFront` | src/modules/injector.rs:366-380 | On the pushed side, what an emptied slot loses is the oldest part of the side: everything queued before it. |
| `Injector.LosesTail` | src/modules/injector.rs:289-318 | Two tasks queued and the first one's slot emptied: a pop serves neither, though the second is live and counted. |
| `Injector.LinksTwice` | src/modules/injector.rs:60-87 | A slot emptied while queued, filled and queued again: the links spell out no lists. |
| `Injector.Tangles` | src/modules/injector.rs:78-86 | For every queue and every slot a list links, linking it again leaves no lists that the heads and links could spell. |
| `Injector.Accounted` | src/modules/injector.rs:60-284 | Over any calls, up to one that links a linked slot again, each time a task was queued it was served, stepped over, lost or is still linked, once. It was stepped over only if its slot was emptied while linked. |
| `Injector.LostIff` | src/modules/task_data.rs:1007-1012 | Over any calls, up to one that links a linked slot again, nothing is lost exactly if no slot was ever emptied or filled with something linked behind it. |
| `Injector.FreeToPush` | src/modules/task_data.rs:519-534 | Over any calls, a slot that is not marked shared and was never emptied while linked is on no list, so queueing its task is safe. |
| `Injector.Injector.PopReady` | src/modules/injector.rs:289-336 | The first live task the links of the served side lead to is returned, and the emptied slots before it are unlinked and counted out. |
| `Injector.Injector.Flip` | src/modules/injector.rs:346-388 | Turning a band round in place leaves what the links of every band lead to unchanged. |
| `Injector.Reverse` | src/modules/injector.rs:366-380 | Rewriting a chain link by link onto an empty one gives its reverse, with every other chain intact. |
| `Injector.Injector.Take` | src/modules/injector.rs:262-284 | A band loses everything up to the first task its links lead to that can be claimed, which is returned with its mark claimed. With none, the band is emptied. |
| `Injector.Injector.Promote` | src/modules/injector.rs:206-235 | The first live task the served links lead to moves to the back of the band above, and no other band changes. |
| `Injector.Injector.Oldest` | src/modules/injector.rs:170-194 | The oldest live task at the head of a served side is found, and nothing is found only if no served side shows one. |
| `Injector.Injector.PopBanded` | src/modules/injector.rs:98-118 | With relief owed and a live head showing, the band that shows the oldest is served first, if it has a task that can be claimed. Otherwise it is the first such task of the highest band that links one, and nothing is returned only if no band links one. |
| `Injector.ServedInOrder` | src/modules/injector.rs:98-118 | Over any calls with nothing promoted and no relief owed, tasks are served by priority, and in the order they were queued for the same one. |
| `Injector.NothingToServe` | src/modules/injector.rs:98-118 | Over any calls, nothing is served only if no list links a live task that is still marked. |
| `Injector.OldestServed` | src/modules/injector.rs:98-118 | While relief is owed, the oldest task that heads a served side is served before any other, whatever its priority, and one pop less is owed. |
| `Injector.Injector.SetStarving` | src/modules/injector.rs:142-152 | A starving queue is owed 64 oldest-first pops and one that is not is owed none, and nothing else changes. |
| `Injector.ServedFirst` | src/modules/injector.rs:262-284 | What a band serves first is the first live task linked on its served side, or else the first one linked behind it. |
| `Ring.RingIsFifo` | src/modules/worker.rs:261-391 | The entries taken, followed by the ring read through its 32-bit counters, are the entries pushed, and the ring never holds more than 256. |
| `Ring.TakesOldest` | src/modules/worker.rs:327-361 | A pop or steal whose exchange lands takes exactly the entries it read, off the old end: one entry for a pop, and for a steal half of what it saw, rounded down, but at least one. |
| `Ring.RefusedIffFull` | src/modules/worker.rs:261-279 | A push is refused exactly if the ring holds 256 entries when it looks. |
| `Ring.GivesUpIffEmpty` | src/modules/worker.rs:283-340 | A pop or steal gives up exactly if everything pushed was taken by the time it reads the tail. |
| `Ring.StealLandsIff` | src/modules/worker.rs:327-361 | The exchange of a steal lands exactly if nothing was taken since it read the head. |
| `Ring.WrapAgrees` | src/modules/worker.rs:261-268 | Comparing and subtracting wrapped counters agrees with the counts they stand for, less than one turn apart. |
| `Ring.StaleStealLands` | src/modules/worker.rs:327-361 | A run in which a thief stalls for one whole turn of the counter and then takes what is no longer there. |
| `Ring.RingIsFifoIff` | src/modules/worker.rs:261-391 | The ring is a queue, over all runs, exactly when no taker is held up for a whole turn of the counter. |
| `QueueMark.ClaimedOnce` | src/modules/task_data.rs:519-534 | No two activities have the right to run a task, nothing is marked while one has it, and every mark but the one in place was claimed once or went with its task. |
| `QueueMark.LocalIsFound` | src/modules/worker_pool.rs:393-422 | A task marked local is in a LIFO slot or ring, or somebody has an entry for it in hand. |
| `QueueMark.PlacedIff` | src/modules/worker_pool.rs:393-422 | A task goes into a free LIFO slot, else into a ring with room, and is taken back otherwise if nobody ran it meanwhile. One taken back is linked into the shared queue unless the pool refuses it. |
| `QueueMark.SpillsForAReason` | src/modules/worker.rs:368-386 | A task is taken back out of the local queues only once a ring was full. |
| `QueueMark.LinkedOnce` | src/modules/worker_pool.rs:404-415 | The shared queue never links a slot that is already linked or not marked shared, unless the slot was given to another task while linked and has been linked ever since. |
| `QueueMark.LinkedTwice` | src/modules/injector.rs:60-87 | A run in which a task goes while its slot is linked, and the next task in the slot is linked too. |
| `QueueMark.LinkedOnceIff` | src/modules/worker_pool.rs:404-415 | A slot is linked once at most, and only while marked shared, over all runs, exactly as long as no link was left behind when the slot was given to another task. |
| `QueueMark.SharedByLink` | src/modules/help.rs:100-120 | A task marked shared is taken only through its link, never through an entry or by a waiter, or goes with its slot. Unless a link was left behind, whoever unlinks it always gets it. |
| `ParkSubmit.NoLostWake` | src/modules/thread_slot.rs:277-329 | However workers are started and stopped: with a task queued, nobody in the middle of queueing one and a worker there, some worker is awake, neither asleep nor committed to sleep. Only a worker that left with a task queued, since the queue was last empty, is shut out. |
| `ParkSubmit.ParkedExact` | src/modules/worker_pool.rs:1196-1205 | The parked count is exactly the workers between being counted in and out, and a slot reads empty exactly when no worker is in it. |
| `ParkSubmit.WordSaysSo` | src/modules/thread_slot.rs:169-329 | A worker's word reads running only while it runs a task and parked only between announcing a park and leaving it, and idle whenever it looks for work, unless it was stopped. |
| `ParkSubmit.StopTakesEffect` | src/modules/worker.rs:455-485 | A stopped worker goes the next time it looks for work, or puts the task it had just taken back in the queue and goes. No worker begins a task once it is stopped, and none goes that was not. |
| `ParkSubmit.QueueExact` | src/modules/worker_pool.rs:352-386 | The queue loses one task at a time, to a worker that takes it, and gains one from a submitter or some from a worker that goes. |
| `ParkSubmit.CanSleep` | src/modules/worker.rs:504-510 | A worker that is not stopped can go to sleep while nothing is queued. |
| `ParkSubmit.CanTake` | src/modules/worker.rs:455-493 | A worker that looks for work while a task is queued can take it and run it. |
| `ParkSubmit.GoesOn` | src/modules/worker_pool.rs:1161-1179 | A submitter that finds every worker committed to sleep, and has only passed slots with none, goes on with its next step or takes one of them out of its park. |
| `ParkSubmit.WakeLost` | src/modules/worker.rs:456-458 | A run in which the worker a submission woke is stopped and leaves with the task queued, and the other worker sleeps on. |
| `ParkSubmit.NoLostWakeIff` | src/modules/worker_pool.rs:352-386 | No wake is lost, over all runs, exactly as long as no worker has left with a task queued since the queue was last empty. |
| `ParkClaim.ClaimedOnce` | src/modules/task_data.rs:843-876 | Every park but the one in place was claimed once, and its claimer has the task to itself. |
| `ParkClaim.TakenDownOnce` | src/executor.rs:1598-1610 | The task's box is dropped at most once, the executor's reference let go at most once, and the box goes first. It also goes before a task claimed out of its park is said to be over. |
| `ParkClaim.NeverStranded` | src/executor.rs:1448-1464 | At rest, a parked task is running, boxed and watched, whichever of park and stop went first. One neither parked nor queued is over and down. |
| `ParkClaim.OverForAReason` | src/executor.rs:1168-1180 | A task is cancelled only by a cancel and timed out only by a timeout. It fails only if it panicked, a registration was refused or the pool took nothing more in, and it has its output only if it finished. |
| `ParkClaim.KeptUntilThen` | src/executor.rs:1563-1582 | Until one of those comes, a task nobody is busy with has its box, and is parked with something to wake it, or queued. |
| `ParkClaim.TimeoutEnds` | src/executor.rs:1356-1380 | Once nobody is busy, a task that went past its timeout is over or has its output, and is not parked, wherever it was when the timeout came. |
| `ParkClaim.StepPublishesIff` | src/executor.rs:1132-1203 | A step that finishes publishes exactly if the task was not stopped meanwhile, one that panics leaves it to be failed, and one that parks changes nothing. |
| `ParkClaim.StepsUnlessOver` | src/executor.rs:1105-1120 | A task taken out of the queue is stepped, from its start or from its park, exactly if it is not over, and what is over stays as it is. |
| `ParkClaim.RunsAndParks` | src/executor.rs:1092-1149 | Any idle thread can take a queued task that is not over, step it and put it down again, whatever the other threads are in the middle of. |
| `ParkClaim.WrongParkDown` | src/executor.rs:1448-1464 | A run in which a refused registration takes down a later park that is being watched. |
| `ParkClaim.RefusalOfOwn` | src/executor.rs:1448-1464 | A refused registration that finds its own park in place takes down one that nothing is watching. |
| `ParkClaim.RefusalIsOwnIff` | src/executor.rs:1455-1461 | A refused registration takes down only an unwatched park, over all runs, exactly when none acts after its own park was claimed. |
| `Stream.FirstOfAll` | src/futures/net/stream.rs:599-648 | The first delimiter in what has been read is the first in the whole stream, and one not there yet ends past what has been read. |
| `Stream.BackedUp` | src/futures/net/stream.rs:611-624 | The search that starts near where the last one stopped finds what a search from the start finds. |
| `Stream.Settled` | src/futures/net/stream.rs:626-648 | Once a delimiter or the limit has been reached, nothing still to come changes what the receive comes to. |
| `Stream.OutcomeRight` | src/futures/net/stream.rs:524-648 | An outcome is right exactly if it is the one stated without the search: the first bytes asked for, everything up to and with the first delimiter, or all of it, and otherwise the error for how the stream ended. There is none exactly if more may come and what there is is not enough. |
| `Stream.RecvTask.Search` | src/futures/net/stream.rs:611-622 | The backed-up windowed search equals the naive first occurrence. |
| `Stream.RecvTask.TakeLeftover` | src/futures/net/stream.rs:560-592 | What is taken followed by what stays is what was left over, and only a receive of whatever has arrived or of nothing is done by it alone. |
| `Stream.RecvTask.Enough` | src/futures/net/stream.rs:599-648 | A receive that is over returned the outcome of the whole stream and lost no byte. One that is not is short of it, and all it has is searched. |
| `Stream.RecvTask.ReadOn` | src/futures/net/stream.rs:524-552 | One read, of any size, keeps every byte in order. It parks only if the kernel had nothing, with the receive still short, and a receive it ends comes to the outcome of the whole stream. |
| `Stream.RecvTask.Advance` | src/futures/net/stream.rs:491-554 | A step comes to the outcome decided by what was left over, what was sent and how it ended, or parks with nothing lost, only because the kernel had nothing and what there is is not enough. It reads less than the budget and one chunk more. |
| `Stream.RecvTask.PutBack` | src/futures/net/stream.rs:658-675 | Everything read goes back in front of what was left over. |
| `Stream.RecvTask.Step` | src/futures/net/stream.rs:686-695 | A failed step puts back all it read, a finished one counts exactly its output as returned, and one parks only if the kernel had nothing and it is still short. |
| `Stream.Receive` | src/futures/net/stream.rs:491-554 | A receive comes to the one outcome that is right for what was left over and sent, however the stream is cut up and however often it parks. It is left unfinished only if everything arrived was read and is not enough. |
| `Stream.Session` | src/futures/net/stream.rs:653-695 | Over any receives, steps and cancels, what was returned, then what is in progress, then what is left over is what was read, in order. |
| `Channel.Core.Push` | src/futures/channel/core.rs:117-144 | A value goes to the back unless nobody can receive it, or as many values as the capacity are queued, exactly then. The room bell is silent exactly when it is refused as full, and the bells stay right. |
| `Channel.Core.Pop` | src/futures/channel/core.rs:151-174 | The oldest value is taken, `NotReady` is returned exactly when the items bell is silent, and `Closed` exactly when nothing is left and nobody can send. |
| `Channel.Core.AddSender` | src/futures/channel/core.rs:177-179 | Another sending end leaves the bells right. |
| `Channel.Core.DropSender` | src/futures/channel/core.rs:183-191 | The last sending end going rings the items bell exactly if it was silent. |
| `Channel.Core.AddReceiver` | src/futures/channel/core.rs:194-196 | Another receiving end leaves the bells right. |
| `Channel.Core.DropReceiver` | src/futures/channel/core.rs:200-208 | The last receiving end going rings the room bell of a full bounded channel, and only then. |
| `Channel.SendStep` | src/futures/channel/channel_task.rs:87-107 | Any copy of a send waits exactly while the channel is full, keeping the value, ends closed exactly if nobody is left to receive it, and finds it finished once it has gone in. |
| `Channel.Session` | src/futures/channel/core.rs:117-208 | Through any turns of any open ends, the values popped followed by the queue are the values pushed, the bells match, and a send shared by copies goes in at most once. |

## Left out

- Memory orderings: every step system is sequentially consistent, so what the weaker orderings in the code need is not shown.
- Tags: `FreeList` and `Band` use unbounded tags. The 16-bit tag in the code can come round again.
- Receivers: the intrusive list is a sequence, and the exchange loop on its head is one step when it lands.
- Slot: the executor's own reference is one of the references its threads hold, and the slot's memory being reused after it is free is not followed.
- Gate: start delays and the runs inside a series are not modelled. A series is one run from its first give to its end.
- Gather: one registration's deliveries and its drop come one after the other, which is what the walk's lock gives. Whether the target accepts a give is not modelled.
- FreeList: the peak and the address of a slot are not modelled. What pages lose when they are given back is.
- TaskTable.ReleasePages: a page size that is not a multiple of the slot size gives ranges in whole slots, as the code does, and says nothing of page boundaries in bytes.
- Band and Bands: a slot emptied while it is linked is in `Injector`, which runs one call at a time.
- Injector.Accounted: ends where a slot that a list links is linked again, and so do the other results over any calls. What calls do to links that spell out no lists is not followed.
- Injector: a slot may be emptied at any time, whatever let go of its task, and a call in the middle of another is in `Bands`.
- QueueMark: one slot id at a time. That a submitter has the right to queue the task is where the model starts, and parks, gates and spawns give it that right.
- ParkSubmit: the task is linked in the same step as it is counted, and a pop is uncounted in the same step as it is popped. A stop and its wake are one step. Whether the manager later starts another worker for a task left behind is not modelled.
- ParkClaim: one task that is not on a schedule and takes no gives. The listeners that keep the slot from being freed meanwhile are in `Slot`.
- Stream: TLS, and which filter a wait is for. A receive of whatever has arrived depends on the chunks by design, so only its size and when it may be empty are stated.
- Stream: sending is left out, since its loop only counts what the kernel took.
- Channel: an end is used or copied only while it is open, which the code's ownership gives and the methods require. The descriptors, and what the kernel does between a ring and a parked task waking, are not modelled.
- Timers, the reactor, `kqueue`, signals and address waits beyond what a step may do at any time.
- Files, processes, connection setup, TLS and address conversion.
- Pool sizing, starting, supervising and shutting down threads, and recovery after a thread dies.
- Helping while waiting, beyond the claim of the queue mark.
- Repeats on an interval, arming the deadlines of runs, and statistics.
- Builders, handle kinds, tuple macros and error formatting: no behaviour beyond their types.
