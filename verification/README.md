# Dospack: scheduler, allocator, flags and interrupts, verified

A Dafny model of the deterministic core of Dospack, a small DOS emulator, with
proofs about whole runs. It models three clusters of the C sources.

**The event scheduler and its clients.** `scheduler.dfy` is the queue of
`core/timetrack.c` as a value; `timetrack.dfy` is the pool itself, a class over the
512 slots whose two intrusive lists are rewritten link by link; `order.dfy` proves
the firing order over any run of calls. `keyboard.dfy`, `hwtimer.dfy`, `pic.dfy` and
`events.dfy` are the devices: each routine is a function on values, and a class
whose methods update fields and arrays in place and are proved equal to that
function; `pitruns.dfy` follows the timer over any sequence of port accesses, and
`counter.dfy` and `status.dfy` say what its latches are worth then.
`machine.dfy` puts them together: `dp_timetrack_run_events` running real
callbacks, the head of the decode loop, an invariant of the whole machine, and the
theorem that replay is exact; `firing.dfy` lists the scheduler calls beside the routines
that make them and shows that the machine's runs fire events in the order of the calls.

**Recording and replaying.** `record.dfy` proves when README.md of the program keeps
its promise that recorded input reproduces the run, for every guest program and
every session, with a test at each tick that is exact in both directions. `same.dfy`
compares a machine with one that is replaying; `sketch.dfy`, `ring.dfy` and `tick.dfy`
let the first input of a tick and the events due there change places; `feed.dfy` makes
that the tick's test; and `witness.dfy` plays a session, from power-on, that its replay does not reproduce.

**The DOS memory control blocks** (`mcb.dfy`): a chain of one-paragraph headers in
guest memory, its methods writing paragraphs in place, against a list of blocks.

**The processor**: `lazyflags.dfy` (flags worked out when read, against a processor
that fills its register behind every instruction), `interrupt.dfy` (interrupt entry
and IRET over a byte-addressed stack), `strings.dfy` (repeated string instructions
against single steps) and `bioskeys.dfy` (the BIOS key ring and int 16h).

`basics.dfy` holds the types they share. Machine integers are natural numbers with
every truncation and wrap written out; bit patterns are `bv8`, `bv16` and `bv32` where
the code masks them. Pointers to slots and headers are their indices. Every function
pointer the program passes to `dp_timetrack_add_event` is a constructor of
`Scheduler.Callback`.

Where the code departs from what it is for, the model follows the code and a lemma
says exactly where:

- `get_OF` and `FillFlags` differ behind a right shift by one of exactly the sign
  bit, and nowhere else (`LazyFlags.FillAgrees`, `LazyFlags.SignBitShiftDiffers`).
- Growing a memory block by exactly its free neighbour wrecks the header chain; every
  other resize keeps it (`McbModel.ExactGrowBreaks`, `McbModel.Dosblock.Resize`).
- A user event is recorded behind the other events of its tick, but replayed where
  its queue entry stands. Replay reproduces the run if and only if, at every tick with
  input, the first input and the events due behind the replay event can change places
  (`RecordReplay.RecordThenReplay`, `ReplayFeed.TickReplayed`). They can if nothing is
  due behind it or the input is not a key (`ReplayFeed.AgreesWhen`). They cannot exactly
  if the keyboard's periodic event stands behind it and counts down for the key just
  pressed, if the ring takes other bytes, or if the timer's next event ties with the
  key's transfer (`ReplayFeed.AgreesIff`); with room in the ring it takes other bytes
  exactly if the periodic event repeats a key (`ReplayFeed.AgreesWithRoom`). A key
  pressed at a poll at a multiple of 3000 ticks is such a case
  (`ReplayWitness.PressAtMsec`).
- A control word leaves the old delay in force until the count is loaded, so a BCD
  latch in modes 0 and 4 can leave four digits (`PitCounter.LatchFitsBcd`,
  `PitCounter.LatchLosesDigits`); a gate pause lowers the count of counter 2 but not
  its delay, so the count can wrap (`PitCounter.CountNeverRises`,
  `PitCounter.PausedCountRises`).
- `dp_timetrack_remove_event` walks on into the free list after a match and removes
  the first match only (`TimetrackPool.Timetrack.RemoveMatching`).
- Interrupt entry sets TF; IRET restores it (`InterruptModel.IretRestores`).

## Model

| member | source | states |
|---|---|---|
| RecordReplay.RecordThenReplay | core/events.c:24-130 | for any guest program and any session, split anywhere: replaying the recorded file is in step with the session at every instruction if and only if every tick agrees (ReplayFeed.TickReplayed), and then has the same guest, devices, clock, pending events and log |
| RecordReplay.SessionsAgree | core/dospack.c:45-95 | the same for a file that starts with what the inputs record and goes on with anything later; the rest of the file stays to be replayed |
| RecordReplay.LastIsEnough | core/timetrack.c:125-142 | every tick agrees in any session whose inputs come at ticks at which no other event due is queued behind the replay event, whatever else is due |
| ReplayFeed.TickReplayed | core/events.c:63-96 | one tick with any events due in any order: the replay injects exactly the recorded inputs, and leaves the machine the user left if and only if the first input and the events behind the replay event commute |
| ReplayFeed.AgreesIff | core/keyboard.c:1147-1158 | that test spelled out, however full the ring is: no periodic event behind the replay event counts down for a key just pressed and not touched again in the tick, the ring takes the same bytes (ReplayRing.RingAgreesIff), and no timer event ahead of the first byte has its next firing tie with the transfer |
| ReplayFeed.AgreesWithRoom | core/keyboard.c:1147-1158 | with room in the ring for the tick's bytes, the part of the ring is that the periodic event behind the replay event repeats no key |
| ReplayFeed.AgreesWhen | core/events.c:24-59 | ticks with nothing due behind the replay event agree, and so do ticks whose first input brings no bytes |
| ReplayFeed.OthersFirst | core/events.c:63-96 | with nothing due behind it, the replay event injects after all other events of the tick, as the user did |
| ReplayTick.TickExact | core/timetrack.c:87-110 | running the events due and then the inputs equals injecting the first input, then the events, then the rest, if and only if typematic state, bytes that find room, and timer tie agree |
| ReplayRing.RingAgreesIff | core/keyboard.c:605-621 | the bytes that find room are the same in both orders: without a repeat, if and only if no transfer is due, or the first input fits, or the byte coming in behind the transfer is the first one it lost; with a repeat, if and only if as many bytes as find room are the same in the two byte strings, written out by the order of transfer and periodic event |
| ReplayRing.RepeatFills | core/keyboard.c:605-621 | with a repeat and room for five bytes, that is: the first input is an ordinary key, and the inputs fill the ring with the held key's own bytes over and over |
| ReplayRing.RingWithRoom | core/keyboard.c:605-621 | with room for all bytes the ring differs exactly when the periodic event repeats a key at this tick |
| ReplayRing.RingAgreesQuiet | core/keyboard.c:605-621 | with no transfer and no repeat due the same bytes find room in both orders, however full the ring is |
| ReplayWitness.PressAtMsec | core/keyboard.c:1147-1158 | from power-on with an idle guest, key A pressed at the poll of tick 3000 n, for every n from 2 on (polls for input are more than 30000 ticks apart, so the program meets those from 11 on): the session ends with 500 milliseconds to the first repeat, the replay of its file with 499 |
| RecordReplay.IdleSessions | core/dospack.c:45-95 | the sessions the theorem speaks of exist, with any inputs and of any length: an idle guest can live all of them |
| ReplaySame.ReplayInjects | core/events.c:63-96 | with nothing else due, one due check of the replaying machine injects exactly the inputs the user gave at that tick, whatever their number |
| ReplaySame.RunEventsSame | core/timetrack.c:87-110 | a due check with no record due does the same to a live and to a replaying machine |
| ReplaySame.DoSame | core/cpu_decode.c:3569-3583 | no port access can tell whether a replay is under way |
| Machine.ReplayIsExact | core/events.c:63-118 | over any run of instructions, port accesses and due checks the log grows by exactly the kept records of the file whose tick has been run, each once, in file order, logged at the tick the file gives; for a file in time order the kept records are all that are not before the start |
| Machine.RunKeeps | core/cpu_decode.c:3568-3583 | over any run the machine's invariant holds, nothing is lost or invented by replay, the log is behind the clock and the queue ahead of it |
| Machine.FireKeeps | core/timetrack.c:93-109 | every callback keeps the invariant of the whole machine and makes progress, the record file first, then the events due |
| Machine.FireReplay | core/events.c:63-71 | the replay event fires at exactly the time of the record it carries and logs that record |
| Machine.ReplayOneArms | core/events.c:73-96 | reading on arms the next record that is not past and leaves exactly the kept records |
| Machine.DoKeeps | core/keyboard.c:623-757 | every port access of keyboard, timer and PIC keeps the machine's invariant, the clock and the replay |
| Machine.FourEvents | core/timetrack.c:118 | at most four events are queued at once, so the free-slot assertion cannot fail |
| Machine.Dospack.constructor | core/dospack.c:198-246 | the devices as initialized, with the timer's first event and then the keyboard's queued, satisfy the machine's invariant |
| Machine.Dospack.RunDueEvents | core/timetrack.c:87-110 | the loop over callbacks on the real slots ends and computes RunEvents, behind which nothing is due |
| Machine.RunEventsKeeps | core/timetrack.c:87-110 | behind a run of due events nothing is due, the clock stands still and replay has lost nothing |
| Machine.Dospack.RunOneEvent | core/timetrack.c:96-108 | unlink, callback that may add events, free the slot: one firing of the specification |
| Machine.Dospack.StartInstruction | core/cpu_decode.c:3569-3583 | the cheap interrupt test, the due check and the charged tick, as the specification has them |
| MachineOrder.MachineFiresInOrder | core/timetrack.c:87-143 | number the scheduler calls that initialization, callbacks and port handlers make, listed beside each routine, in the order they make them: over any run from power-on these very calls leave the machine's queue and fire the machine's events, and the events are in order of time and, at equal times, in the order of the calls that scheduled them, ahead of everything still queued |
| SchedulerOrder.FiringOrder | core/timetrack.c:87-143 | the same over any run of scheduling, cancelling, running and passing time, ahead of everything still queued |
| Scheduler.InsertIsStable | core/timetrack.c:125-142 | an insertion goes behind every event due no later and before every later one |
| Scheduler.CountRemove | core/timetrack.c:145-173 | a removal takes exactly one event of the callback if there is one and touches no other |
| TimetrackPool.PoolRoom | core/timetrack.c:118 | the free list is empty only when all 512 slots are scheduled or running: no slot is ever lost |
| TimetrackPool.Timetrack.constructor | core/timetrack.c:29-52 | the 512 slots chained into the free list |
| TimetrackPool.Timetrack.AddEvent | core/timetrack.c:112-143 | the list surgery keeps the pool partitioned into acyclic lists and inserts in time order, also inside a callback |
| TimetrackPool.Timetrack.RemoveMatching | core/timetrack.c:145-203 | one loop, continued into the free list after a match, ends and removes exactly the first match |
| TimetrackPool.Timetrack.RemoveEvent | core/timetrack.c:145-173 | the first event of the callback leaves the queue, its slot goes to the free list |
| TimetrackPool.Timetrack.RemoveEventData | core/timetrack.c:175-203 | the same for callback and argument |
| TimetrackPool.Timetrack.IsDue | core/timetrack.h:73-78 | the due check answers whether the first event is due |
| TimetrackPool.Timetrack.BeginEvent | core/timetrack.c:91-101 | the due slot is in neither list while its callback runs |
| TimetrackPool.Timetrack.FinishEvent | core/timetrack.c:103-108 | the slot is freed behind the callback, the queue is untouched |
| TimetrackPool.Timetrack.ChargeTicks | core/timetrack.h:80-95 | the clock advances as a u64 |
| KeyboardModel.DeliveredOnceInOrder | core/keyboard.c:576-633 | over any run without a clear, the bytes accepted are those read, the unread one and those in the ring, in order; a waiting ring always has a transfer pending or an unread byte, never both overwritten |
| KeyboardModel.TransferKeeps | core/keyboard.c:576-595 | a transfer event finds a byte to move and no unread byte it could overwrite |
| KeyboardModel.WriteP60Keeps | core/keyboard.c:635-703 | a command or data byte keeps exactly one transfer event queued while `scheduled` is set |
| KeyboardModel.AddKeyKeeps | core/keyboard.c:767-1145 | a key press or release of up to three bytes keeps the same |
| KeyboardModel.RepeatKeyKeeps | core/keyboard.c:1147-1158 | the typematic countdown keeps the same |
| KeyboardModel.Keyboard.TransferByte | core/keyboard.c:583-595 | the oldest byte moves from the array to the port and IRQ 1 is raised |
| KeyboardModel.Keyboard.Clear | core/keyboard.c:597-603 | ring emptied and transfer cancelled |
| KeyboardModel.Keyboard.AddByte | core/keyboard.c:605-621 | a byte is appended around the end of the array, dropped when full, and a transfer started if none is pending and the port is read |
| KeyboardModel.Keyboard.ReadPort60 | core/keyboard.c:623-633 | the port's byte, and a transfer for the next one |
| KeyboardModel.Keyboard.WritePort60 | core/keyboard.c:635-703 | the command state machine |
| KeyboardModel.Keyboard.WritePort64 | core/keyboard.c:729-757 | controller commands; enabling restarts a waiting ring |
| KeyboardModel.Keyboard.AddKeyCode | core/keyboard.c:767-1145 | the bytes of a key and its typematic state, given its scan code |
| KeyboardModel.Keyboard.EveryMillisecond | core/keyboard.c:1147-1158 | the periodic event repeats a held key and queues itself again |
| HwTimerModel.WriteLatchKeeps | core/hwtimer.c:174-243 | timer 0 never has two events, none while it waits for a count, and every delay stays at least 2, over counter writes |
| HwTimerModel.WriteP43Keeps | core/hwtimer.c:291-375 | the same over control words and read-back commands |
| HwTimerModel.PitEventKeeps | core/hwtimer.c:22-38 | the same over the timer event, which re-arms itself once |
| HwTimerModel.SetGate2Keeps | core/hwtimer.c:377-413 | the same over the gate of counter 2 |
| HwTimerModel.TwoBytesLoad | core/hwtimer.c:174-243 | a low and a high byte load exactly the written number, binary or BCD, zero standing for the maximum |
| PitCounter.CountNeverRises | core/hwtimer.c:119-142 | after any run of port accesses, gate changes and timer events from power-on, the latched count of a loaded mode 0 or 4 counter lies between 0 and its start and never rises up to terminal count, if and only if gate pauses have taken at most one unit off the number loaded; counters 0 and 1 have no gate |
| PitCounter.NeverRisesIff | core/hwtimer.c:119-142 | for any such counter, loaded or not: if and only if its delay does not outlast its count |
| PitCounter.UnpausedNeverRises | core/hwtimer.c:377-413 | from a load on, with no gate pause and no control word, the count never rises |
| PitCounter.PausedCountRises | core/hwtimer.c:384-391 | counter 2 loaded with 10000 and paused from tick 20000 to 30000 latches 63605 at tick 40000 |
| HwTimerModel.ReadKeepsLatch | core/hwtimer.c:245-287 | the BCD conversions around a read are lossless if and only if the latch has at most four digits |
| PitCounter.LatchFitsBcd | core/hwtimer.c:108-172 | after any run from power-on with decimal bytes, latching and reading counter 0 or 1 in BCD loses nothing if and only if, by mode, the old delay of a control word still waiting for its load has not run below zero by less than 55537 (0, 4), the kept latch has four digits (1), always (2, 3), never (5) |
| PitCounter.LatchLosesDigits | core/hwtimer.c:301-352 | counter 0 given control word 0x31 at power-on and latched at tick 100000 holds 35763 and reads as 5763 |
| HwTimerModel.ReadsBackLatched | core/hwtimer.c:245-287 | two reads give back the latched value |
| HwTimerModel.HwTimer.FirePitEvent | core/hwtimer.c:22-38 | IRQ 0, the new period, and the next event |
| HwTimerModel.HwTimer.LatchCounter | core/hwtimer.c:108-172 | the latched count by mode |
| PitStatus.LatchedStatusIsRead | core/hwtimer.c:74-106 | after any run from power-on with no status held: a latched status survives every access but a read of its counter or a control word for it, that read returns the status of the latch's moment, and frees the lock |
| PitStatus.StatusDecodes | core/hwtimer.c:80-100 | the bits of the status byte: BCD, mode, access mode, count not yet loaded, output line |
| HwTimerModel.HwTimer.WritePort | core/hwtimer.c:174-243 | the write state machine, the load and the events of timer 0 |
| HwTimerModel.HwTimer.ReadPort | core/hwtimer.c:245-289 | the read state machine over the latched value |
| HwTimerModel.HwTimer.WriteControl | core/hwtimer.c:291-375 | latch, control and read-back commands |
| HwTimerModel.HwTimer.SetGate | core/hwtimer.c:377-413 | the gate of counter 2 by mode |
| PicModel.NestingIsAStack | core/pic.c:48-76 | over any run without special mask mode the IRQs in service behave as a stack and `active` is its top or none |
| PicModel.EffectsRespectPriority | core/pic.c:222-244 | a newly started IRQ outranks all others in service; an end-of-interrupt that takes effect ends the top one |
| PicModel.RunIrqsStartsBest | core/pic.c:352-387 | normal mode starts the best-priority set bit above `active`, or changes nothing |
| PicModel.EmptyMaskSkips | core/cpu_decode.c:3570-3572 | the decode loop's test of the cached mask skips nothing |
| PicModel.CheapTestIsExact | core/pic.c:329-350 | the mask is nonzero exactly when an IRQ is active, unmasked and not held back by the cascade |
| PicModel.PicDevice.ActivateIrq | core/pic.c:329-342 | raising a line keeps the cached mask in agreement |
| PicModel.PicDevice.DeactivateIrq | core/pic.c:344-350 | lowering a line keeps it |
| PicModel.PicDevice.SetIrqMask | core/pic.c:389-423 | masking a line keeps it, also when the cascade line changes |
| PicModel.PicDevice.WriteDataPort | core/pic.c:90-164 | mask register and initialization words keep it |
| PicModel.PicDevice.WriteCommandPort | core/pic.c:11-88 | initialization, mask mode and end-of-interrupt commands |
| PicModel.PicDevice.StartIrq | core/pic.c:222-244 | an IRQ starts exactly when the cascade allows it, and hands its vector to the processor |
| PicModel.PicDevice.RunIrqsNow | core/pic.c:352-387 | the scan in priority order delivers the vector of the IRQ it starts |
| EventsModel.SortedFileIsKept | core/events.c:73-96 | from a file in time order every record that is not past is replayed |
| EventsModel.AdvanceKeeps | core/events.c:78-95 | skipping past records loses none that will be replayed |
| EventsModel.UserEvents.Inject | core/events.c:24-59 | log, index, key state and keyboard of an injected event |
| EventsModel.UserEvents.ReplayOneEvent | core/events.c:73-96 | the reading loop ends and schedules the next record for exactly its time |
| EventsModel.UserEvents.StartReplayOf | core/events.c:111-118 | the file is opened and its first record armed |
| McbModel.Dosblock.constructor | core/dosblock.c:905-912 | the initial headers tile the DOS paragraphs up to the last one |
| McbModel.Dosblock.CompactMcbs | core/dosblock.c:645-665 | merging in place keeps the tiling, computes Compact, and writes headers only |
| McbModel.Dosblock.LargestBlock | core/dosblock.c:667-691 | the walk finds the largest free block |
| McbModel.LargestIsMax | core/dosblock.c:667-691 | that is the size of a free block, and no free block is larger |
| McbModel.Dosblock.Allocate | core/dosblock.c:693-739 | compaction, first fit and split in place; the chain still tiles, and only headers are written |
| McbModel.AllocateFailsIff | core/dosblock.c:693-739 | 0 is returned exactly when no run of adjacent free blocks, headers reclaimed, holds the request |
| McbModel.AllocateGives | core/dosblock.c:705-727 | otherwise exactly the paragraphs asked for, in the lowest run that holds them, with an owner |
| McbModel.CappedRequestSucceedsIff | core/dosblock.c:1157-1168 | a request capped by the largest block seen before compaction succeeds exactly when some block is free |
| McbModel.Dosblock.Resize | core/dosblock.c:741-815 | every resize of an allocated block keeps the tiling and writes headers only, except growth by exactly the free neighbour, behind which no list of blocks fits the memory |
| McbModel.ResizeGives | core/dosblock.c:741-815 | success gives exactly the requested size and one free remainder; failure leaves the compacted chain and reports the block plus its free neighbour |
| McbModel.ExactGrowBreaks | core/dosblock.c:795-812 | the wrapped size written in the excluded case breaks every chain |
| McbModel.FirstExactGrow | core/dosblock.c:795-812 | the excluded case is met by a first call: the initial block of 16 paragraphs grown by all of the free memory |
| McbModel.CompactLive | core/dosblock.c:654-664 | compaction moves no allocated block and changes none |
| McbModel.CompactedHasNoPairs | core/dosblock.c:654-664 | behind it no two free blocks are neighbours |
| McbModel.RunKeepsTiling | core/dosblock.c:645-815 | over any run of calls the chain covers the same paragraphs, no size leaves 16 bits, and an allocated block no resize names stays what and where it is |
| McbModel.ContentsKept | core/dosblock.c:645-815 | a paragraph inside a block that is allocated before and after a call is not written |
| McbModel.RunKeepsContents | core/dosblock.c:645-815 | over any run of calls none of them writes to the memory of an allocated block that no resize names |
| LazyFlags.LazyIsEager | core/cpu_decode.c:203-1064 | over any list of ALU, shift and register rotate instructions the lazily read conditions and the registers equal those of a processor that fills its flags behind every instruction; OF differs exactly behind a right shift by one of the sign bit |
| LazyFlags.FillTransparent | core/cpu_decode.c:1400-1860 | filling the register before an instruction changes neither its result nor the flags behind it |
| LazyFlags.FillAgrees | core/cpu_decode.c:203-1064 | each getter equals the bit FillFlags writes, OF if and only if the excluded case is not at hand |
| LazyFlags.SignBitShiftDiffers | core/cpu_decode.c:580-595 | the excluded case occurs at every width |
| LazyFlags.AdcMeans | core/cpu_decode.c:221-226 | carry and overflow of ADC are the carry out and the signed overflow of the sum |
| LazyFlags.SbbMeans | core/cpu_decode.c:227-232 | carry and overflow of SBB are the borrow and the signed overflow of the difference |
| LazyFlags.PlainOpsMean | core/cpu_decode.c:531-551 | the same for ADD and SUB |
| LazyFlags.StepsMean | core/cpu_decode.c:552-563 | INC and DEC overflow exactly when the result does not fit, and keep the carry as it could be read before |
| LazyFlags.NegMeans | core/cpu_decode.c:564-569 | NEG overflows exactly when the result does not fit, and carries unless its operand is 0 |
| LazyFlags.SumMeaning | core/cpu_decode.c:531-542 | the sum formulas are arithmetic for operands of any width |
| LazyFlags.DifferenceMeaning | core/cpu_decode.c:543-551 | so are the difference formulas |
| LazyFlags.JumpsDecideOrder | core/cpu_decode.c:156-171 | behind CMP the conditions B, BE, Z, L and LE decide the unsigned and the signed order |
| LazyFlags.Decoder.FillFlags | core/cpu_decode.c:680-1064 | the register is filled in place as Fill says |
| LazyFlags.Decoder.FillFlagsNoCFOF | core/cpu_decode.c:1066-1354 | all but CF and OF are filled |
| LazyFlags.Decoder.Arithmetic | core/cpu_decode.c:1400-1564 | operands, result and kind an arithmetic or logic macro leaves behind, and the value it saves |
| LazyFlags.Decoder.Single | core/cpu_decode.c:1566-1600 | the same for INC and DEC, which load CF first, and NEG |
| LazyFlags.Decoder.ShiftBy | core/cpu_decode.c:1782-1860 | the same for shifts, with the capped counts of SAR |
| LazyFlags.Decoder.RotateBy | core/cpu_decode.c:1602-1694 | rotates set CF and OF in the register and nothing lazily |
| LazyFlags.Decoder.RotateThroughCarry | core/cpu_decode.c:1696-1780 | rotates through the carry |
| InterruptModel.NestRestores | core/cpu.c:593-730 | for any nesting of interrupts that fits the stack and leaves saved frames alone, each IRET restores CS:IP, SP, every loaded flag as it was visible, and the direction; frames further up keep their bytes |
| InterruptModel.IretRestores | core/cpu.c:593-616 | IRET takes back what entry saved |
| InterruptModel.FramePushed | core/cpu.c:702-730 | entry saves flags, CS and IP and writes no other byte, whether SP is odd or wraps |
| InterruptModel.WordsDisjoint | core/cpu.c:780-798 | stack words at different depths share no byte, wherever SP wraps |
| InterruptModel.Processor.Push16 | core/cpu.c:793-798 | a push below SP, modulo 64 KB, the high half of ESP kept |
| InterruptModel.Processor.Pop16 | core/cpu.c:780-785 | a pop from SP |
| InterruptModel.Processor.SetFlagBits | core/cpu.c:36-41 | masked flags with bit 1 set, and the string direction from DF |
| InterruptModel.Processor.Interrupt | core/cpu.c:702-730 | filled flags, frame, IF cleared, TF set, the vector's CS:IP |
| InterruptModel.Processor.Return | core/cpu.c:593-616 | IP, CS and flags from the stack |
| StringOps.StringUnit.DoString | core/cpu_decode.c:3312-3530 | a repeated MOVS, STOS, LODS, SCAS or CMPS gives the memory, registers and flags of single steps counted down to the end or to the first stopping comparison, in either direction, with index wrap and overlapping ranges |
| StringOps.HighHalvesKept | core/cpu_decode.c:3520-3529 | under 16-bit addressing the high halves of counter and indexes survive |
| StringOps.CompareStep | core/cpu_decode.c:3429-3517 | a turn of a comparing loop is the counted instruction, and its test is the stop condition on the flags |
| BiosKeys.RingIsFifo | core/keyboard.c:37-141 | over any run of calls the ring in guest memory is a queue of 15 keys, and nothing outside it and its two ends is written |
| BiosKeys.AddKeyQueues | core/keyboard.c:117-141 | a key goes behind the others unless 15 wait or input is paused |
| BiosKeys.GetKeyTakesFirst | core/keyboard.c:37-55 | the oldest key comes off and the others keep their order |
| BiosKeys.Bios.InitRing | core/keyboard.c:1176-1179 | the ring starts empty |
| BiosKeys.Bios.AddKeyToBuffer | core/keyboard.c:117-141 | the words of the ring as AddKey says |
| BiosKeys.Bios.TakeKey | core/keyboard.c:37-55 | the oldest key, or none |
| BiosKeys.Bios.CheckKey | core/keyboard.c:57-69 | the oldest key without taking it |
| BiosKeys.Bios.GetKeystroke | core/keyboard.c:78-84 | AH = 0: the oldest key translated, or 0 |
| BiosKeys.Bios.CheckKeystroke | core/keyboard.c:90-107 | AH = 1: the loop ends, drops exactly the leading enhanced keys and leaves the first normal one queued |
| BiosKeys.Bios.CheckForKey | core/keyboard.c:86-109 | AH = 1 with the caller's saved flags, wherever they lie: IF set, the leading enhanced keys dropped, ZF set exactly when no key is shown |

## Left out

- Machine.ReplayIsExact: user input during a replay is not part of its runs; `RecordReplay` models sessions with input and sessions with replay.
- KeyboardModel.Keyboard.AddKeyCode: the table from keys to scan codes is left out, a key is its scan code; port 0x61 and the output-port command, which the program aborts on, are left out too.
- HwTimerModel.HwTimer.LatchCounter: modes 2 and 3 divide exactly where the code rounds doubles.
- TimetrackPool.Timetrack.ChargeTicks: the periodic state dump is left out; so is the hook of the game that charges more than one tick at once.
- BiosKeys.Bios.CheckForKey: a flags word laid over the ring's bounds or ends so that the first store breaks the ring is left out.
- PitCounter.LatchFitsBcd: bytes that are not decimal digits, written to a BCD counter, are left out.
- InterruptModel.Enter: 32-bit operands, protected mode and PUSHF, which pushes before it fills the flags, are left out; the condition flags still to be worked out are one value, whose making `LazyFlags` models.
- StringOps.Single: INS and OUTS are left out, as they go through I/O ports; an address outside guest memory reads 0 instead of being undefined.
- McbModel.Step: freeing a process is left out, nothing calls it and its walk does not advance; so is the block the dummy shell sets by hand.
- PicModel.Nested: special mask mode, which can start a lower-priority IRQ, and the rotate modes, which the program aborts on, are excluded.
- LazyFlags.Effect: memory operands, DSHL and DSHR, MUL and DIV flags, SAHF, BSF and BSR are left out.
- The opcode switch, ModRM decoding and the disassembler: tables with little to prove; a guest program is any function from what it sees to port accesses.
- Host clock, sleeping, video, user interface, logging and file access: the replay file is the sequence of records not yet read, the record file the sequence written.
- Saving and loading machine state: raw struct bytes.
