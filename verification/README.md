# Verified models of the embedded device platform

A Dafny 4.11 project that models the platform's hard parts and proves what they are for.
`dafny verify dfyconfig.toml` checks everything.

## What is modelled

**devbus, the shared-memory bus** (`Ledger`, `Channel*`, `Bus*`, `PublisherCore`, `Layout`).
One publisher hands chunk indices to N subscribers. `Channel` is one subscriber slot as a
step relation: every step is one atomic access to shared memory, with the private
computation that follows it. `Bus` puts the slots, the publisher's private books and the
publisher's own control flow together; a run is any interleaving of the publisher's steps
with the subscribers' actions, and a process that crashes just stops taking steps, wherever
it was. `BusInv` proves one invariant for every step, `BusRuns` states what it means in
every reachable state, `BusWitness` exhibits a run in which a sample arrives. `ChannelAlone`
says what whole calls do when nobody else touches the slot meanwhile: they are operations of
a bounded queue with the subscriber's policy.
`PublisherCore` is the bookkeeping half of the publisher as it is written, over a flat table
and loops, proved to compute the `Ledger` functions. `Layout` ties the layout computation to
the configurations the runs are proved for.

**MCU firmware and kernel driver** (`Firmware`, `FirmwareIsr`, `RegisterFile`, `FifoRace`,
`Registers`, `Drain`, `Pairing`, `SampleQueue`, `EndToEnd`). `Firmware` is every interrupt handler as a function of
the MCU's state, `FirmwareIsr` the same handlers over fields and fixed buffers, and
`RegisterFile` what every register reads after any history of events. `FifoRace`
lets SPI frames preempt the timer handler between any two of its statements. `Registers` is
the two-frame register protocol with any number of clients behind the driver's mutex and
arbitrary frame failures; `Drain` adds the DATA_READY edge and the drain loop, `Pairing` the
history of samples, `SampleQueue` the driver's kfifo and drop policies. `EndToEnd` follows a
sample from the timer to the reader.

**Supervisor** (`DeviceState`, `Supervisor`). The transition table and the event loop with
its recovery and calibration procedures. Everything outside its control (device failures,
worker death, samples flowing, what other threads post meanwhile) is answered by arbitrary
oracles.

**SHA-256/HMAC** (`Sha256`, with the origin of its constants in `Sha256Constants` and the
worked example in `Sha256Example`), **clock fit** (`Calibrator`, over the reals) and
**record/replay** (`Recording`). `Arithmetic` and `Subsequence` hold what several share.

## Results that contradict the source's comments or expectations

- The timer handler compares the FIFO indices and then drives DATA_READY; a frame may be
  handled in between. `FifoRace.LineCanStickHigh` reaches an empty FIFO with the line stuck
  high. `FifoRace.LineIsRightIff` says exactly when the line is right, and
  `FifoRace.StuckHighIsSilent` what follows: no edge ever again, and all but 31 of the
  samples taken from then on are dropped.
- `Drain.MisledPassIsStuck`: a drain pass whose level command the MCU never heard can read
  an older zero level with the right echo and end with samples left and no edge to come.
  `Drain.StuckExactlyWhen` says exactly when acquisition is stuck: some pass ended like this
  or by giving up, with no edge latched, and the FIFO has not been empty since.
- Downsampling is meant to keep exactly one in every `downsample_n` samples
  (driver/custom-acq/custom_acq.c:122-128). The 32-bit counter wraps, and
  `SampleQueue.WrapKeepsTwo` keeps two in a row there with `downsample_n` = 3. `OneInEveryNIff`
  says for which windows the promise holds, `OneInEveryNAlwaysIff` that it holds everywhere
  exactly if `downsample_n` divides 2^32.
- `oldest` evictions are counted in `policy_dropped`, not in `kfifo_overflow` as the comment
  at driver/custom-acq/custom_acq.c:130-134 says. The model follows the code.
- On a silent line a register read succeeds for address 0 and for no other
  (`Registers.DeadBusReads`).
- The calibrator stays attached outside Calibrating exactly when the last calibration that
  tried to start the device failed there (`Supervisor.Supervisor.RunCalibration`).
- The power-of-two search of the layout ends exactly for arguments up to 2^31
  (`Layout.NextPow2EndsIff`).

## Assumptions

- devbus: sequentially consistent interleaving and unbounded futex words. Time-outs and
  spurious wake-ups may happen at any time. Draining a done ring and reclaiming a slot are
  single steps, since nobody else writes what they touch meanwhile. A full Block queue may
  time out at any moment, which covers the check of the slot state there. The active list is
  rebuilt at the end of every scan; the code skips that when nothing changed. A live
  claimer writes its pid within the one second the publisher waits. No 32-bit product in the
  layout overflows.
- `FifoRace`: START comes only between samples, as after the supervisor's stop-then-start.
  `Registers`, `Drain`, `Pairing`: interrupt handlers run to their end, and edges during a
  pass are latched. `Pairing`: nobody else reads DATA_VAL or starts acquisition.
- `SampleQueue`: `downsample_n` is at least 1 when the code divides by it.
- `Supervisor`: at most 31 recovery attempts (the backoff is a 32-bit shift); events posted
  from outside are never Recovered, RecoveryFailed or CalibrationDone.

## Model

| member | source | states |
|---|---|---|
| `BusInv.RunKeepsInv` | userspace/devbus/src/core.cpp:125-639 | in every state of every interleaving the whole bus invariant holds |
| `BusInv.StepKeepsInv` | userspace/devbus/src/core.cpp:180-590 | every step of publisher or subscriber, from any state with the invariant, keeps it |
| `BusInv.InitInv` | userspace/devbus/src/core.cpp:104-122 | a freshly created service satisfies the invariant |
| `BusInv.LoanNeverRunsOut` | userspace/devbus/src/core.cpp:318-341 | once the done rings of all onboarded subscribers are drained below max_loans, a chunk is free |
| `BusInv.BlockServedLast` | userspace/devbus/src/core.cpp:269-278 | in the list a send delivers by, no Block subscriber comes before one that cannot hold the publisher up, and each kind comes by slot number |
| `BusInv.ActiveListIsOk` | userspace/devbus/src/core.cpp:269-278 | the rebuilt list names every onboarded slot exactly once |
| `BusRuns.ChunksConserved` | userspace/devbus/src/core.cpp:176-239 | each chunk is in exactly one place, refcount is the sum over slots, each outstanding entry is 0 or 1, zero for slots not onboarded, and equals what the slot really has (queued, held, or in its done ring) up to the count still to be raised |
| `BusRuns.VisibleSampleIsAsSent` | userspace/devbus/src/core.cpp:441-452 | a chunk queued for or held by a subscriber is neither free nor loaned, and its header and payload are as sent |
| `BusRuns.VisibleSampleIsLeftAlone` | userspace/devbus/src/core.cpp:348-460 | no step of anyone writes a chunk a subscriber can see |
| `BusRuns.RingRaceIsWon` | userspace/devbus/src/core.cpp:548-563 | despite the race of pop and eviction and reuse of ring words, every position is taken once, in order, with the index published there, and the subscriber got exactly the samples it won |
| `BusRuns.SubscriberNeverSleepsThroughData` | userspace/devbus/src/core.cpp:612-636 | a subscriber asleep with data queued has an alarm or a wake pending, and none is asleep once the leaving publisher has woken its slot |
| `BusRuns.AlarmIsCarriedThrough` | userspace/devbus/src/core.cpp:420-437 | in every reachable state with such a sleeper, each deliver action on its slot brings the wake one nearer and the last ends the sleep |
| `BusRuns.PublisherNeverSleepsThroughRoom` | userspace/devbus/src/core.cpp:399-411 | a Block publisher asleep with room, or for a subscriber that left, has the one responsible between its pop (or its Closing, of this very tenancy) and the wake, or a waker for a newer word |
| `BusRuns.PopperCannotPassBy` | userspace/devbus/src/core.cpp:560-570 | in every such state each further action of the popping subscriber brings the wake one nearer and the last ends the sleep |
| `BusRuns.LeaverCannotPassBy` | userspace/devbus/src/core.cpp:522-531 | the leaver's bump makes its wake due for the sleeper's word, and its wake ends the sleep |
| `BusRuns.EvictionReleases` | userspace/devbus/src/core.cpp:366-377 | in every reachable state an eviction that wins takes back this slot's one reference to the victim, frees it at the last, and touches no other slot |
| `BusRuns.LoanNeverFails` | userspace/devbus/src/core.cpp:318-341 | in every reachable state no loan has ever failed, crashed subscribers included |
| `BusRuns.DoneRingNeverFull` | userspace/devbus/src/core.cpp:584-590 | a release never overwrites an undrained done-ring entry although it never checks |
| `BusRuns.SendsAccounted` | userspace/devbus/src/core.cpp:361-389 | sends since onboarding = received + queued + dropped_oldest + dropped_newest + block_timeouts |
| `BusRuns.LossesFollowPolicy` | userspace/devbus/src/core.cpp:357-412 | in every reachable state a DropOldest slot never turned a send away, no other evicted anything, each loss is in its policy's own counter, and the publisher evicts only from DropOldest and waits only for Block slots |
| `BusRuns.PolicyIsChosen` | userspace/devbus/src/core.cpp:512-520 | nothing but its subscriber's activation sets a slot's policy |
| `BusRuns.PayloadIsFilled` | userspace/devbus/src/core.cpp:441-452 | a chunk's payload is what was last filled in, its number that of its send, and the send takes both along |
| `BusRuns.LoansMove` | userspace/devbus/src/core.cpp:318-346 | chunks are lent by a loan only, each time one that was free, and returned by a cancel or a send only |
| `BusRuns.FlagsAreExact` | userspace/devbus/src/core.cpp:399-412 | sleeping and publisher_waiting are up exactly while their owner is on its way to, in, or out of its sleep |
| `BusRuns.GapsCounted` | userspace/devbus/src/core.cpp:573-578 | received numbers rise strictly and observed_gaps is the number of sends lost between the first and the last |
| `BusRuns.TakingBackIsExact` | userspace/devbus/src/core.cpp:207-239 | reclaiming a slot clears its row, touches no other, and frees exactly the chunks it held last |
| `BusRuns.DeadAreReaped` | userspace/devbus/src/core.cpp:280-316 | a liveness check, on its own or after a send, takes back every slot whose subscriber had left, or died after writing its pid, when it began |
| `BusWitness.ServiceStarts` | userspace/devbus/src/core.cpp:36-123 | every acceptable configuration has a reachable initial state |
| `BusWitness.ASampleArrives` | userspace/devbus/src/core.cpp:441-582 | some reachable state has a subscriber holding the first sample sent |
| `ChannelRing.SubKeepsRing` | userspace/devbus/src/core.cpp:548-582 | every subscriber action keeps the ring, its history and what both sides' stale loads still mean |
| `ChannelRing.PubKeepsRing` | userspace/devbus/src/core.cpp:348-427 | every deliver action, eviction included, keeps the same |
| `ChannelWake.SubKeepsWake` | userspace/devbus/src/core.cpp:592-636 | every subscriber action keeps the data handshake |
| `ChannelWake.PubKeepsWake` | userspace/devbus/src/core.cpp:419-437 | every deliver action keeps the data handshake |
| `ChannelWake.SubKeepsBlock` | userspace/devbus/src/core.cpp:522-570 | every subscriber action keeps the space handshake |
| `ChannelWake.PubKeepsBlock` | userspace/devbus/src/core.cpp:378-412 | every deliver action keeps the space handshake |
| `ChannelCustody.SubKeepsCustody` | userspace/devbus/src/core.cpp:548-590 | popping and releasing only move a chunk between queue, hand and done ring |
| `ChannelCustody.PubConserves` | userspace/devbus/src/core.cpp:357-431 | delivering and evicting change queue and books by the same chunk |
| `ChannelCustody.DoneRingHasRoom` | userspace/devbus/include/devbus/detail/layout.hpp:152-161 | with a sample in hand, fewer chunks than the done ring's capacity are undrained |
| `ChannelCount.EverySendAccounted` | userspace/devbus/src/core.cpp:361-431 | the per-slot accounting equation |
| `ChannelCount.GapsAreLosses` | userspace/devbus/src/core.cpp:573-578 | the gap counter equals the size of the set of evicted or refused numbers in the span |
| `ChannelCount.PubKeepsPolicy` | userspace/devbus/src/core.cpp:357-431 | every deliver action keeps each policy to its own kind of loss |
| `ChannelAlone.DeliverAlone` | userspace/devbus/src/core.cpp:348-439 | however it spins, sleeps or retries, an undisturbed deliver() is one send to a bounded queue: full, DropOldest loses the oldest, the others the new one, and the right counter rises |
| `ChannelAlone.DeliverEnds` | userspace/devbus/src/core.cpp:348-439 | and out of patience it returns in at most nine actions |
| `ChannelAlone.ReceiveAlone` | userspace/devbus/src/core.cpp:548-582 | an undisturbed receive takes the oldest sample, or nothing from an empty queue |
| `ChannelAlone.WaitAlone` | userspace/devbus/src/core.cpp:612-636 | an undisturbed wait goes to sleep, announced, exactly if nothing is queued and the publisher is there |
| `ChannelAlone.HoldSleeps` | userspace/devbus/src/core.cpp:378-412 | an undisturbed patient delivery to a full Block queue falls asleep on the word it loaded, unless the subscriber has left |
| `Ledger.ReleaseRefKeepsBooks` | userspace/devbus/src/core.cpp:180-192 | any index from a done ring, garbage included, keeps the books; no underflow, no double free |
| `Ledger.ReleaseAllKeepsBooks` | userspace/devbus/src/core.cpp:194-205 | draining arbitrary done-ring contents keeps the books and touches one row only |
| `Ledger.ReclaimIsExact` | userspace/devbus/src/core.cpp:207-221 | for arbitrary done-ring contents, exactly the last-held chunks become free, others are untouched |
| `Ledger.BudgetLeavesFreeChunk` | userspace/devbus/include/devbus/detail/layout.hpp:152-161 | if every row is within the per-slot bound and fewer than max_loans are out, the free stack is not empty |
| `PublisherCore.Publisher.constructor` | userspace/devbus/src/core.cpp:104-110 | the free stack, counts and table start as consistent books |
| `PublisherCore.Publisher.ReleaseRef` | userspace/devbus/src/core.cpp:180-192 | the flat-table update is the ledger's release of one reference |
| `PublisherCore.Publisher.DrainDone` | userspace/devbus/src/core.cpp:194-205 | the loop releases exactly the undrained entries, in order |
| `PublisherCore.Publisher.ReclaimSlot` | userspace/devbus/src/core.cpp:207-237 | drain and forfeit loops compute the ledger's reclaim |
| `PublisherCore.Publisher.Credit` | userspace/devbus/src/core.cpp:428-429 | both counts of one delivery are raised together |
| `PublisherCore.Publisher.RebuildActiveList` | userspace/devbus/src/core.cpp:269-278 | the two passes compute the list the service model delivers by |
| `PublisherCore.Publisher.ScanSlots` | userspace/devbus/src/core.cpp:241-267 | the scan takes back the slots of those who left, serves the new ones, and renews the list if anything changed |
| `PublisherCore.Publisher.Loan` | userspace/devbus/src/core.cpp:318-341 | nothing above max_loans; else, with the books in order, the chunk lent is one nobody has but for what the done rings returned or the scan took back, none only if every chunk is out or held, and always one within the chunk budget |
| `PublisherCore.DrainListIsExact` | userspace/devbus/src/core.cpp:324-325 | draining the listed done rings keeps the books and clears exactly the references they return |
| `PublisherCore.ScanIsExact` | userspace/devbus/src/core.cpp:241-267 | a scan keeps the books and clears exactly the rows of the slots taken back |
| `PublisherCore.CollectIsExact` | userspace/devbus/src/core.cpp:324-336 | afterwards a chunk is free exactly if it is not out and no slot has it any more |
| `Layout.NextPow2` | userspace/devbus/include/devbus/detail/layout.hpp:56-61 | a power of two, at least the argument, less than twice it |
| `Layout.LeastAbove` | userspace/devbus/include/devbus/detail/layout.hpp:56-61 | and no smaller power of two would do |
| `Layout.NextPow2EndsIff` | userspace/devbus/include/devbus/detail/layout.hpp:56-61 | the loop ends exactly for arguments up to 2^31 |
| `Layout.MaskIsRemainder` | userspace/devbus/src/core.cpp:494-495 | masking with a power of two less one is the remainder |
| `Layout.RoundUp` | userspace/devbus/include/devbus/detail/layout.hpp:52-54 | the least multiple of the alignment not below the value |
| `Layout.ComputeLayout` | userspace/devbus/include/devbus/detail/layout.hpp:156-173 | power-of-two rings no larger than needed, the chunk budget, a done ring for every chunk, regions inside their segments, apart, aligned, and with no gap alignment does not ask for |
| `Layout.LayoutIsGood` | userspace/devbus/src/core.cpp:37-44 | a layout the constructor accepts is a configuration the runs are proved for |
| `Firmware.Pack` | v1-spi-slave-handshake/v1.3/MCU_v1-MCU-device-control/Core/Src/main.c:181-193 | unpacking undoes packing |
| `Firmware.PackUnpack` | v1-spi-slave-handshake/v1.3/MCU_v1-MCU-device-control/Core/Src/main.c:181-193 | packing undoes unpacking |
| `Firmware.WrittenIsRead` | v1-spi-slave-handshake/v1.3/MCU_v1-MCU-device-control/Core/Src/main.c:378-450 | accepted register values read back, refused ones change nothing but a flag |
| `Firmware.PushQueues` | v1-spi-slave-handshake/v1.3/MCU_v1-MCU-device-control/Core/Src/main.c:205-215 | a push appends one item, or with 31 queued only counts an overflow |
| `Firmware.ReadValTakesOldest` | v1-spi-slave-handshake/v1.3/MCU_v1-MCU-device-control/Core/Src/main.c:332-347 | DATA_VAL answers with and removes the oldest item, peeked or not |
| `Firmware.TickKeeps` | v1-spi-slave-handshake/v1.3/MCU_v1-MCU-device-control/Core/Src/main.c:671-690 | a tick keeps numbering, peek latch and line |
| `Firmware.ExecuteKeeps` | v1-spi-slave-handshake/v1.3/MCU_v1-MCU-device-control/Core/Src/main.c:455-473 | every command keeps numbering, peek latch and line |
| `RegisterFile.ReadsTellHistory` | v1-spi-slave-handshake/v1.3/MCU_v1-MCU-device-control/Core/Src/main.c:297-450 | after any history of frames, ticks, bus errors and authentications since power-up, every address reads what that history says: counters, flags, rate, nonce, MAC, cycles, level and oldest sample |
| `RegisterFile.FramesTellHistory` | v1-spi-slave-handshake/v1.3/MCU_v1-MCU-device-control/Core/Src/main.c:455-473 | and the frame that goes out next carries it behind the echo of the command; a write answers zero |
| `FirmwareIsr.Isr.FifoPush` | v1-spi-slave-handshake/v1.3/MCU_v1-MCU-device-control/Core/Src/main.c:205-215 | the in-place push is the push of the model |
| `FirmwareIsr.Isr.ReadDataVal` | v1-spi-slave-handshake/v1.3/MCU_v1-MCU-device-control/Core/Src/main.c:332-347 | the in-place peek/pop code is the model's |
| `FirmwareIsr.Isr.RegRead` | v1-spi-slave-handshake/v1.3/MCU_v1-MCU-device-control/Core/Src/main.c:297-373 | the register switch is the model's read, side effects included |
| `FirmwareIsr.Isr.RegWrite` | v1-spi-slave-handshake/v1.3/MCU_v1-MCU-device-control/Core/Src/main.c:378-450 | the register switch is the model's write |
| `FirmwareIsr.Isr.HandleRx` | v1-spi-slave-handshake/v1.3/MCU_v1-MCU-device-control/Core/Src/main.c:455-473 | a frame leaves echo and answer in the transmit buffer and its effect in the state |
| `FirmwareIsr.Isr.ErrorCallback` | v1-spi-slave-handshake/v1.3/MCU_v1-MCU-device-control/Core/Src/main.c:655-666 | an SPI error is counted and flagged and leaves FIFO and waiting answer alone |
| `FirmwareIsr.Isr.TimerCallback` | v1-spi-slave-handshake/v1.3/MCU_v1-MCU-device-control/Core/Src/main.c:671-690 | one tick of the model |
| `FifoRace.StepRefines` | v1-spi-slave-handshake/v1.3/MCU_v1-MCU-device-control/Core/Src/main.c:198-228 | with frames between any two statements of the push, every step is a step of a bounded queue of 31 |
| `FifoRace.AnswersAreTheOldest` | v1-spi-slave-handshake/v1.3/MCU_v1-MCU-device-control/Core/Src/main.c:324-347 | the answers at any such point are that queue's |
| `FifoRace.FifoMeansQueue` | v1-spi-slave-handshake/v1.3/MCU_v1-MCU-device-control/Core/Src/main.c:671-690 | in every run: consecutive numbers modulo 2^32 ending below seq_counter, value the low half, ticks since START = numbered + overflow, and the line never low with data |
| `FifoRace.TickAlone` | v1-spi-slave-handshake/v1.3/MCU_v1-MCU-device-control/Core/Src/main.c:671-690 | left alone, the statements of the timer handler together are one tick of the handler model |
| `FifoRace.LineIsRightIff` | v1-spi-slave-handshake/v1.3/MCU_v1-MCU-device-control/Core/Src/main.c:232-249 | the line is right after a tick exactly when fewer samples were taken between read and write than were queued |
| `FifoRace.LineCanStickHigh` | v1-spi-slave-handshake/v1.3/MCU_v1-MCU-device-control/Core/Src/main.c:232-249 | a run that leaves the line high with an empty FIFO and acquisition on |
| `FifoRace.StuckHighIsSilent` | v1-spi-slave-handshake/v1.3/MCU_v1-MCU-device-control/Core/Src/main.c:232-249 | from any such state, as long as nobody takes samples or starts or stops acquisition, the line stays high, and every tick's sample waits in the FIFO or is dropped |
| `Registers.StepKeeps` | driver/custom-acq/custom_acq.c:294-392 | every protocol step keeps: the MCU's buffer is its last answer, effects are counted, every result is honest |
| `Registers.OperationsAreSelfSynchronising` | driver/custom-acq/custom_acq.c:312-392 | for any clients and any history of failures, an operation whose two frames complete returns its own answer, and its command is carried out exactly once |
| `Registers.ReturnedValuesAreAnswers` | driver/custom-acq/custom_acq.c:346-353 | any value returned was an MCU answer to that very command, or the zero of a silent line from address 0 |
| `Registers.DeadBusReads` | driver/custom-acq/custom_acq.c:336-351 | on a silent line a read succeeds exactly for address 0, with value 0 |
| `Drain.StuckStep` | driver/custom-acq/custom_acq.c:722-837 | one step leaves acquisition stuck exactly if it was, or a pass ends blind with no edge latched, and the FIFO is not empty |
| `Drain.StuckExactlyWhen` | driver/custom-acq/custom_acq.c:722-837 | in every run: samples in the MCU with no pass and no edge exactly when some pass ended by giving up, or on an old zero level because the MCU did not hear its command, with no edge latched, and the FIFO has not been empty since |
| `Drain.ErrorsAreCounted` | driver/custom-acq/custom_acq.c:763-781 | the error count is the number of the driver's operations that failed since the pass began or its last whole sample, and below three |
| `Drain.GiveUpMeansThree` | driver/custom-acq/custom_acq.c:763-781 | a pass that gives up has seen exactly three such failures |
| `Drain.StartUnsticks` | v1-spi-slave-handshake/v1.3/MCU_v1-MCU-device-control/Core/Src/main.c:405-416 | after START the line is low and the first sample raises it |
| `Drain.MisledPassIsStuck` | driver/custom-acq/custom_acq.c:763-771 | a run that ends with samples, no pass and no edge because an old level was read |
| `Pairing.DrainedSamplesAreGenuine` | driver/custom-acq/custom_acq.c:683-692 | drained samples are firmware samples, number and value, in order and none twice; each failed DATA_VAL loses at most one; what was made = what left the FIFO + what is in it |
| `Pairing.RunIsDescribed` | v1-spi-slave-handshake/v1.3/MCU_v1-MCU-device-control/Core/Src/main.c:297-347 | in every run, polite or not, a waiting non-zero level means samples are queued and a waiting peeked number is that of the oldest |
| `Pairing.PoliteRunsBegin` | driver/custom-acq/custom_acq.c:722-740 | books can be opened in any reachable state between passes; such states exist with acquisition on |
| `Pairing.StepKeepsPairs` | driver/custom-acq/custom_acq.c:763-790 | every polite step keeps that bookkeeping |
| `SampleQueue.Driver.Take` | driver/custom-acq/custom_acq.c:790-827 | what becomes of one drained sample under every policy, and the queue and counters afterwards |
| `SampleQueue.Driver.Put` | driver/custom-acq/custom_acq.c:807-826 | evict, reject or queue, with the counters the code uses |
| `SampleQueue.Driver.ReadOut` | driver/custom-acq/custom_acq.c:863-890 | whole samples, oldest first, as many as fit and are there when the lock is taken, none if another reader was faster; the error cases |
| `SampleQueue.SamplesConserved` | driver/custom-acq/custom_acq.c:763-827 | drained = injected + downsampled + overflow + read + evicted + queued |
| `SampleQueue.OrderKept` | driver/custom-acq/custom_acq.c:863-890 | without evictions, what was read and what is queued is all that was queued, in order |
| `SampleQueue.ReadersSeeDrainOrder` | driver/custom-acq/custom_acq.c:807-886 | under every policy, what was read is a subsequence of what was drained |
| `SampleQueue.Driver.TakeAll` | driver/custom-acq/custom_acq.c:790-827 | of the samples that go through the wrapping counter, whatever policies come and go, all are skipped but as many as `KeptFrom` says |
| `SampleQueue.KeptExactly` | driver/custom-acq/custom_acq.c:796-805 | that number in closed form, over any number of wraps |
| `SampleQueue.OneInEveryNIff` | driver/custom-acq/custom_acq.c:796-805 | of n in a row exactly one is kept, or exactly two if the counter wraps among them and they begin before the last multiple of n below 2^32 |
| `SampleQueue.OneInEveryNAlwaysIff` | driver/custom-acq/custom_acq.c:122-128 | one in every n holds from every counter value exactly if n divides 2^32 |
| `SampleQueue.WrapKeepsTwo` | driver/custom-acq/custom_acq.c:796-805 | with n = 3 and the counter at 0xFFFFFFFE two samples in a row are queued |
| `EndToEnd.ReadersGetFirmwareSamples` | driver/custom-acq/custom_acq.c:763-886 | what readers get is, number and value, a subsequence of what the firmware made, and number differences tell how many were made in between, modulo 2^32 |
| `EndToEnd.EverySampleIsSomewhere` | driver/custom-acq/custom_acq.c:763-886 | between passes: made = in the MCU + lost with a failed DATA_VAL + injected + downsampled + overflow + evicted + queued + read |
| `DeviceState.FaultIsLatched` | userspace/device-service/src/device_state.cpp:5-68 | in every run of the table Fault is left only by Reset or Stop, and Stopped never |
| `DeviceState.RunningIsNear` | userspace/device-service/src/device_state.cpp:5-68 | from every state but Stopped at most two events lead to Running |
| `Supervisor.Supervisor.Apply` | userspace/device-service/src/supervisor.cpp:130-189 | every event ends, with nothing if the table has no change for it, with a failed write and Fault if the device refused, else with its change and the one its procedure's outcome calls for; history is the linked suffix (at most 32) of the run; Running/Paused/Ready agree with the last control write; faults and recoveries count exactly |
| `Supervisor.Supervisor.Iterate` | userspace/device-service/src/supervisor.cpp:141-187 | one round: no change and no write, or exactly the failed write, or exactly the table's change with the writes it needs; follow-up events and failures included |
| `Supervisor.Supervisor.RunRecovery` | userspace/device-service/src/supervisor.cpp:236-294 | Recovered exactly when probe, reopen, stop and start succeeded in the last attempt and a poll saw samples before the worker died or a Stop came; at most maxAttempts attempts; backoff * (2^(n-1) - 1) of waiting when it fails |
| `Supervisor.Supervisor.RunCalibration` | userspace/device-service/src/supervisor.cpp:296-351 | which of exception, DeviceError, interruption and done it ends in, from what the device and the worker did; the calibrator stays attached exactly if starting threw |
| `Supervisor.Supervisor.Record` | userspace/device-service/src/supervisor.cpp:164-173 | the change follows the table and the history keeps the newest 32 |
| `Supervisor.Supervisor.Request` | userspace/device-service/src/supervisor.cpp:80-87 | at any time, also while an event is applied: accepted, and queued, exactly when the table has a change for it |
| `Supervisor.Supervisor.RunOnce` | userspace/device-service/src/supervisor.cpp:107-128 | the head of the queue is applied; with an empty queue a DeviceError is, exactly if the worker died in Ready, Running or Paused |
| `Supervisor.Supervisor.Serve` | userspace/device-service/src/supervisor.cpp:107-128 | once a Stop is queued the run ends in Stopped, whatever comes first and whatever fails |
| `Sha256.Compress` | v1-spi-slave-handshake/v1.3/MCU_v1-MCU-device-control/Core/Src/devauth.c:29-47 | the compression of section 6.2.2 of FIPS 180-4 |
| `Sha256.RoundsShift` | v1-spi-slave-handshake/v1.3/MCU_v1-MCU-device-control/Core/Src/devauth.c:40-45 | a round makes two new words and moves the others along |
| `Sha256.ChChooses` | v1-spi-slave-handshake/v1.3/MCU_v1-MCU-device-control/Core/Src/devauth.c:42-42 | Ch takes each bit from y or z as x says |
| `Sha256.MajDecides` | v1-spi-slave-handshake/v1.3/MCU_v1-MCU-device-control/Core/Src/devauth.c:43-43 | Maj is symmetric and two that agree decide |
| `Sha256.RotrComesRound` | v1-spi-slave-handshake/v1.3/MCU_v1-MCU-device-control/Core/Src/devauth.c:20-20 | rotating by n and by the rest of the word is the identity |
| `Sha256.LengthIsBits` | v1-spi-slave-handshake/v1.3/MCU_v1-MCU-device-control/Core/Src/devauth.c:80-89 | the length field read big-endian is the number of bits modulo 2^64 |
| `Sha256.BytesAreWord` | v1-spi-slave-handshake/v1.3/MCU_v1-MCU-device-control/Core/Src/devauth.c:32-34 | bytes to word and back |
| `Sha256Constants.ConstantsAreCubeRoots` | v1-spi-slave-handshake/v1.3/MCU_v1-MCU-device-control/Core/Src/devauth.c:9-18 | each round constant is the first 32 fractional bits of the cube root of its prime, section 4.2.2 of FIPS 180-4 |
| `Sha256Constants.StartIsSquareRoots` | v1-spi-slave-handshake/v1.3/MCU_v1-MCU-device-control/Core/Src/devauth.c:51-54 | each initial word that of the square root, section 5.3.3 of FIPS 180-4 |
| `Sha256Example.HashOfAbc` | v1-spi-slave-handshake/v1.3/MCU_v1-MCU-device-control/Core/Src/devauth.c:29-104 | the hash of "abc" comes out as the published digest |
| `Sha256.Context.Update` | v1-spi-slave-handshake/v1.3/MCU_v1-MCU-device-control/Core/Src/devauth.c:60-76 | the context has absorbed exactly what was fed, in pieces of any size |
| `Sha256.Context.Final` | v1-spi-slave-handshake/v1.3/MCU_v1-MCU-device-control/Core/Src/devauth.c:78-96 | the pad loop ends and the digest is the one-shot hash of everything fed |
| `Sha256.PaddedLength` | v1-spi-slave-handshake/v1.3/MCU_v1-MCU-device-control/Core/Src/devauth.c:78-88 | padding gives whole blocks, at most 72 bytes more |
| `Sha256.ZeroCountIsLeast` | v1-spi-slave-handshake/v1.3/MCU_v1-MCU-device-control/Core/Src/devauth.c:83-84 | and no more zeros than section 5.1.1 of FIPS 180-4 asks for |
| `Sha256.HmacOf` | v1-spi-slave-handshake/v1.3/MCU_v1-MCU-device-control/Core/Src/devauth.c:106-136 | section 2 of RFC 2104 for every key length |
| `Sha256.HmacByBytes` | v1-spi-slave-handshake/v1.3/MCU_v1-MCU-device-control/Core/Src/devauth.c:106-136 | the inner pad is the key block with 0x36, the outer with 0x5c, byte by byte |
| `Sha256.DevauthCompute` | v1-spi-slave-handshake/v1.3/MCU_v1-MCU-device-control/Core/Src/devauth.c:146-165 | the first 16 bytes of the MAC over domain, id, version and nonce |
| `Sha256.ResponseByFields` | v1-spi-slave-handshake/v1.3/MCU_v1-MCU-device-control/Core/Src/devauth.c:146-165 | what is signed begins with the characters acq-auth-v1, then id, version, nonce |
| `Sha256.KeyPresent` | v1-spi-slave-handshake/v1.3/MCU_v1-MCU-device-control/Core/Src/devauth.c:138-144 | true exactly if some byte is not erased flash |
| `Calibrator.UpdateFits` | userspace/device-service/src/clock_calibrator.cpp:54-62 | one Welford step keeps the running moments those of all points |
| `Calibrator.FitsMeansBatch` | userspace/device-service/src/clock_calibrator.cpp:54-62 | the running values are the batch means and the sums about the means |
| `Calibrator.SpreadGrows` | userspace/device-service/src/clock_calibrator.cpp:58-61 | cxx never shrinks and a second position makes it positive |
| `Calibrator.SlopeIsLeastSquares` | userspace/device-service/src/clock_calibrator.cpp:93-93 | no other line has smaller squared residuals |
| `Calibrator.PositionRecovered` | userspace/device-service/src/clock_calibrator.cpp:38-50 | positions are exact despite lost samples and 2^32 wrap |
| `Calibrator.GapsAreLosses` | userspace/device-service/src/clock_calibrator.cpp:38-50 | the gap counter is the number of places where the stream lost samples |
| `Calibrator.ExactSpacing` | userspace/device-service/src/clock_calibrator.cpp:25-95 | exactly affine timestamps give exactly their spacing |
| `Calibrator.ClockCalibrator.Observe` | userspace/device-service/src/clock_calibrator.cpp:25-63 | which samples enter the fit, which end it, and that the fit is theirs |
| `Calibrator.ClockCalibrator.GetResult` | userspace/device-service/src/clock_calibrator.cpp:65-98 | a fit is reported exactly for a clean, long enough run, with slope cxy/cxx |
| `Calibrator.Calibrate` | userspace/device-service/src/clock_calibrator.cpp:25-98 | from samples to result: a stream with lost samples and wrapping numbers, timestamps c apart per position, is fitted exactly if long enough and c is not 0, with spacing c and rate 10^9/c |
| `Recording.OpensIff` | userspace/devbus/src/record.cpp:117-138 | a recording, cut anywhere, opens exactly when header and name are there, the size is not 0 modulo 2^32 and the name fits, and gives back type and name |
| `Recording.OpensAsWhatItIs` | userspace/devbus/src/record.cpp:117-138 | any file at all opens as a type and name exactly if it begins like a recording of them |
| `Recording.TruncatedReplay` | userspace/devbus/src/record.cpp:162-189 | cut anywhere after the name, exactly the complete records replay, in order |
| `Recording.SampleReadsBack` | userspace/devbus/src/record.cpp:78-97 | every recorded sample's number and time, modulo 2^64, and payload stand at its place in the file |
| `Recording.LeAt` | userspace/devbus/src/record.cpp:78-97 | numbers are written least significant byte first |
| `Recording.Recorder.Poll` | userspace/devbus/src/record.cpp:78-97 | the file is the encoding of everything recorded, and the statistics match |
| `Recording.Replayer.OpenIt` | userspace/devbus/src/record.cpp:117-138 | the constructor's checks are those of the format |
| `Recording.Replayer.Run` | userspace/devbus/src/record.cpp:162-189 | the payloads sent are, in order, those of the complete records a chunk could be had for, up to the first where the caller stops; the others are counted |
| `Recording.RecordThenReplay` | userspace/devbus/src/record.cpp:47-189 | recording and replaying gives back type, name and every payload in order, but for failed loans |

## Left out

- C++ weak-memory orderings below sequential consistency.
- Spinning wait modes of a subscriber, `has_data` and the Empty/PublisherGone distinction: easy beside the futex handshake.
- Liveness under a fair scheduler: the handshakes are proved as safety (whoever sleeps has a waker pending).
- `blocked_ns`, `pressure`, pidfd handling and the operating-system wrappers.
- Registers, Drain: the driver's register operations are steps of a protocol machine, not a Dafny method, because other clients and the MCU act between their frames.
- Supervisor.Supervisor.RunCalibration: does not model the measured result and its file, because they do not affect the state machine.
- `wait_for_state`, busy_ and the observers of the supervisor.
- Recording: input/output errors while writing and replay pacing.
- SampleQueue.Driver.ReadOut: does not model a page fault in the middle of the copy, because how much was consumed then is the kernel's affair.
- Drain, Pairing, EndToEnd: the preemption that can stick the line high is followed in `FifoRace` only.
- Floating-point rounding in the calibrator.
- A failed re-arm after a completed SPI frame: it only counts, and the frames it loses are failed or silent ones of the register protocol.
- Timer reload values, HAL internals, the OP-TEE applet, device-monitor, control server, configuration parsing, logging, metrics, Python tools.
