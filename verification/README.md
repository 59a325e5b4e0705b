# TickLE: verified models of the hardware abstraction layers

TickLE's core talks to the network through a hardware abstraction layer (HAL). Two of them carry most of the system's
delicate logic: the Linux one (`src/hal_linux.c`) and the FreeRTOS/lwIP one (`src/hal_freertos.c`). This project models
that logic in Dafny, against a kernel, an IP stack and other threads that may do anything their interfaces allow, and
proves what the code relies on and what its callers rely on. `dafny verify dfyconfig.toml` checks all of it.

Two forms are used. Code that updates the fields of one object is a class with the same fields, methods and loops
(`Receiver`, `DrainRing`, `Sender`, `Waiter`, `WaitRingOwner`, `Skips`, `Slicer`, `Registry`, `Table`). Code whose
correctness is about interleavings is a machine of atomic steps; a run is any sequence of steps, and a step that is not
enabled is not taken, so a statement about `After(env, log)` for every `log` is a statement about every reachable state.
The receive path has both: each field update of `Receiver` is recorded as a step of `ReceiveMachine`, so the theorems
about runs are theorems about every sequence of `tt_receive()`, `tt_try_receive()` and `tt_rx_drain_start()` calls.

| files | what they hold |
|---|---|
| `Datagrams`, `Drains`, `ReceiveMachine`, `ReceiveProof`, `ReceiveTheorems`, `Receiver` | the Linux receive path: UDP_GRO's on/off switch, merged reads, batches, the io_uring drain, plain reads and the wait ring's reads as one FIFO per socket |
| `Rings`, `BufferOwners`, `DrainRing` | the drain on the memory it shares with the kernel: rings in arrays, positions modulo 2^32 and 2^16, ownership of every buffer |
| `MergedRead`, `DirectRead` | slicing a merged read in place or by copy; the read scattered to the place core hinted |
| `SendBatch` | UDP_SEGMENT runs, `sendmmsg()` calls, retries: what reaches the wire |
| `WaitRing`, `RingOwner`, `DeadlineTimer`, `UringHint`, `IdleSockets` | waiting: recvmsg generations, ring ownership, the deadline timer, the readiness hint, skipped sockets |
| `IdRegistry` | context ids claimed and released in a shared file |
| `WakeProtocol`, `RegionTable` | FreeRTOS: arrival counts and one binary semaphore; named memory regions with unlink semantics |
| `Codec`, `SetBool` | strings and a service response on the wire |
| `Sequences`, `Wrappers` | facts about sequences, and the types several modules share |

## What turned out to need a condition

Some properties do not hold as plainly as the code's comments put them. Each is proved with its exact condition, and
each comes with the run that breaks it.

- The settle's 100 us are enough exactly when the kernel's test-to-enqueue window and the wait's error together are no
  longer and no datagram is empty (`SettleWindowExact`). `gro_queue_empty()` asks FIONREAD, which answers the length of
  the datagram queued first: 0 for a doorbell's, with a merged one behind it (`DoorbellHides`).
- Each socket is one FIFO exactly when, besides, every `io_uring_enter()` takes all it is given and what `drain_stop()`
  cancels ends before its deadline (`FifoExact`). A stop whose call fails, or that runs out of time, gives the drain up,
  and the datagrams its ring held are lost uncounted (`RefusedLoses`). A re-arm whose call fails stays in the ring, where
  the stop's call takes it in place of its cancellation: the drain is then stopped with a recvmsg still in flight, and a
  read overtakes what that takes (`LeftoversOvertake`).
- A drain started while UDP_GRO is settling reads with the option off, so a datagram merged before the switch comes back
  without its size and core is handed several datagrams as one. Such a drain stays a FIFO exactly when nothing merged is
  queued or about to be - with classic buffers, within as many as they are (`DrainInSettleExact`, `RingReach`); a caller
  that looks at `gro_state` first is safe (`GuardedIsFifo`). The comment beside `drain_size_for()` allows for the length
  of such a read, not for the missing size.
- A lazy wait sleeps covered by the deadline timer exactly when no expiry was reported and not taken since the timer was
  set (`SleepCoveredExact`), so always exactly when no `tt_receive()` waits outside a poll (`CoverExact`,
  `SleepsUncovered`).
- The readiness hint is right exactly when every `io_uring_enter()` takes all that was queued (`HintExact`).
- No datagram the wait ring reads is passed over exactly when, again, submissions are taken whole: a recvmsg left over
  reads into the next call's buffer, since all share one header, and is then dropped as stale (`PassedExact`,
  `PassesOver`).
- A wait-ring report is for the caller's own buffer exactly when its `wr_arm()` had room for a cancellation it needed
  (`TakenIsTheCalls`, `ArmExact`, `TakenNeedsRoom`).
- The FreeRTOS reader sleeps over a counted arrival exactly when lwIP may raise RCVPLUS with nothing queued
  (`ArrivalsExact`); flags set by wakers and bells are never slept over (`NoLostWake`).
- Live contexts go by different ids exactly when all processes share a pid namespace and the registry can always be used
  (`UniqueExact`): `kill()` answers ESRCH for a pid of another namespace, which the code counts as dead although the
  comment in `pid_alive()` says it is counted alive, and every id looks free in a registry that cannot be opened.

## What is assumed of the environment

- A run starts after `tt_bind()`, both queues empty and nothing merged in flight.
- `setsockopt()` and `timerfd_settime()` that succeeded at set-up keep succeeding.
- A datagram tested against UDP_GRO is enqueued less than `lag` later; a wait may end up to `early` before its deadline.
  Both are parameters, as are whether empty datagrams arrive (`empties`), whether submissions are taken whole (`whole`)
  and whether what `drain_stop()` cancels ends in time (`prompt`); an environment with the last two is called steady.
- A recvmsg ends for want of a buffer only with none free: all held, or with classic buffers all used up.
- Work an io_uring request queues to a DEFER_TASKRUN ring runs only once the call's submissions were all taken, and a
  cancellation completes its target in the call that submits it, as the comments of the wait ring state.
- The kernel posts a completion only when its ring has room.
- A pid is reused only after its process has died.

## Model

| member | source | states |
|---|---|---|
| `ReceiveProof.StepKeeps` | src/hal_linux.c:884-1033 | every step of the kernel and the HAL keeps the receive path's invariant, as far as its environment admits: the drain's books and truncations always; what each switch state says of the queues with a safe settle; per socket handed out + held + queued = arrived, in order, and every buffer accounted for, in a steady one; one datagram a hand-out with both |
| `ReceiveProof.RunKeeps` | src/hal_linux.c:4434-4726 | every run keeps it |
| `ReceiveTheorems.NoPlainReadMeetsMerged` | src/hal_linux.c:891-905 | in every run with a safe settle, while the switch is PLAIN nothing queued on either socket is merged |
| `ReceiveTheorems.SettleWindowExact` | src/hal_linux.c:902-905 | plain reads are safe in every run if and only if window plus wait error is within TT_GRO_SETTLE_NS and no datagram is empty |
| `ReceiveTheorems.DoorbellHides` | src/hal_linux.c:1009-1027 | a run that commits to PLAIN over a doorbell with a merged datagram behind it |
| `ReceiveTheorems.ReceiveIsFifo` | src/hal_linux.c:4434-4451 | in every interleaving what was given up as lost is exactly `drain_truncated`; in a steady environment each socket's arrivals are, in order, those finished with, those held by some layer and those still queued; with a safe settle too, the k-th hand-out is the k-th arrival alone unless a drain was started in a settle with something merged in its reach |
| `ReceiveTheorems.FifoExact` | src/hal_linux.c:2744-2748 | each socket is one FIFO in every run without such a start if and only if submissions are taken whole, what is cancelled ends in time and the settle is safe |
| `ReceiveTheorems.RefusedLoses` | src/hal_linux.c:2880-2901 | a run in which the stop's call fails or its time runs out, and what the refused drain held is lost uncounted |
| `ReceiveTheorems.LeftoversOvertake` | src/hal_linux.c:2835-2902 | a run in which a failed re-arm is taken by the stop's call in place of its cancellation: a recvmsg is in flight past drain_stop(), and a read overtakes what it takes |
| `ReceiveTheorems.OutInOrder` | src/hal_linux.c:4663-4726 | what core was given from a socket is its first arrivals in order with exactly the counted losses missing |
| `ReceiveTheorems.DrainInSettleExact` | src/hal_linux.c:3061-3074 | from any reachable settling state, a drain started there stays a FIFO in every continuation without another start if and only if nothing merged is queued where the drain may come to it, or about to be |
| `ReceiveTheorems.RingReach` | src/hal_linux.c:2572-2576 | with a buffer ring the drain may come to all that is queued |
| `ReceiveTheorems.FifoNeedsCareInSettle` | src/hal_linux.c:3089-3155 | a run from bind whose drain, started in a settle, hands core several datagrams as one |
| `ReceiveTheorems.GuardedIsFifo` | src/hal_linux.c:3089-3155 | in a steady environment with a safe settle, never starting a drain while SETTLING is enough for the FIFO |
| `Drains.LookedKeeps` | src/hal_linux.c:2759-2804 | in a steady environment a look keeps the HAL's view tied to the kernel's, and after it the HAL believes in flight exactly what is |
| `Drains.LookedBooks` | src/hal_linux.c:2759-2804 | whatever became of submissions, a look keeps the books and the buffers in use, drops no datagram of either socket and leaves nothing unlooked at |
| `Receivers.Receiver.constructor` | src/hal_linux.c:929-948 | the receive path as bound: plain, nothing held, nothing given |
| `Receivers.Receiver.Interfere` | src/hal_linux.c:891-905 | the kernel's steps change only queues, flights, the clock and the completion ring's tail |
| `Receivers.Receiver.GroTakePending` | src/hal_linux.c:1039-1063 | the next datagram of a merged read, and nothing else, is given to core |
| `Receivers.Receiver.RxTakePending` | src/hal_linux.c:3204-3217 | the next datagram of a batch is given to core |
| `Receivers.Receiver.DrainLook` | src/hal_linux.c:2759-2804 | a look at the ring, with the kernel posting meanwhile, is a step of the machine |
| `Receivers.Receiver.DrainStop` | src/hal_linux.c:2855-2902 | terminates, giving core nothing, with no recvmsg believed in flight whatever the kernel took of the cancellations; in a steady environment none is, and the ring is empty |
| `Receivers.Receiver.StopEnter` | src/hal_linux.c:2880-2890 | one call of the stop: what it was given and not taken is still queued |
| `Receivers.Receiver.DrainRearmNow` | src/hal_linux.c:2835-2851 | an overrun's recvmsg goes in again exactly once an eighth of the buffers is back, whatever the kernel takes of it; giving core nothing |
| `Receivers.Receiver.DrainTakeSplit` | src/hal_linux.c:2909-2929 | the next datagram of a merged completion is given to core |
| `Receivers.Receiver.DrainTookMore` | src/hal_linux.c:2985-2999 | true exactly when something is pending; otherwise the drain is stopped, or kept with both sockets armed |
| `Receivers.Receiver.DrainTakeHead` | src/hal_linux.c:3011-3052 | one completion leaves: handed out, dropped and counted, split, or let go |
| `Receivers.Receiver.RxTakeDrained` | src/hal_linux.c:3001-3057 | terminates; core is given exactly what is returned, and nothing is left pending when nothing is |
| `Receivers.Receiver.GroMaybeSettle` | src/hal_linux.c:1000-1007 | the option goes off and the deadline is set exactly after the quiet reads, with nothing held and no drain |
| `Receivers.Receiver.GroSettleEnd` | src/hal_linux.c:1017-1027 | past the deadline the switch is ON again, or PLAIN - then with nothing merged queued or about to be, if the settle is safe |
| `Receivers.Receiver.GroSettleDecide` | src/hal_linux.c:1029-1033 | decides exactly once the clock has reached the deadline |
| `Receivers.Receiver.RxWaitFor` | src/hal_linux.c:4268-4289 | a wait through a settle decides it at its deadline and gives core nothing |
| `Receivers.Receiver.RxReadOne` | src/hal_linux.c:3364-3419 | a settle is aborted before the read; what is read is given to core, the rest of a merged read kept; nothing is answered only with that socket's queue empty |
| `Receivers.Receiver.WrTake` | src/hal_linux.c:4086-4105 | the wait ring's datagram is given to core as a plain read's is |
| `Receivers.Receiver.RxFill` | src/hal_linux.c:3421-3466 | the first datagram of a batch is given to core, the others held in order |
| `Receivers.Receiver.DrainStart` | src/hal_linux.c:3078-3155 | answers whether a drain runs; a running one no size was asked for is untouched, and so in a steady environment is one in mid-split asked for any datagram; one newly begun has buffers of the size the mode needs |
| `Receivers.Receiver.DrainSubmit` | src/hal_linux.c:3147-3155 | the drain runs with both sockets believed armed unless the call failed, and then what it queued stays in the ring |
| `Receivers.Receiver.Receive` | src/hal_linux.c:4434-4620 | the call keeps the invariants and gives core exactly what it returns; it comes back with nothing, interrupted or rung by the bell only with nothing held anywhere and no drain running |
| `Receivers.Receiver.TryReceive` | src/hal_linux.c:4663-4726 | the same for the non-blocking call; an answer of nothing with no drain running means each socket not believed idle was empty at some moment of this very call |
| `Receivers.Serve` | src/hal_linux.c:4434-4726 | over any sequence of calls the answers for a socket, put together, are what core was given; in a safe environment that is what arrived there first, in order, but for the counted losses |
| `Rings.Picks32` | src/hal_linux.c:2763-2763 | a position kept modulo 2^32 picks its own ring entry |
| `Rings.Tells32` | src/hal_linux.c:2762-2762 | two kept positions are equal exactly when the positions are, within a ring's length |
| `BufferOwners.ExactlyOnePlace` | src/hal_linux.c:2570-2584 | every buffer id is in exactly one of the kernel's ring, a held completion, the HAL's hands, and once there |
| `BufferOwners.KernelFillsKeeps` | src/hal_linux.c:2808-2829 | a buffer the kernel fills moves from its ring to a completion |
| `BufferOwners.PopsKeeps` | src/hal_linux.c:3011-3024 | a completion's buffer moves to the HAL |
| `BufferOwners.GivesBackKeeps` | src/hal_linux.c:2572-2584 | a buffer given back is on the kernel's ring, once |
| `BufferOwners.RoomToGiveBack` | src/hal_linux.c:2577-2577 | the ring has room for it, so no entry the kernel has not taken is overwritten |
| `DrainRings.PendingIsCount` | src/hal_linux.c:2778-2780 | `drain_pending` is the number of datagram-holding completions in [cq_head, drain_scan) |
| `DrainRings.ViewStocked` | src/hal_linux.c:2572-2584 | the rings account for every buffer as the abstract drain does: the kernel's to fill, holding a datagram, or being split |
| `DrainRings.DrainRing.constructor` | src/hal_linux.c:2667-2730 | empty rings, every buffer with the kernel |
| `DrainRings.DrainRing.KernelTake` | src/hal_linux.c:2808-2829 | a datagram lands in the buffer given back longest ago; no held payload changes |
| `DrainRings.DrainRing.KernelPost` | src/hal_linux.c:2754-2758 | an end or another completion is appended |
| `DrainRings.DrainRing.ScanAll` | src/hal_linux.c:2760-2793 | the scan loop on the shared ring does what the abstract scan does |
| `DrainRings.DrainRing.DropAll` | src/hal_linux.c:2794-2803 | the head loop drops exactly the ends in front of the first datagram |
| `DrainRings.DrainRing.Look` | src/hal_linux.c:2759-2804 | drain_look() on the arrays refines Drains.Looked |
| `DrainRings.BackLaid` | src/hal_linux.c:2572-2584 | a buffer given back is the kernel's last entry, every other entry and what each completion shows unchanged |
| `DrainRings.DrainRing.TakeHead` | src/hal_linux.c:3010-3052 | never reads an unscanned entry; returns the payload the kernel wrote, before its buffer goes back |
| `DrainRings.DrainRing.TakeSplit` | src/hal_linux.c:2909-2929 | the split's next datagram; its buffer goes back with the last one |
| `MergedRead.CutExact` | src/hal_linux.c:1116-1136 | the slices of a read join to the read, and there are ceil(end / segment) of them |
| `MergedRead.Slicer.GroRead` | src/hal_linux.c:1085-1138 | the first datagram and the kept rest are the read cut at its segment, a truncated read losing only the cut datagram |
| `MergedRead.Slicer.GroTakePending` | src/hal_linux.c:1035-1063 | each hand-out, in place or copied, is the next slice, and no byte still to come changes |
| `MergedRead.HandOutAll` | src/hal_linux.c:1039-1063 | for any buffers the caller brings, the hand-outs are all the slices in order |
| `DirectRead.IsHinted` | src/hal_linux.c:3259-3269 | the test made on the buffer says whether the datagram read is the hinted run |
| `DirectRead.DirectRecvmsg` | src/hal_linux.c:3271-3326 | split exactly for the hinted run with the hint standing: framing in the buffer, payload in place, the rest untouched; otherwise the buffer is what a plain read leaves |
| `SendBatch.GsoRun` | src/hal_linux.c:1996-2022 | the longest prefix that can go as one UDP_SEGMENT send |
| `SendBatch.CutJoined` | src/hal_linux.c:1996-2000 | cutting a run's bytes at its first length gives the run back |
| `SendBatch.MessageSetup` | src/hal_linux.c:2182-2222 | the message puts exactly its run on the wire |
| `SendBatch.ControlLengthExact` | src/hal_linux.c:2258-2270 | no run holds an IP-fragmented datagram if and only if the control length is at most 1472 |
| `SendBatch.CallBuild` | src/hal_linux.c:2273-2292 | 1 to 64 messages, 1 to 128 datagrams; every prefix of messages carries the matching prefix of the batch; with checksum 0, fragmented datagrams and runs never share a call |
| `SendBatch.CountSent` | src/hal_linux.c:2226-2236 | the datagrams a call's first messages carried |
| `SendBatch.Sender.constructor` | src/hal_linux.c:865-877 | a sender with nothing sent |
| `SendBatch.Sender.Prepare` | src/hal_linux.c:2296-2301 | the next call is within the limits, SO_NO_CHECK is on when it holds fragmented datagrams and off when it holds a run |
| `SendBatch.Sender.MakeCall` | src/hal_linux.c:2337-2360 | what one call put on the wire is the next part of what is left, and some of it went exactly when the kernel took a message |
| `SendBatch.Sender.SendBatchFlags` | src/hal_linux.c:2330-2363 | terminates; the wire gains a prefix of the batch, in order, byte for byte; `count` means all of it, a non-blocking k < count exactly the first k and a full buffer last; -1 only after an answer no retry helps |
| `WaitRing.GenApart` | src/hal_linux.c:3903-3906 | two recvmsgs share a generation only 2^24 - 1 issues apart |
| `WaitRing.ArmKeeps` | src/hal_linux.c:3856-3921 | arming keeps the ring's invariant; with room a recvmsg into this call's buffer is in flight |
| `WaitRing.HarvestKeeps` | src/hal_linux.c:3942-3958 | harvesting keeps it: stale completions are passed over, the current one is the last issued |
| `WaitRing.TakenIsTheCalls` | src/hal_linux.c:4040-4082 | in every run, enters failed or short, TAKEN is reported for a datagram in the caller's buffer and length if and only if its arm had room for a cancellation it needed; at most 17 recvmsgs are outstanding, the last issued, so generations never collide |
| `WaitRing.PassedExact` | src/hal_linux.c:3946-3952 | no datagram is read by a recvmsg whose completion is passed over if and only if submissions are taken whole |
| `WaitRing.PassesOver` | src/hal_linux.c:3912-3915 | after one failed enter, the first call's recvmsg reads into the second call's buffer and is dropped as stale |
| `WaitRing.EmptyIsRoomy` | src/hal_linux.c:3518-3518 | a wait that starts with at most seven leftover submissions has room |
| `WaitRing.ArmExact` | src/hal_linux.c:3892-3902 | an armed call keeps another call's recvmsg exactly when its cancellation does not fit |
| `WaitRing.TakenNeedsRoom` | src/hal_linux.c:3892-3902 | a run in which a full ring has a call told TAKEN for another call's buffer |
| `RingOwner.WaitRingOwner.constructor` | src/hal_linux.c:3652-3657 | no owner, no run, the first move needs two |
| `RingOwner.WaitRingOwner.Use` | src/hal_linux.c:3742-3793 | the moves so far were paid for by other threads' datagrams; a move goes to a thread whose unbroken run reached what the move needs, the owner keeps the ring, and a rival whose run suffices gets it |
| `RingOwner.WaitRingOwner.Count` | src/hal_linux.c:3798-3808 | the owner's datagram breaks the run, the rival's adds to it |
| `RingOwner.WaitRingOwner.Remake` | src/hal_linux.c:4032-4038 | a ring remade for nobody keeps the moves paid for |
| `RingOwner.NeedsSum` | src/hal_linux.c:3486-3488 | what m moves need, summed |
| `RingOwner.MovesAreRare` | src/hal_linux.c:3486-3488 | at most fifteen moves plus one per 65536 datagrams of other threads |
| `DeadlineTimer.Waiter.constructor` | src/hal_linux.c:1465-1471 | no timer armed |
| `DeadlineTimer.Waiter.RxTimerArm` | src/hal_linux.c:4199-4206 | whatever was believed before, the timer is then as believed and covers the deadline |
| `DeadlineTimer.Waiter.RxWaitLazy` | src/hal_linux.c:4224-4247 | whatever was believed before: a timeout comes at or after the deadline, at most two expiries are seen, none is passed on or left to go stale |
| `DeadlineTimer.Waiter.RxWaitPlainFired` | src/hal_linux.c:4319-4346 | a stale expiry is taken and the wait keeps its deadline |
| `DeadlineTimer.Waiter.RxWaitEpoll` | src/hal_linux.c:4364-4410 | in a poll no expiry leaks out or goes stale, what else the wait reported is passed on and a timeout is never early; outside one the belief goes stale exactly when an expiry is reported |
| `DeadlineTimer.SleepCoveredExact` | src/hal_linux.c:4228-4232 | in every run a lazy wait goes to sleep covered if and only if no report went untaken since the timer was set |
| `DeadlineTimer.CoverExact` | src/hal_linux.c:4394-4396 | no lazy wait ever sleeps uncovered if and only if no wait is made outside a poll |
| `DeadlineTimer.SleepsUncovered` | src/hal_linux.c:4394-4396 | the three waits after which one sleeps with nothing to end it |
| `DeadlineTimer.Waits` | src/hal_linux.c:4364-4410 | over any sequence of waits, each lazy sleep was covered if and only if no report had gone untaken, and no wait in a poll reports the timer |
| `UringHint.StepKeeps` | src/hal_linux.c:4855-4907 | with whole submissions an armed bit stands for a poll in flight or an unharvested completion |
| `UringHint.HintExact` | src/hal_linux.c:4909-4927 | "no" is never said with a datagram waiting if and only if every submission is taken whole |
| `IdleSockets.Skips.constructor` | src/hal_linux.c:1517-1519 | nothing skipped |
| `IdleSockets.Skips.LoneAfterWake` | src/hal_linux.c:2449-2459 | a wake-up's socket is probed unless eight probes in a row found nothing, and at least every sixteenth time |
| `IdleSockets.Skips.LoneProbed` | src/hal_linux.c:2462-2469 | a found datagram starts the count of empty probes again |
| `IdleSockets.Skips.CountReturn` | src/hal_linux.c:4646-4661 | no skip survives a return the recheck interval past the first one made while skipping |
| `IdleSockets.Skips.TryRead` | src/hal_linux.c:4686-4726 | nothing is returned exactly when every waiting socket is skipped, and then no skip is left; the preferred socket goes first |
| `IdRegistry.PickContextId` | src/hal_linux.c:475-495 | the preferred id if allowed, else the salt-th allowed from the top, 0 exactly when none is |
| `IdRegistry.Registry.constructor` | src/hal_linux.c:523-531 | an empty registry |
| `IdRegistry.Registry.RegistryClaim` | src/hal_linux.c:523-544 | the id is picked by what the claimer sees, all free in a registry it cannot use, and recorded if it can |
| `IdRegistry.Registry.RegistryRelease` | src/hal_linux.c:546-560 | only a record of this process's goes |
| `IdRegistry.Registry.ClaimContext` | src/hal_linux.c:576-588 | the id taken is one whose recorded pid the claimer does not see alive; with one namespace and a usable registry no live context goes by it |
| `IdRegistry.UniqueExact` | src/hal_linux.c:523-544 | over every run of births, claims, releases and deaths, live contexts go by different ids if and only if all share a pid namespace and the registry can always be used |
| `IdRegistry.SharedId` | src/hal_linux.c:460-467 | the runs in which two live contexts take one id |
| `IdRegistry.Registry.ReleaseContext` | src/hal_linux.c:597-604 | a context without an id gives none back; every other live context stays recorded |
| `IdRegistry.Registry.Die` | src/hal_linux.c:460-467 | exactly the living contexts go on holding their ids |
| `WakeProtocol.StepKeeps` | src/hal_freertos.c:403-421 | every atomic step keeps: a flag or a count the reader is past comes with a give owed or made; mailbox never exceeds counts plus uncounted |
| `WakeProtocol.NoLostWake` | src/hal_freertos.c:715-723 | a reader asleep with nothing given and nobody about to give has no wake and no bell pending, whatever lwIP does |
| `WakeProtocol.NoLostArrival` | src/hal_freertos.c:655-692 | nor a counted arrival, unless a read gave up on one netconn with the other counted |
| `WakeProtocol.ArrivalsExact` | src/hal_freertos.c:603-628 | no counted arrival is ever slept over if and only if RCVPLUS always follows a queued datagram |
| `WakeProtocol.HintIsSound` | src/hal_freertos.c:702-710 | whatever waits in a mailbox is counted or about to be, spurious events and the compare-and-swap clear included |
| `WakeProtocol.SleepsOverOne` | src/hal_freertos.c:619-627 | the run that sleeps over a counted datagram after a spurious event |
| `RegionTable.UsedRegionsPersist` | src/hal_freertos.c:334-336 | over any calls a region keeps its address and size while fewer detaches than users were made |
| `RegionTable.NamedRegionsPersist` | src/hal_freertos.c:371-384 | however often it is detached, a region stays under its name through calls that neither unlink nor recreate it |
| `RegionTable.MakeAll` | src/hal_freertos.c:267-384 | any sequence of calls on the table does what it does to files, and the memory held is exactly their regions' |
| `RegionTable.Table.constructor` | src/hal_freertos.c:247-255 | an empty table |
| `RegionTable.Table.RegionNamed` | src/hal_freertos.c:247-255 | found exactly when the name exists |
| `RegionTable.Table.RetireIfUnused` | src/hal_freertos.c:258-265 | a region with neither name nor user is gone and its memory released, once |
| `RegionTable.Table.Create` | src/hal_freertos.c:267-315 | replaces a region under the name; placed exactly when an entry is free; an unplaced block is released |
| `RegionTable.Table.Attach` | src/hal_freertos.c:317-332 | the four answers, and one more user exactly when attached |
| `RegionTable.Table.Identify` | src/hal_freertos.c:337-347 | the named region's address |
| `RegionTable.Table.Detach` | src/hal_freertos.c:349-369 | one user fewer, the region gone with its last if nameless; nothing for an unused address |
| `RegionTable.Table.Unlink` | src/hal_freertos.c:371-384 | the name goes, the region with it if unused |
| `Codec.EncodeString` | src/encoding.c:82-102 | succeeds exactly when one byte of the buffer stays free, and then writes exactly the encoding |
| `Codec.DecodeString` | src/encoding.c:104-128 | reads what the bytes mean in the sender's order, or refuses |
| `Codec.RoundTrip` | src/encoding.c:82-128 | an encoded string decodes to itself and advances by its length, exactly when it is shorter than 65535 bytes |
| `SetBool.EncodeSize` | examples/set_bool/SetBool.c:92-108 | the length encoding produces, padding included, or the error |
| `SetBool.Encode` | examples/set_bool/SetBool.c:110-155 | the wire form, or the first error met |
| `SetBool.Decode` | examples/set_bool/SetBool.c:157-201 | what the payload means in the sender's order, or the error |
| `SetBool.RoundTrip` | examples/set_bool/SetBool.c:110-201 | a response sent in either order is received as sent and takes exactly its wire form |

## Left out

- Socket, epoll, io_uring and mmap set-up, close, logging and statistics: only their success or failure appears, as an environment choice.
- A refused gro_turn_on() (setsockopt failing after it succeeded at bind).
- Lengths and hold-offs that only tune the drain (budget growth, hold-off clock, classic buffers): nondeterministic choices of `Receiver.DrainStart`.
- Payload bytes in the receive path: datagrams are values there; bytes are modelled where they are cut and copied, in `MergedRead`, `DirectRead`, `SendBatch` and the codecs.
- UDP_GRO set on one socket before the other: one flag stands for both, which allows every behaviour of the pair because the kernel may merge but need not.
- A plain read that turns UDP_GRO on, and the wait ring's read inside its wait, are single steps; kernel steps between their halves commute with them.
- Which sockets `Receiver.TryReceive` skips is a parameter; `IdleSockets` has the rule.
- The wait ring's polls on the bell, the timer, the wake eventfd and the writable watch, and the bell's epoch tag: only the submission entries they take are modelled.
- SendBatch.Sender: another thread switching SO_NO_CHECK during a call is not modelled, only the retry that answers it.
- 32-bit wrap-around of FreeRTOS arrival counts (a mailbox is far shorter), and the doorbell table's generations.
- WakeProtocol.HintIsSound: states mailbox <= counts + uncounted; that an uncounted datagram's callback runs is lwIP's.
- The four-entry submission rings of the io_uring hint and of the drain: leftovers beyond them, which would be overwritten, are not modelled.
- IdRegistry.Registry.ClaimContext: a registry that can be locked and not written is not modelled apart from one that cannot be used.
- `drain_refused()` in mid-split, which `DrainStart` excludes in a steady environment: the model still hands the split's datagrams out, where the source has unmapped their buffer.
- The io_uring hint's polls complete in the step of the arrival; the kernel's own delay in posting is not modelled.
- Traffic-class marks, control-message layout, sigreturn-free system calls, receive-loss injection and other experiment arms.
- The FreeRTOS socket build, `net_init.c`, the `main*.c` drivers and the `platform/linux/*_check.c` programs.
- `src/tickle.c` (the core protocol), `UInt64.c`, `PingPong.c`, `Bulk.c`, `tt_hash_id`, `log.c`, `format.h`: not part of this model.
- `tt_encode_buffer()` and `tt_decode_buffer()`: cursor moves that would only add easy members.
