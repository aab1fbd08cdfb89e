# Verified model of brainstem-daemon

A Dafny 4.11 model of the parts of `brainstem-daemon` where state, faults and interleavings meet, with
machine-checked proofs of what they keep. `dafny verify dfyconfig.toml` checks everything.

Each stateful component has two forms. A specification module gives the state as a value and every
operation as a function of it; a class holds the source's own fields, performs the operations step by
step, and every method is proved to do exactly what the function says. The theorems are about the
functions, over all inputs, runs and interleavings.

| files | component |
|---|---|
| `Durable`, `Runtime`, `Protocol`, `Harness` | the write-ahead commit harness: boot, tick, shutdown, 17 one-shot fault points |
| `SessionFacts`, `Restarts`, `Transparency`, `Reboots`, `Retries`, `FaultOracle` | what survives crashes and restarts |
| `Replies` | what each call of the harness answers |
| `IngressTypes`, `QueueSpec`, `Queue`, `QueueRuns`, `PushLaws` | one bounded queue, four overflow policies, timed waiting |
| `IngressSpec`, `Ingress`, `IngressRuns` | the four class queues, draining, two-stage shutdown |
| `SourceSpec`, `Source` | the draining stimulus source with held modulators |
| `HealthSpec`, `Health`, `HealthTraces` | the health state machine and what its trace tells |
| `LimiterSpec`, `Limiter`, `Decode`, `TickSpec`, `TickLoop`, `TickRuns`, `TickLaws` | the tick pipeline, its rate limiter, decoder and accounting |
| `Pipeline` | source and tick loop together: what the network hears of the frames |
| `LifSpec`, `Lif`, `LifBounds`, `LifLaws` | the reference neuron bank, over the reals |

## What the proofs found

- A harness refuses to tick after 64 calls, and skipped replays use up that budget too
  (`src/runtime/harness.rs:216-226`). So however often a long script is replayed, only its first 64
  packets can ever be published. Crash transparency is therefore proved in two halves: the log is
  a prefix of the uninterrupted log of the first 64 packets (`CrashTransparent`), and one undisturbed
  session reaches all of it (`OneCleanSessionCompletes`). No ordering of the script is needed: the
  high-water mark makes both true of any script.
- Booting the same harness twice is not a restart. A fault between taking a packet and committing it has
  removed the packet from the source, which a second boot does not restore. The log is a prefix of the
  uninterrupted one if and only if no session passes over a packet it owes (`CrashTransparent`); the reply
  of a tick tells whether the session owes one (`ReplyTellsOwed`); booting again while it owes none is
  always harmless (`CarefulLosesNothing`), and while it owes one it loses it (`RebootLosesOwed`,
  `RebootLosesPacket`). Rebuilding the harness, as `src/runtime/mod.rs` describes, is careful
  (`OneBootIsCareful`).
- The documentation says that an interrupted ingress sequence may be retried once
  (`src/runtime/mod.rs:21-24`). The code has no such limit: after any number of interrupted sessions the
  next one is offered the packet again (`RetriedWithoutLimit`), and it is published by the first session
  that nothing interrupts, and never again (`RetriedUntilCommitted`).
- Of all queues only a `drop_oldest` queue of capacity zero overfills and miscounts; the other policies
  conserve at capacity zero as well (`ZeroCapacityBreaks`). The configuration check rules it out.
- The reference bank keeps potentials non-negative exactly when acetylcholine is at least -17; below that
  even the smallest bank goes negative on its first tick (`LeakKeepsSign`). The other bounds of
  `ReachableBounded` and the falling silent need no such condition.
- Zeroing masked values equals masking them, at every width, exactly when no nonzero value lies beyond the
  mask (`ZeroedIsMasked`); the width check of the experiment drivers is sufficient.

## Modelling decisions

- Structures that Rust owns inside another (clock, core, injector, source, store of the harness; the
  statistics of the tick loop) are fields of their owner. Shared handles (queues, health, limiters) are
  objects.
- `hide` statements keep definitions that a proof does not need away from the solver.
- `u64` counters of the harness and the tick loop are bounded; saturating additions saturate, plain ones
  wrap, and checked ones take their error branch. The queue's own counters are unbounded naturals.
- Floats in packets are a datatype of finite reals, NaN and the infinities. Rounding is not modelled.
- Every region under a queue's lock is one atomic step, and so is every access to the shutdown flag. A
  waiting producer may wake for any reason and find the queue in any state; the clock moves by at least a
  nanosecond during a wait.
- The durable blob is absent, unparsable, or an encoded state, which loading validates.
- The network, the sink, the source of a tick, clock readings and the default modulators of the external
  neuron crate are parameters.

## Model

| member | source | states |
|---|---|---|
| `Harness.RuntimeHarness.constructor` | src/runtime/harness.rs:370-391 | A built harness keeps nothing but the given store, script and armed fault; everything else is reset |
| `Harness.RuntimeHarness.Take` | src/runtime/inject.rs:24-43 | A fault fires once, only at the armed point, and is then disarmed |
| `Harness.RuntimeHarness.CheckFault` | src/runtime/harness.rs:315-334 | A fail point either passes unchanged or applies its terminal health and takes the session out of the live loop |
| `Harness.RuntimeHarness.Save` | src/runtime/durable.rs:163-167 | The blob is replaced only by a state that validates |
| `Harness.RuntimeHarness.Boot` | src/runtime/harness.rs:118-129 | Initialization, checkpoint validation and the last fail point, in order, equal the boot step of the protocol |
| `Harness.RuntimeHarness.LoadCheckpoint` | src/runtime/harness.rs:157-179 | First boot, recovery, overflow and every kind of rejection |
| `Harness.RuntimeHarness.Recover` | src/runtime/harness.rs:191-208 | The inflight marker is dropped and the next session id is durable before the session goes live |
| `Harness.RuntimeHarness.RunTick` | src/runtime/harness.rs:131-146 | One tick, with every early exit, equals the tick step of the protocol |
| `Harness.RuntimeHarness.Execute` | src/runtime/harness.rs:228-250 | The inflight marker is durable before the core steps |
| `Harness.RuntimeHarness.Publish` | src/runtime/harness.rs:252-288 | The commit is durable before the output and its metric are appended |
| `Harness.RuntimeHarness.Stop` | src/runtime/harness.rs:290-302 | A shutdown closes the channel and ends the session, cleanly or at a fault |
| `Runtime.SpikesAreTheLoud` | src/runtime/fakes.rs:27-36 | The fake core reports exactly the channels above one half whose index fits 16 bits, in order |
| `SessionFacts.BootFacts` | src/runtime/harness.rs:118-129 | From any state, a boot ends live with the session id advanced by one and the commit marks untouched, or ends dead |
| `SessionFacts.TickFacts` | src/runtime/harness.rs:131-146 | From any sound state, a tick publishes exactly one output and commits it, or publishes nothing and leaves every counter a restart resumes from |
| `SessionFacts.StopFacts` | src/runtime/harness.rs:290-302 | A shutdown, failed or not, never touches the store or the log |
| `Restarts.RunKeepsWorld` | src/runtime/harness.rs:118-334 | The session and log invariant is kept by every sequence of boots, ticks, faults, pushes, stops and rebuilds |
| `Restarts.PublishedOnceInOrder` | src/runtime/harness.rs:181-288 | Over every run and restart, tick numbers are consecutive, ingress numbers strictly increase, session ids strictly increase, and the store counts what was published |
| `Restarts.LiveTickNeverRefused` | src/runtime/harness.rs:118-334 | In every reachable state live means Live health, open channel, store equal to memory, no inflight; no save is ever refused and the closed publish channel is unreachable |
| `Restarts.RejectedForGood` | src/runtime/harness.rs:157-179 | A store that does not validate stays rejected: no session goes live, nothing is published |
| `Transparency.ReplayOffersTheRest` | src/runtime/harness.rs:137-142 | After a commit, replaying the whole script offers exactly the work that was left |
| `Transparency.CrashTransparent` | src/runtime/harness.rs:118-288 | Over any number of crashes, boots and rebuilt sessions the published log is a prefix of the uninterrupted one, within the first 64 packets, if and only if no session passed over a packet it had taken and not committed |
| `Transparency.ReplyTellsOwed` | src/runtime/harness.rs:131-146 | A tick leaves a packet owed exactly when it reports an error between taking a new packet and committing it |
| `Transparency.OneCleanSessionCompletes` | src/runtime/harness.rs:216-226 | After any crashes that passed over nothing, one undisturbed session completes the log of the first 64 packets exactly |
| `Reboots.CarefulLosesNothing` | src/runtime/harness.rs:118-129 | However often harnesses are booted again while they owe nothing, no packet is passed over |
| `Reboots.CarefulRunsTransparent` | src/runtime/harness.rs:118-288 | So from the start of any such run the published log is a prefix of the uninterrupted one |
| `Reboots.OneBootIsCareful` | src/runtime/mod.rs:10-28 | Rebuilding the harness for every boot, as a restart does, always meets that condition |
| `Reboots.RebootLosesOwed` | src/runtime/harness.rs:304-313 | From any state of any run, booting again while a packet is owed and publishing a later new one leaves the uninterrupted log for good |
| `Reboots.RebootLosesPacket` | src/runtime/harness.rs:131-146 | A reboot after a fault of a tick loses its packet exactly for the faults between taking and committing it |
| `Retries.RetriedWithoutLimit` | src/runtime/harness.rs:191-208 | After any number of sessions interrupted on a packet nothing is published, the marks stand and the store names it as the interrupted work of the last |
| `Retries.RetriedUntilCommitted` | src/runtime/harness.rs:137-145 | The first session that nothing interrupts publishes the packet, and no later run publishes it again |
| `FaultOracle.RestartFacts` | src/runtime/harness.rs:157-208 | The restart outcome, session id and recovered state for every store a boot can find |
| `FaultOracle.OracleHolds` | src/runtime/mod.rs:144-231 | For every injection point, seed and script that starts with new work, health, published and metric counts, live-loop entry, inflight marker and next boot equal the documented table |
| `Replies.BuildsIdle` | src/runtime/harness.rs:370-391 | A built harness runs nothing and knows nothing of its store |
| `Replies.ClockStarts` | src/runtime/harness.rs:370-391 | The clock of a harness starts one nanosecond after the milliseconds of its seed |
| `Replies.TickAnswers` | src/runtime/harness.rs:131-146 | A tick answers Committed exactly if it published, SkippedReplay exactly below the mark and then counts it, NoIngress exactly on an empty source; only a commit steps the core |
| `Replies.TickRefuses` | src/runtime/harness.rs:216-226 | A session that is not live refuses unchanged, and after 64 calls a live one only counts the call |
| `Replies.TickFailsOnlyAtTheEnd` | src/runtime/harness.rs:228-250 | With no fault in its way a tick fails exactly when a new packet finds no tick number left |
| `Replies.TickLeavesSession` | src/runtime/harness.rs:131-146 | No tick, failed or not, touches the channel, the session id or the report of the boot |
| `Replies.FaultAfterCore` | src/runtime/harness.rs:228-250 | A fault in the work of a tick finds the core stepped on the packet exactly if it comes after the step |
| `Replies.IngressFaultFires` | src/runtime/harness.rs:304-313 | A fault on ingress fires even on an empty source, and takes a packet only after the boundary |
| `Replies.FaultTime` | src/runtime/harness.rs:252-266 | A tick costs one millisecond of the clock, and a backpressure timeout ten more |
| `Replies.BootAnswers` | src/runtime/harness.rs:118-208 | From any state a boot clears what is volatile and succeeds exactly if the store loads with room; it reports how it found the store, or why it rejects it |
| `Replies.BootFaultAnswers` | src/runtime/harness.rs:118-179 | Where a fault stopped a boot shows in its error, what was cleared and what was written |
| `Replies.StopAnswers` | src/runtime/harness.rs:290-302 | A shutdown without its own fault ends Stopped with the channel closed; a fault before the close leaves it open |
| `Replies.LoadsExactly` | src/runtime/durable.rs:58-121 | The states that load are exactly those at rest and those of a numbered session working on the next tick above the mark |
| `Queue.BoundedQueue.Push` | src/ingress/queue.rs:104-141 | The retry loop ends and equals the whole push, whatever is found at each wake-up |
| `Queue.BoundedQueue.WaitForSlot` | src/ingress/queue.rs:157-184 | No time left rejects at once; otherwise the wait asks for exactly the time left, and after it closed beats timed-out-and-full beats another look |
| `Queue.BoundedQueue.PutFree` | src/ingress/queue.rs:186-195 | Appends, counts and raises the high-water mark |
| `Queue.BoundedQueue.PutDroppingOldest` | src/ingress/queue.rs:143-155 | Evicts the oldest and appends |
| `Queue.BoundedQueue.PutCoalesced` | src/ingress/queue.rs:197-212 | Leaves the new packet as the only occupant |
| `Queue.BoundedQueue.DrainAll` | src/ingress/queue.rs:221-232 | Returns every queued packet in order and empties the queue |
| `Queue.BoundedQueue.Pop` | src/ingress/queue.rs:214-219 | Returns and removes the oldest, closed or not |
| `QueueRuns.Conservation` | src/ingress/queue.rs:88-255 | In every reachable state of any interleaving: accepted = queued + delivered + dropped + coalesced, attempts = accepted + rejected + refused + waiting, high-water mark = deepest ever, within capacity; waits and waiting time are all counted |
| `QueueRuns.ContentsByPolicy` | src/ingress/queue.rs:104-232 | Reject and block_timeout lose nothing, drop_oldest keeps the newest and loses exactly the dropped, coalesce keeps at most the last; deliveries are in order |
| `QueueRuns.NextKeeps` | src/ingress/queue.rs:104-239 | Every single step of any thread keeps counts and contents |
| `QueueRuns.ZeroCapacityBreaks` | src/ingress/queue.rs:88-255 | For every capacity and policy, all runs conserve packets within capacity if and only if it is not drop_oldest with capacity zero |
| `QueueRuns.WaitersParkedRightly` | src/ingress/queue.rs:131-172 | In every reachable state every waiting producer parked on a full, open block_timeout queue and asked to wake exactly at its deadline |
| `QueueRuns.ClosedForGood` | src/ingress/queue.rs:157-184 | After the close nothing is accepted or rejected; later and waiting pushes all end in Shutdown; queued packets still come out in order |
| `QueueRuns.PushEndsForAReason` | src/ingress/queue.rs:113-184 | However often it is woken, a push ends justified by what it last saw |
| `QueueRuns.PushTerminates` | src/ingress/queue.rs:104-184 | A push ends after at most its block timeout of waits, each ending at start plus block timeout, and is rejected only for size, a rejecting full queue, a passed deadline or a timed-out wait |
| `QueueRuns.PushWaitsOut` | src/ingress/queue.rs:113-184 | A blocking push on a full queue first asks for the whole block timeout; unless a wait timed out it is not rejected before that is over |
| `PushLaws.EnterDecides` | src/ingress/queue.rs:104-155 | Which outcome a push begins with, what it places and which counters it moves: closed beats size, size beats room, room beats the policy |
| `PushLaws.WakeDecides` | src/ingress/queue.rs:157-184 | How a blocked push goes on after a wait: closed beats room, room beats time; a timed-out wait on a full queue rejects |
| `PushLaws.ClassAsConfigured` | src/ingress/mod.rs:442-467 | Each class takes packets of the configured length until it holds as many as configured and blocks for the configured milliseconds |
| `PushLaws.ValidatedLimits` | src/ingress/mod.rs:318-356 | The configurations accepted, limit by limit for every class |
| `PushLaws.AdmitRefused` | src/ingress/mod.rs:477-536 | While shutting down admission only counts refusals |
| `PushLaws.OthersUntouched` | src/ingress/mod.rs:491-497 | A push on one class leaves every other class and the flag alone |
| `PushLaws.DepthOfAll` | src/daemon.rs:549-563 | The depth reported is that of all four classes |
| `PushLaws.PartsOfPacket` | src/ingress/mod.rs:502-536 | The sensory part is everything but the modulators, the reward part nothing but them |
| `PushLaws.DrainHandsOut` | src/ingress/mod.rs:542-550 | What a drain hands out is what it removes from the front of each class, control and telemetry whole |
| `PushLaws.MergeTakesReward` | src/ingress/mod.rs:415-426 | A merged packet is the sensory one with the modulators of the reward packet alone |
| `Ingress.BoundedIngress.New` | src/ingress/mod.rs:442-467 | Exactly the validated configurations make four empty open queues |
| `Ingress.BoundedIngress.Enqueue` | src/ingress/mod.rs:477-489 | Refused when shutting down, else a push on the queue of its class and no other |
| `Ingress.BoundedIngress.TryPush` | src/ingress/mod.rs:491-497 | A push that never waits, on one class only |
| `Ingress.BoundedIngress.Admit` | src/ingress/mod.rs:499-536 | Stimuli go to sensory, modulators to reward, empty vectors nowhere |
| `Ingress.BoundedIngress.DrainForTick` | src/ingress/mod.rs:542-550 | All control, one reward, one sensory, all telemetry |
| `Ingress.BoundedIngress.CloseAll` | src/ingress/mod.rs:552-558 | The flag and all four queues are closed, contents kept |
| `IngressSpec.TickNeverDeepens` | src/ingress/mod.rs:502-550 | With no other producer a tick deepens no class and empties control and telemetry |
| `IngressSpec.AdmittedPacketComesBack` | src/ingress/mod.rs:415-426 | From empty queues, admit, drain and merge return the admitted packet |
| `IngressRuns.EveryRunConserves` | src/ingress/mod.rs:477-550 | Over every interleaving of the four queues each class conserves its packets and none is closed before the flag |
| `IngressRuns.MovesTheirOwnClass` | src/ingress/mod.rs:477-558 | Every move of any thread is one step of the queue of its own class, with its own packet, and touches no other |
| `IngressRuns.RefusedInItsOwnClass` | src/ingress/mod.rs:477-484 | A push that begins after the flag touches only the refusal count of its own class |
| `IngressRuns.RefusalStands` | src/ingress/mod.rs:477-484 | Nothing another thread does turns that refusal into anything else |
| `IngressRuns.ShutdownIsFinal` | src/ingress/mod.rs:552-558 | After shutdown returned, racing and waiting producers included, no class accepts or rejects anything, refusals account for every push, and queued packets remain deliverable |
| `Source.ZmqStimulusSource.NextIngress` | src/backend.rs:297-345 | The bounded drain loop equals the reception function, with held modulators and the remaining frames |
| `Source.ZmqStimulusSource.HoldModulators` | src/backend.rs:253-261 | Modulators are held exactly when all are finite |
| `SourceSpec.DeliveryIgnoresTicks` | src/backend.rs:297-345 | For any split of frames over calls, outputs so far followed by those still queued equal the frame-by-frame reference with the last accepted modulators attached |
| `SourceSpec.ReceiveTakesPrefix` | src/backend.rs:300-342 | A call consumes a prefix of the stream, at least one frame if any and at most its budget |
| `SourceSpec.EverythingComesOut` | src/backend.rs:297-345 | Enough further calls deliver every frame |
| `SourceSpec.HeldStaysFinite` | src/backend.rs:253-293 | No call ever holds or hands out non-finite modulators |
| `SourceSpec.IdleReplaysHeld` | src/backend.rs:263-273 | An idle call hands out nothing but the last accepted modulators, or None exactly if there are none; a flagged packet carries them too |
| `SourceSpec.OneFlagPerRefusal` | src/backend.rs:300-342 | Every refused frame comes out as one flagged packet, and nothing else does |
| `SourceSpec.CallDrains32` | src/backend.rs:297-345 | Of frames that do not end it a call takes thirty-two |
| `Health.HealthMachine.ApplyEvent` | src/health/machine.rs:130-230 | Every event, through its handlers, equals the transition function |
| `Health.HealthMachine.Snapshot` | src/health/machine.rs:232-381 | Readiness, phase, reasons and staleness of a snapshot |
| `HealthSpec.SanitizedIsOk` | src/health/machine.rs:34-53 | Sanitized watermarks are ordered and in range; good ones are kept |
| `HealthSpec.ReadyIff` | src/health/machine.rs:154-208 | Ready exactly when the trace holds start, initialization and checkpoint in that order and no drain, fatal or boot failure |
| `HealthSpec.SnapshotCoherent` | src/health/machine.rs:258-369 | Ready iff Running or Degraded; no reasons iff Running; flags imply their predecessors |
| `HealthSpec.OverloadIsLatestVerdict` | src/health/machine.rs:383-393 | Overloaded exactly when the latest sample outside the open band was high, capacity zero counting as low |
| `HealthSpec.EndedForGood` | src/health/machine.rs:198-208 | No trace leaves draining or fatal, the first fatal stays, counters never fall |
| `HealthSpec.PublishShowsLatest` | src/health/snapshot.rs:134-147 | A publish shows exactly the published counters iff none moved backwards |
| `HealthTraces.StaleIffLate` | src/health/machine.rs:371-380 | Over traces: a ready machine is stale exactly when the limit has passed since the newest ingress, or since the accepted checkpoint without any; without a valid checkpoint never |
| `HealthTraces.PhaseTellsTrace` | src/health/machine.rs:331-369 | The phase of every snapshot, decided by the trace and the time alone |
| `HealthTraces.ReasonsTellState` | src/health/machine.rs:299-329 | A fatal machine gives one reason; any other lists exactly those that apply, in a fixed order |
| `HealthTraces.StampsTellTrace` | src/health/machine.rs:130-230 | Every stamp, the checkpoint, the pressure sample, the drain and the fatal report are those of the trace: first fatal, first start, latest of the rest |
| `HealthTraces.CountersAreMaxima` | src/health/snapshot.rs:134-147 | The counters shown are the least that no published counter exceeds |
| `HealthTraces.DefaultWatermarks` | src/health/machine.rs:34-53 | A missing watermark takes its default, an unusable pair takes both |
| `Limiter.OccurrenceLimiter.RecordOccurrence` | src/daemon.rs:692-720 | The in-place limiter equals the recording function |
| `LimiterSpec.RateBound` | src/daemon.rs:692-720 | n occurrences over a span give at most one report per interval and per gap, and reports plus suppressed reach the last report |
| `LimiterSpec.ReportedWhenDue` | src/daemon.rs:692-720 | An occurrence is reported exactly if it is the first, or on a multiple of the interval a minimal gap after the last report; and tells how many were suppressed |
| `LimiterSpec.NewFailureReported` | src/daemon.rs:699-704 | A new key is reported at once |
| `LimiterSpec.NoTimePassed` | src/daemon.rs:707-711 | A clock reading before the last report counts as no time passed |
| `Decode.DecodeInputs` | src/daemon.rs:1067-1098 | The reused buffer depends only on this packet and the modulators fall back to defaults |
| `Decode.DecodeEvent` | examples/usefulness_inprocess.rs:361-384 | The drivers' decoder gives what the daemon's gives on the packet of the event |
| `Decode.EventReads` | examples/usefulness_inprocess.rs:361-384 | An event is read by its values under its mask and its modulators in the order of the daemon |
| `Decode.ApplyMask` | src/daemon.rs:1075-1081 | Masked channels become zero and no other changes |
| `Decode.ChannelReads` | src/daemon.rs:1067-1085 | A channel reads its value unless it lies beyond the values or the mask says no |
| `Decode.ModulatorsRead` | src/daemon.rs:1086-1098 | Four modulators are read by position, fewer mean all defaults |
| `Decode.ZeroedIsMasked` | examples/usefulness_secondary_common/mod.rs:132-147 | Zeroed and masked inputs decode alike at every width, iff the mask covers every nonzero value |
| `Decode.UnmaskedDiffers` | examples/usefulness_secondary_common/mod.rs:132-147 | Dropping the mask changes the inputs exactly when it hides a nonzero value on a channel |
| `TickLoop.FirstNonFinite` | src/ingress/mod.rs:93-105 | The first offender, stimuli before modulators, or none iff all are finite |
| `TickLaws.GatesPassNumbers` | src/ingress/mod.rs:93-105 | A packet passes a gate exactly if every stimulus and every modulator in it is a number |
| `TickLoop.BrainstemLoop.TakeInput` | src/daemon.rs:872-924 | Receive errors, the first gate, observation and admission equal the input phase |
| `TickLoop.BrainstemLoop.AccountAndAdmitPacket` | src/daemon.rs:778-796 | A flagged packet is counted once and admitted only if finite |
| `TickLoop.BrainstemLoop.PublishSpikes` | src/daemon.rs:967-1045 | Counting, narrowing of ids, the dropped-only exit and the emit failure equal the spike phase |
| `TickLoop.BrainstemLoop.NarrowIds` | src/daemon.rs:975-990 | The spike buffer holds exactly the fitting ids and the loss count is the rest |
| `TickLoop.BrainstemLoop.RunTick` | src/daemon.rs:858-1046 | One tick over queues, health, statistics and limiters equals the tick function |
| `TickLoop.BrainstemLoop.RunTickPublished` | src/daemon.rs:842-856 | Counters are published on every way out |
| `TickRuns.TickMoves` | src/daemon.rs:858-1046 | Whatever the counters and whatever others do to the queues in between, one tick moves every counter by exactly what happened in it, wrapping or saturating as the code does; a report counts as emitted if its own limiter lets it through |
| `TickRuns.EveryTickAccounted` | src/daemon.rs:842-1046 | From a new daemon, over any number of ticks every counter is its total modulo 2^64 or saturated; up to 2^64 / 3 ticks rejections, reports and calls balance exactly and health shows exactly the counters |
| `TickRuns.TurnIsTick` | src/daemon.rs:842-856 | With nobody else at the queues a turn of such a run is exactly the tick |
| `TickRuns.KeptAreTheFitting` | src/daemon.rs:975-990 | Every fitting id reaches the sink as often as the network gave it, and no other |
| `TickLaws.KeptInOrder` | src/daemon.rs:975-990 | The ids that fit go out in the order the network gave them |
| `TickRuns.NetworkSeesOnlyGiven` | src/daemon.rs:939-956 | The tick consults the network at one input at most |
| `TickRuns.NetworkInputsFinite` | src/daemon.rs:930-956 | That input is finite and one value per channel |
| `TickRuns.GatedPacketNeverQueued` | src/daemon.rs:896-924 | A non-finite source packet, flagged or not, leaves no trace in the queues |
| `TickRuns.NetworkStepsOnReceived` | src/daemon.rs:914-956 | From empty queues the network steps on exactly the received packet |
| `Pipeline.NetworkHearsDelivery` | src/daemon.rs:858-956 | However frames fall into ticks, from empty queues the network steps on exactly the finite, admissible packets of the frame-by-frame reference, in order, with the last accepted modulators |
| `Pipeline.QuietTickReplays` | src/backend.rs:263-344 | From empty queues, after any ticks, a quiet tick works on no stimuli and the admissible last accepted modulators |
| `TickRuns.FatalExactlyOnFailure` | src/daemon.rs:956-1044 | A tick turns health fatal exactly when the network or the sink failed |
| `TickRuns.TickStamps` | src/daemon.rs:914-1046 | Only finite input refreshes freshness; only failures withhold the tick stamp |
| `TickLaws.TickTellsPressure` | src/daemon.rs:549-563 | A tick tells health the depths and capacities summed over the classes after the drain; overload sets in at the high watermark, ends at the low one |
| `TickLaws.TickRemembersBatch` | src/daemon.rs:778-796 | The last accepted batch and its mask are remembered, and no other packet touches them |
| `TickLaws.FatalTellsTrouble` | src/daemon.rs:956-1044 | The fatal report carries the words of the network or the sink that failed |
| `TickLaws.InputReports` | src/daemon.rs:751-775 | Receive errors and non-finite packets go through their own limiters under their own keys |
| `TickLaws.WorkReports` | src/daemon.rs:930-1044 | So do drained non-finite packets, dropped spikes and emit errors |
| `TickLaws.Utf8Decodes` | src/daemon.rs:728-732 | The bytes a message is hashed over decode to its characters |
| `TickLaws.KeyIsPolynomial` | src/daemon.rs:728-732 | The key of a message is the value of its bytes in base 31, modulo 2^64 |
| `Lif.ReferenceNetwork.New` | experiments/usefulness/reference_model.py:38-50 | Exactly the rows within tolerance of the budget make a bank at rest |
| `Lif.ReferenceNetwork.Retune` | experiments/usefulness/reference_model.py:62-73 | Thresholds and decays follow the modulators neuron by neuron |
| `Lif.ReferenceNetwork.Encode` | experiments/usefulness/reference_model.py:75-83 | Drive and predictions per channel, channels without stimulus untouched |
| `Lif.ReferenceNetwork.Integrate` | experiments/usefulness/reference_model.py:85-94 | Charged and leaked potentials, and the least distance to a threshold |
| `Lif.ReferenceNetwork.Fire` | experiments/usefulness/reference_model.py:96-105 | Neurons at or above threshold fire, reset and are listed in order |
| `Lif.ReferenceNetwork.Inhibit` | experiments/usefulness/reference_model.py:107-114 | If anything fired, every other neuron loses the inhibition, not below zero |
| `Lif.ReferenceNetwork.Advance` | experiments/usefulness/reference_model.py:52-60 | One tick in place equals the step function; the spikes and margin are those of the tick |
| `LifLaws.ThresholdMoves` | experiments/usefulness/reference_model.py:62-73 | A threshold moves half the dopamine times the distance to its goal, which is 0.005 higher after a spike and 0.001 lower after silence; both cut to [0.05, 0.50] |
| `LifLaws.SpikedNeverBelowSilent` | experiments/usefulness/reference_model.py:70-73 | From equal thresholds a neuron that spiked never ends below one that did not |
| `LifLaws.NeuronByNeuron` | experiments/usefulness/reference_model.py:85-114 | A neuron fires exactly if its charged potential reaches its threshold and is then at rest; if any fired every other loses 0.05, not below zero |
| `LifLaws.PredictionCloses` | experiments/usefulness/reference_model.py:75-83 | Predictions close a tenth of the gap to the size of the stimulus, and half the gap adds to the drive |
| `LifLaws.ChannelByChannel` | experiments/usefulness/reference_model.py:75-83 | Drive and predictions channel by channel; a channel without stimulus keeps its prediction |
| `LifLaws.CurrentUnderStress` | experiments/usefulness/reference_model.py:85-91 | Norepinephrine scales the current down to a tenth of 0.45 of the weighted sum |
| `LifLaws.DotIsWeighted` | experiments/usefulness/reference_model.py:89-90 | Changing one channel changes the weighted sum by the weight of that channel |
| `LifLaws.IdsIncrease` | experiments/usefulness/reference_model.py:96-105 | The neurons that fired are listed in increasing order |
| `LifLaws.BudgetCheck` | experiments/usefulness/reference_model.py:48-50 | Rows pass exactly within a tolerance of 1e-12 of the budget of two |
| `LifLaws.StartsAtRest` | experiments/usefulness/reference_model.py:38-47 | A bank starts with nothing charged, fired or predicted |
| `LifBounds.LeakKeepsSign` | experiments/usefulness/reference_model.py:52-114 | A tick keeps the potentials of every bank with non-negative rows non-negative iff acetylcholine is at least -17 |
| `LifBounds.ReachableBounded` | experiments/usefulness/reference_model.py:52-114 | Every reachable state, whatever the weights and modulators: potentials below threshold, thresholds in [0.05, 0.50], predictions in [0, 1]; potentials never negative with non-negative weights and acetylcholine at least -17 |
| `LifBounds.QuietEnvelope` | experiments/usefulness/reference_model.py:75-94 | Quiet ticks: potentials at most 3.825 s 0.9^n for row weight s, which is 7.65 0.9^n at weight 2 |
| `LifBounds.SilentFromTick48` | experiments/usefulness/reference_model.py:85-105 | No neuron fires from the 48th quiet tick on |
| `LifBounds.SilentAfterAnyRun` | experiments/usefulness/reference_model.py:52-114 | The same after any run from rest, whatever it heard |

## Left out

- PushTerminates: elapsed time is counted in nanoseconds that pass during waits; time spent holding the lock is not modelled.
- EveryTickAccounted: health is related to the counters only up to 2^64 / 3 ticks, after which a plain counter may have wrapped and a publish keeps the larger value.
- SilentAfterAnyRun: asks for non-negative weights, as does QuietEnvelope; the source checks only the sum of a row.
- The queue counters' wrap-around at 2^64, and the wait-time statistics beyond their update.
- The 32-bit rounding of stimuli, ratios and the neuron model; the f64 division of the overload ratio is exact.
- The spiking network of the external crate and its random numbers: a parameter.
- ZeroMQ sockets, wire decoding, subscriber loss, signals, the select loop and start-up: a frame is its decoding verdict, a send may fail.
- JSON and SHA-256 encodings; the durable blob is an encoded state or unparsable.
- The control surface, Prometheus text and the millisecond ages of a snapshot: formatting.
- Checkpoint file resolution, configuration parsing, logging and the service registry: flat validation.
- Expansion of experiment workloads into ticks, and the measurement scripts.
- Overflow log throttling, log output and wall-clock stamps on spikes: no effect on the modelled state.
- Lock poisoning and memory ordering.
