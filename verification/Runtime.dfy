/** Vocabulary of the restart contract (src/runtime/mod.rs, fakes.rs, inject.rs, clock.rs). */
module Runtime {
  import opened Prelude
  import opened Durable

  datatype Boundary = Initialize | CheckpointValidation | Ingress | TickExecute | MetricPublish | Shutdown

  datatype FaultPoint =
    | Before(boundary: Boundary)
    | After(boundary: Boundary)
    | MalformedCheckpoint
    | CoreStepError
    | ClosedChannel
    | BackpressureTimeout
    | InterruptedShutdown

  datatype Health =
    | Starting | Live | CheckpointInvalid | Degraded | Faulted | ShuttingDown | Stopped | IncompleteShutdown

  datatype RestartOutcome = FreshStart | RecoveredClean | RecoveredIncomplete | RejectedInvalid

  datatype Packet = Packet(seqNo: u64, stimuli: seq<Float>)

  datatype CommittedOutput = CommittedOutput(
    sessionId: u64, tickSeq: u64, ingressSeq: u64, spikeIds: seq<nat>, timeNs: u64)

  datatype MetricEvent = MetricEvent(sessionId: u64, tickSeq: u64, ingressSeq: u64)

  datatype TickResult = Committed | SkippedReplay | NoIngress

  datatype Error =
    | Injected(point: FaultPoint)
    | MalformedBlob | InvalidDurable | TickSequenceOverflow | SessionIdOverflow
    | NotStarted | StepLimit | ChannelClosed | CoreFailed | Backpressure | PublishClosed | ShutdownInterrupted

  const MAX_STEPS: u32 := 64
  const TICK_PERIOD_NS: u64 := 1_000_000
  const BACKPRESSURE_BUDGET_NS: u64 := 10_000_000
  const MAX_SPIKE_ID: nat := 65_535

  /** The ids, from `from` on, that the fake core reports: above one half and fitting 16 bits. */
  function SpikesFrom(stimuli: seq<Float>, from: nat): seq<nat>
    requires from <= |stimuli|
    decreases |stimuli| - from
  {
    if from == |stimuli| then []
    else
      (if stimuli[from].GreaterThan(0.5) && from <= MAX_SPIKE_ID then [from] else [])
      + SpikesFrom(stimuli, from + 1)
  }

  /** Above one half, positive infinity included and NaN not. */
  predicate IsLoud(value: Float) {
    value.PosInf? || (value.Finite? && value.r > 0.5)
  }

  /** Exactly the ids from `from` on of loud channels that fit 16 bits, in increasing order. */
  ghost predicate AreTheLoud(ids: seq<nat>, stimuli: seq<Float>, from: nat) {
    && (forall i :: i in ids <==> from <= i < |stimuli| && i <= 65_535 && IsLoud(stimuli[i]))
    && (forall j, k :: 0 <= j < k < |ids| ==> ids[j] < ids[k])
  }

  lemma OneMoreId(rest: seq<nat>, stimuli: seq<Float>, from: nat)
    requires from < |stimuli| && AreTheLoud(rest, stimuli, from + 1)
    ensures if IsLoud(stimuli[from]) && from <= 65_535 then AreTheLoud([from] + rest, stimuli, from)
            else AreTheLoud(rest, stimuli, from)
  {
    assert forall k :: 0 <= k < |rest| ==> rest[k] in rest;
  }

  /** The fake core reports exactly the loud channels. */
  lemma {:induction false} SpikesAreTheLoud(stimuli: seq<Float>, from: nat)
    requires from <= |stimuli|
    ensures AreTheLoud(SpikesFrom(stimuli, from), stimuli, from)
    decreases |stimuli| - from
  {
    hide AreTheLoud, IsLoud;
    if from == |stimuli| {
      NoneLeft(stimuli);
    } else {
      OneMoreSpike(stimuli, from);
      SpikesAreTheLoud(stimuli, from + 1);
      OneMoreId(SpikesFrom(stimuli, from + 1), stimuli, from);
    }
  }

  lemma NoneLeft(stimuli: seq<Float>)
    ensures AreTheLoud([], stimuli, |stimuli|)
  {
  }

  lemma OneMoreSpike(stimuli: seq<Float>, from: nat)
    requires from < |stimuli|
    ensures SpikesFrom(stimuli, from) ==
            if IsLoud(stimuli[from]) && from <= 65_535 then [from] + SpikesFrom(stimuli, from + 1)
            else SpikesFrom(stimuli, from + 1)
  {
    assert [] + SpikesFrom(stimuli, from + 1) == SpikesFrom(stimuli, from + 1);
  }

  /** Health the harness assigns when a fault fires. */
  function InjectedTerminalHealth(point: FaultPoint): Health {
    match point
    case Before(Initialize) | After(Initialize) | Before(CheckpointValidation)
      | After(CheckpointValidation) | Before(TickExecute) | After(TickExecute)
      | After(MetricPublish) | After(Shutdown) | CoreStepError => Faulted
    case MalformedCheckpoint => CheckpointInvalid
    case Before(Ingress) | After(Ingress) | ClosedChannel | Before(MetricPublish) | BackpressureTimeout => Degraded
    case Before(Shutdown) | InterruptedShutdown => IncompleteShutdown
  }
}
