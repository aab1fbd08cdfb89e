/** Packets, classes, policies and limits of the ingress queues (src/ingress/mod.rs, src/backend.rs). */
module IngressTypes {
  import opened Prelude

  const NEUROMODULATOR_COUNT: nat := 4
  const MAX_QUEUE_CAPACITY: nat := 16_384
  const MAX_BLOCK_TIMEOUT_MS: nat := 86_400_000
  const MAX_PAYLOAD_LEN: nat := 1_048_576

  predicate AllFinite(values: seq<Float>) {
    forall v :: v in values ==> v.IsFinite()
  }

  datatype IngressPacket = IngressPacket(
    stimuli: seq<Float>,
    modulators: Option<seq<Float>>,
    validMask: Option<seq<bool>>,
    batchId: Option<u64>,
    timestampNs: Option<u64>,
    sessionId: Option<string>,
    rejected: bool)
  {
    static function Default(): IngressPacket {
      IngressPacket([], None, None, None, None, None, false)
    }
  }

  datatype MessageClass = Sensory | Reward | Control | Telemetry

  datatype OverflowPolicy = BlockTimeout | Reject | DropOldest | Coalesce

  datatype EnqueueOutcome =
    | Accepted(depth: nat)
    | DroppedOldest(depth: nat)
    | Coalesced(depth: nat)
    | Rejected
    | Shutdown
  {
    predicate Queued() {
      Accepted? || DroppedOldest? || Coalesced?
    }
  }

  datatype WaitMode = HonorPolicy | Never

  datatype IngressConfig = IngressConfig(
    capacity: map<MessageClass, nat>,
    policy: map<MessageClass, OverflowPolicy>,
    blockTimeoutMs: nat,
    maxPayloadLen: nat)
  {
    predicate Total() {
      forall c: MessageClass :: c in capacity && c in policy
    }

    predicate Validate()
      requires Total()
    {
      && 1 <= maxPayloadLen <= MAX_PAYLOAD_LEN
      && blockTimeoutMs <= MAX_BLOCK_TIMEOUT_MS
      && 1 <= capacity[Sensory] <= MAX_QUEUE_CAPACITY && 1 <= capacity[Reward] <= MAX_QUEUE_CAPACITY
      && 1 <= capacity[Control] <= MAX_QUEUE_CAPACITY && 1 <= capacity[Telemetry] <= MAX_QUEUE_CAPACITY
    }
  }
}
