/** The state that survives a restart, and the one blob that holds it (src/runtime/durable.rs). */
module Durable {
  import opened Prelude

  const DURABLE_SCHEMA_VERSION: u32 := 1
  const FAKE_CHECKPOINT_ID := "fake-core-v1"

  /** The write-ahead record of the tick in progress: whose it is, and which numbers it will use. */
  datatype InflightRecord = InflightRecord(sessionId: u64, tickSeq: u64, ingressSeq: u64)

  datatype DurableState = DurableState(
    schemaVersion: u32,
    checkpointId: string,
    lastSessionId: u64,
    committedTickSeq: u64,
    committedIngressSeq: u64,
    inflight: Option<InflightRecord>)
  {
    static function Fresh(): DurableState {
      DurableState(DURABLE_SCHEMA_VERSION, FAKE_CHECKPOINT_ID, 0, 0, 0, None)
    }

    predicate Validate() {
      ValidateIdentity() && ValidateSession() && ValidateInflight()
    }

    /** The emptiness and control-character tests of the source are subsumed by the comparison. */
    predicate ValidateIdentity() {
      schemaVersion == DURABLE_SCHEMA_VERSION && checkpointId == FAKE_CHECKPOINT_ID
    }

    predicate ValidateSession() {
      lastSessionId == 0 ==> committedTickSeq == 0 && committedIngressSeq == 0 && inflight.None?
    }

    predicate ValidateInflight() {
      inflight.Some? ==>
        && committedTickSeq < U64_MAX
        && inflight.value.tickSeq == committedTickSeq + 1
        && inflight.value.sessionId == lastSessionId
        && inflight.value.ingressSeq > committedIngressSeq
    }
  }

  /** The stored bytes: none, bytes that do not parse, or the encoding of a state. */
  datatype Blob = Absent | Garbage | Encoded(state: DurableState)

  datatype Loaded = FirstBoot | Found(state: DurableState) | Invalid

  /** Parsing ends with validation, so an encoded but invalid state is rejected as well. */
  function Load(blob: Blob): Loaded {
    match blob
    case Absent => FirstBoot
    case Garbage => Invalid
    case Encoded(state) => if state.Validate() then Found(state) else Invalid
  }
}
