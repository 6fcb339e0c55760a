/** The wire format every job travels in (crates/core/src/envelope.rs). */
module Envelopes {
  newtype byte = x: int | 0 <= x < 256

  /** A Rust string: its UTF-8 bytes, so that lengths are byte lengths. */
  type Text = seq<byte>

  const U32_MAX: nat := 0xFFFF_FFFF

  type u32 = n: nat | n <= U32_MAX
  type u8 = n: nat | n <= 255

  datatype Option<+T> = None | Some(value: T)

  datatype Envelope = Envelope(
    jobId: nat,
    jobType: Text,
    queue: Text,
    attempt: u32,
    enqueuedAtMs: nat,
    deferrals: nat,
    priority: u8,
    correlationId: Option<Text>,
    payload: Text)
  {
    /** Copy with `attempt` incremented and `priority` back at 0. */
    function NextAttempt(): Envelope
      requires attempt < U32_MAX
    {
      this.(attempt := attempt + 1, priority := 0)
    }

    /** Copy for a deferral: `deferrals + 1` and the given priority. */
    function Deferred(p: u8): Envelope {
      this.(deferrals := deferrals + 1, priority := p)
    }
  }

  /** Two envelopes carry the same job: every field no scheduling action may touch agrees. */
  predicate SameJob(a: Envelope, b: Envelope) {
    && a.jobId == b.jobId
    && a.jobType == b.jobType
    && a.queue == b.queue
    && a.enqueuedAtMs == b.enqueuedAtMs
    && a.correlationId == b.correlationId
    && a.payload == b.payload
  }
}
