/** Vocabulary shared by every part of the model: identifiers, time, the 32-bit counters, the envelope
    that travels through the in-memory channel, and the verdict a negative acknowledgement reaches. */
module Core {
  type Id = string

  /** Nanoseconds since the Unix epoch, the resolution of a UTC timestamp in the source. */
  type Time = int

  /** Payload, headers and routing key together: carried unchanged and never inspected. */
  type Body = string

  datatype Option<+T> = None | Some(value: T)

  const U32_MAX: nat := 0xFFFF_FFFF

  type U32 = n: nat | n <= U32_MAX witness 0

  /** `n += 1` on a u32: wraps in a release build (a debug build panics exactly where this wraps). */
  function Inc(n: U32): U32 {
    if n == U32_MAX then 0 else n + 1
  }

  datatype Envelope = Envelope(id: Id, body: Body, count: U32, firstDelivered: Time)

  /** The nack count from which a message is no longer requeued. */
  function Limit(dlq: Option<U32>): U32 {
    match dlq
    case Some(max) => max
    case None => U32_MAX
  }

  /** How many deliveries a message can have. A limit of 0, which the public field of the configuration
      allows, behaves like 1. */
  function MaxAttempts(dlq: Option<U32>): U32 {
    if Limit(dlq) == 0 then 1 else Limit(dlq)
  }

  function Tally(counts: map<Id, U32>, id: Id): U32 {
    if id in counts then counts[id] else 0
  }

  /** `*counts.entry(id).or_insert(0) += 1` */
  function Counted(counts: map<Id, U32>, id: Id): map<Id, U32> {
    counts[id := Inc(Tally(counts, id))]
  }

  datatype Verdict =
    | Requeue(env: Envelope)
    | DeadLetter(env: Envelope)
    | Discard

  function Redelivery(e: Envelope): Envelope {
    e.(count := Inc(e.count))
  }

  /** The branch a nack takes once it has counted itself. */
  function Judge(dlq: Option<U32>, tally: U32, e: Envelope): Verdict {
    if tally >= Limit(dlq) then
      if dlq.Some? then DeadLetter(Redelivery(e)) else Discard
    else
      Requeue(Redelivery(e))
  }
}
