/** The idempotency store consulted by the hold-event handlers: a log of
    processed inbound events keyed by event id, each with the hash of the
    payload it carried and the outcome of processing it.

    `ProcessedEventService` and `EventIdGenerator` are not part of this
    model; their behaviour is inferred from use. The event id is a
    deterministic function of (event type, transaction id) and the payload
    hash an opaque function of the whole event: both are modelled as
    injective, i.e. two different keys or payloads never collide. */
module Idempotency {
  import opened Messages

  /** `generateEventId(eventType, transactionId)`. */
  datatype EventKey = EventKey(eventType: string, transactionId: int)

  /** `generatePayloadHash` of an event's serialised form; `EmptyHash` is the
      empty string the handlers record with a failure. */
  datatype PayloadHash = EmptyHash | Digest(event: HoldEvent)

  datatype ProcessingStatus = SUCCESS | FAILED | SKIPPED

  datatype ProcessedEvent = ProcessedEvent(eventId: EventKey, payloadHash: PayloadHash, status: ProcessingStatus)

  function GenerateEventId(eventType: string, transactionId: int): EventKey
  {
    EventKey(eventType, transactionId)
  }

  function GeneratePayloadHash(event: HoldEvent): PayloadHash
  {
    Digest(event)
  }

  /** `isEventProcessed`: some record carries this event id. */
  predicate EventProcessed(records: map<EventKey, ProcessedEvent>, eventId: EventKey)
  {
    eventId in records
  }

  /** `isPayloadProcessed`: some record carries this payload hash. */
  predicate PayloadProcessed(records: map<EventKey, ProcessedEvent>, hash: PayloadHash)
  {
    exists k :: k in records && records[k].payloadHash == hash
  }

  /** Every record is filed under its own event id. */
  predicate RecordsKeyed(records: map<EventKey, ProcessedEvent>)
  {
    forall k :: k in records ==> records[k].eventId == k
  }

  class ProcessedEventService {
    var records: map<EventKey, ProcessedEvent>

    ghost predicate Valid()
      reads this
    {
      RecordsKeyed(records)
    }

    constructor ()
      ensures Valid() && records == map[]
    {
      records := map[];
    }

    function IsEventProcessed(eventId: EventKey): bool
      reads this
    {
      EventProcessed(records, eventId)
    }

    function IsPayloadProcessed(hash: PayloadHash): bool
      reads this
    {
      PayloadProcessed(records, hash)
    }

    method MarkEventAsProcessed(eventId: EventKey, hash: PayloadHash, status: ProcessingStatus)
      requires Valid()
      modifies this
      ensures Valid()
      ensures records == old(records)[eventId := ProcessedEvent(eventId, hash, status)]
    {
      records := records[eventId := ProcessedEvent(eventId, hash, status)];
    }
  }
}
