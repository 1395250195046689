/** The two outbox publishing loops. Each fetches the first `batchSize`
    PENDING events and walks them in order: it hands an event to the stream
    and marks it PUBLISHED, or marks it FAILED when the send throws, and goes
    on with the next event either way.

    `OutboxEventPublishingScheduler` sends only `transaction.authorized`
    events and marks every other type PUBLISHED without sending it;
    `OutboxEventPublisher` sends every event. The stream is the oracle
    `delivered` (does the send of this event succeed), and one cycle stamps
    every event it publishes with the same instant `now`. */
module Publishing {
  import Model
  import Decimal
  import opened Outbox

  /** A message as handed to the stream: the aggregate id as a decimal
      string for key, and the stored payload unchanged. */
  datatype StreamMessage = StreamMessage(key: string, payload: Model.Payload)

  function MessageOf(e: OutboxEvent): (m: StreamMessage)
    ensures Decimal.ParseDecimal(m.key) == Model.Some(e.aggregateId)
    ensures m.payload == e.payload
  {
    Decimal.DecimalRoundTrip(e.aggregateId);
    StreamMessage(Decimal.DecimalString(e.aggregateId), e.payload)
  }

  /** The messages for a list of events, one each, in order. */
  function Messages(events: seq<OutboxEvent>): (r: seq<StreamMessage>)
    ensures |r| == |events|
    ensures forall i :: 0 <= i < |events| ==> r[i] == MessageOf(events[i])
  {
    seq(|events|, i requires 0 <= i < |events| => MessageOf(events[i]))
  }

  predicate IsStreamed(e: OutboxEvent)
  {
    e.eventType == TRANSACTION_AUTHORIZED
  }

  /** The `transaction.authorized` events of a list, in order. */
  function AuthorizedEvents(events: seq<OutboxEvent>): (r: seq<OutboxEvent>)
    ensures |r| <= |events|
    ensures forall e :: e in r <==> e in events && IsStreamed(e)
    ensures events != [] ==>
      r == AuthorizedEvents(events[..|events| - 1])
           + (if IsStreamed(events[|events| - 1]) then [events[|events| - 1]] else [])
  {
    if events == [] then []
    else
      var last := events[|events| - 1];
      AuthorizedEvents(events[..|events| - 1]) + (if IsStreamed(last) then [last] else [])
  }

  /** The scheduler publishes an event unless it is streamed and its send fails. */
  function SchedulerOutcome(delivered: OutboxEvent -> bool): OutboxEvent -> bool
  {
    e => !IsStreamed(e) || delivered(e)
  }

  lemma MessagesAppend(a: seq<OutboxEvent>, b: seq<OutboxEvent>)
    ensures Messages(a + b) == Messages(a) + Messages(b)
  {
  }

  /** After a scheduler cycle, an event of the batch is PUBLISHED exactly when
      it is not `transaction.authorized` or its send succeeded, and FAILED
      otherwise; events outside the batch are as they were. */
  lemma SchedulerCycleEffect(events: seq<OutboxEvent>, batchSize: nat, delivered: OutboxEvent -> bool, now: nat, i: nat)
    requires IdsAreIndices(events) && i < |events|
    ensures var r := MarkAll(events, FetchPending(events, batchSize), SchedulerOutcome(delivered), now);
      && (Selected(events, batchSize, i) && !IsStreamed(events[i]) ==> r[i].status == PUBLISHED)
      && (Selected(events, batchSize, i) && IsStreamed(events[i]) ==> (r[i].status == PUBLISHED <==> delivered(events[i])))
      && (Selected(events, batchSize, i) ==> r[i].status in {PUBLISHED, FAILED})
      && (!Selected(events, batchSize, i) ==> r[i] == events[i])
  {
    PublishCycleEffect(events, batchSize, SchedulerOutcome(delivered), now, i);
  }

  /** After a cycle of the send-everything publisher, an event of the batch is
      PUBLISHED exactly when its send succeeded, and FAILED otherwise. */
  lemma PublisherCycleEffect(events: seq<OutboxEvent>, batchSize: nat, delivered: OutboxEvent -> bool, now: nat, i: nat)
    requires IdsAreIndices(events) && i < |events|
    ensures var r := MarkAll(events, FetchPending(events, batchSize), delivered, now);
      && (Selected(events, batchSize, i) ==> (r[i].status == PUBLISHED <==> delivered(events[i])))
      && (Selected(events, batchSize, i) ==> r[i].status in {PUBLISHED, FAILED})
      && (!Selected(events, batchSize, i) ==> r[i] == events[i])
  {
    PublishCycleEffect(events, batchSize, delivered, now, i);
  }

  /** One scheduler iteration: the store after the next event and the
      messages sent so far, as its two branches leave them. */
  lemma SchedulerStep(stored: seq<OutboxEvent>, events: seq<OutboxEvent>, k: nat, delivered: OutboxEvent -> bool, now: nat)
    requires k < |events|
    ensures var e := events[k];
      var before := MarkAll(stored, events[..k], SchedulerOutcome(delivered), now);
      var after := MarkAll(stored, events[..k + 1], SchedulerOutcome(delivered), now);
      && (e.eventId < |before| && (!IsStreamed(e) || delivered(e)) ==>
            after == before[e.eventId := e.(status := PUBLISHED, publishedAt := Model.Some(now))])
      && (e.eventId < |before| && IsStreamed(e) && !delivered(e) ==>
            after == before[e.eventId := e.(status := FAILED)])
      && Messages(AuthorizedEvents(events[..k + 1]))
         == Messages(AuthorizedEvents(events[..k])) + (if IsStreamed(e) then [MessageOf(e)] else [])
  {
    MarkAllStep(stored, events, k, SchedulerOutcome(delivered), now);
    assert events[..k + 1][..k] == events[..k];
    MessagesAppend(AuthorizedEvents(events[..k]), if IsStreamed(events[k]) then [events[k]] else []);
  }

  /** One publisher iteration, as its two branches leave the store and the
      messages sent so far. */
  lemma PublishStep(stored: seq<OutboxEvent>, events: seq<OutboxEvent>, k: nat, delivered: OutboxEvent -> bool, now: nat)
    requires k < |events|
    ensures var e := events[k];
      var before := MarkAll(stored, events[..k], delivered, now);
      var after := MarkAll(stored, events[..k + 1], delivered, now);
      && (e.eventId < |before| && delivered(e) ==>
            after == before[e.eventId := e.(status := PUBLISHED, publishedAt := Model.Some(now))])
      && (e.eventId < |before| && !delivered(e) ==>
            after == before[e.eventId := e.(status := FAILED)])
      && Messages(events[..k + 1]) == Messages(events[..k]) + [MessageOf(e)]
  {
    MarkAllStep(stored, events, k, delivered, now);
    assert events[..k + 1] == events[..k] + [events[k]];
    MessagesAppend(events[..k], [events[k]]);
  }

  /** `OutboxEventPublishingScheduler`. */
  class OutboxEventPublishingScheduler {
    const outbox: OutboxEventService
    const batchSize: nat

    constructor (outbox: OutboxEventService, batchSize: nat)
      ensures this.outbox == outbox && this.batchSize == batchSize
    {
      this.outbox := outbox;
      this.batchSize := batchSize;
    }

    /** One cycle: `sent` lists the messages handed to the stream, in order. */
    method PublishPendingEvents(delivered: OutboxEvent -> bool, now: nat) returns (sent: seq<StreamMessage>)
      requires outbox.Valid()
      modifies outbox
      ensures outbox.Valid()
      ensures outbox.events
           == MarkAll(old(outbox.events), FetchPending(old(outbox.events), batchSize), SchedulerOutcome(delivered), now)
      ensures sent == Messages(AuthorizedEvents(FetchPending(old(outbox.events), batchSize)))
    {
      var events := outbox.FetchPendingEvents(batchSize);
      ghost var stored := outbox.events;
      sent := [];
      for k := 0 to |events|
        invariant outbox.Valid() && |outbox.events| == |stored|
        invariant outbox.events == MarkAll(stored, events[..k], SchedulerOutcome(delivered), now)
        invariant sent == Messages(AuthorizedEvents(events[..k]))
      {
        var event := events[k];
        assert event.eventId < |outbox.events| by {
          assert event in stored;
        }
        SchedulerStep(stored, events, k, delivered, now);
        if event.eventType == TRANSACTION_AUTHORIZED {
          sent := sent + [MessageOf(event)];
          if delivered(event) {
            outbox.MarkAsPublished(event, now);
          } else {
            outbox.MarkAsFailed(event);
          }
        } else {
          outbox.MarkAsPublished(event, now);
        }
      }
      assert events[..|events|] == events;
    }
  }

  /** `OutboxEventPublisher`. */
  class OutboxEventPublisher {
    const outbox: OutboxEventService
    const batchSize: nat

    constructor (outbox: OutboxEventService, batchSize: nat)
      ensures this.outbox == outbox && this.batchSize == batchSize
    {
      this.outbox := outbox;
      this.batchSize := batchSize;
    }

    /** One cycle: every fetched event is sent, in fetch order. */
    method PublishPendingEvents(delivered: OutboxEvent -> bool, now: nat) returns (sent: seq<StreamMessage>)
      requires outbox.Valid()
      modifies outbox
      ensures outbox.Valid()
      ensures outbox.events == MarkAll(old(outbox.events), FetchPending(old(outbox.events), batchSize), delivered, now)
      ensures sent == Messages(FetchPending(old(outbox.events), batchSize))
    {
      var events := outbox.FetchPendingEvents(batchSize);
      ghost var stored := outbox.events;
      sent := [];
      for k := 0 to |events|
        invariant outbox.Valid() && |outbox.events| == |stored|
        invariant outbox.events == MarkAll(stored, events[..k], delivered, now)
        invariant sent == Messages(events[..k])
      {
        var event := events[k];
        assert event.eventId < |outbox.events| by {
          assert event in stored;
        }
        PublishStep(stored, events, k, delivered, now);
        sent := sent + [MessageOf(event)];
        if delivered(event) {
          outbox.MarkAsPublished(event, now);
        } else {
          outbox.MarkAsFailed(event);
        }
      }
      assert events[..|events|] == events;
    }
  }
}
