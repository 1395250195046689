/** The transactional outbox (`OutboxEventServiceImpl`): events appended in
    the same unit of work as the ledger change they describe, later fetched
    in store order and marked PUBLISHED or FAILED by a publishing loop.

    An event's id is its position in the store (the id sequence hands out
    ids in insertion order), which `IdsAreIndices` states. */
module Outbox {
  import Model

  const TRANSACTION_INITIATED := "transaction.initiated"
  const TRANSACTION_AUTHORIZED := "transaction.authorized"
  const TRANSACTION_FAILED := "transaction.failed"
  const TRANSACTION_POSTED := "transaction.posted"

  datatype OutboxEventStatus = PENDING | PUBLISHED | FAILED

  /** `publishedAt` is an instant, absent until the event is published. */
  datatype OutboxEvent = OutboxEvent(
    eventId: nat,
    eventType: string,
    aggregateId: int,
    payload: Model.Payload,
    status: OutboxEventStatus,
    publishedAt: Model.Option<nat>)

  predicate IdsAreIndices(events: seq<OutboxEvent>)
  {
    forall i :: 0 <= i < |events| ==> events[i].eventId == i
  }

  function Min(a: int, b: int): int
  {
    if a <= b then a else b
  }

  /** The PENDING events, in store order (the stream filter of the fetch). */
  function Pending(events: seq<OutboxEvent>): (r: seq<OutboxEvent>)
    ensures |r| <= |events|
    ensures forall j :: 0 <= j < |r| ==> r[j].status == PENDING && r[j] in events
  {
    if events == [] then []
    else
      var last := events[|events| - 1];
      Pending(events[..|events| - 1]) + (if last.status == PENDING then [last] else [])
  }

  /** `fetchPendingEvents(limit)`: the first `limit` PENDING events in store order. */
  function FetchPending(events: seq<OutboxEvent>, limit: nat): (r: seq<OutboxEvent>)
    ensures |r| == Min(limit, |Pending(events)|)
    ensures forall j :: 0 <= j < |r| ==> r[j].status == PENDING && r[j] in events
    ensures r == Pending(events)[..|r|]
  {
    var p := Pending(events);
    p[..Min(limit, |p|)]
  }

  /** `saveEvent`: one new PENDING event at the end of the store. */
  function AppendEvent(events: seq<OutboxEvent>, eventType: string, aggregateId: int, payload: Model.Payload): (r: seq<OutboxEvent>)
    ensures |r| == |events| + 1 && r[..|events|] == events
    ensures r[|events|].eventType == eventType && r[|events|].aggregateId == aggregateId
    ensures r[|events|].payload == payload && r[|events|].status == PENDING
    ensures IdsAreIndices(events) ==> IdsAreIndices(r)
    ensures |Pending(r)| == |Pending(events)| + 1
  {
    var r := events + [OutboxEvent(|events|, eventType, aggregateId, payload, PENDING, Model.None)];
    assert r[..|r| - 1] == events;
    r
  }

  /** The event as `markAsPublished` (stamped with `now`) or `markAsFailed`
      leaves it. */
  function Marked(e: OutboxEvent, published: bool, now: nat): (r: OutboxEvent)
    ensures r.status != PENDING
    ensures r.status == PUBLISHED <==> published
    ensures r.publishedAt == if published then Model.Some(now) else e.publishedAt
    ensures r.(status := e.status, publishedAt := e.publishedAt) == e
  {
    if published then e.(status := PUBLISHED, publishedAt := Model.Some(now)) else e.(status := FAILED)
  }

  /** Marks one fetched event in the store, as `decide` says. */
  function Mark(events: seq<OutboxEvent>, e: OutboxEvent, decide: OutboxEvent -> bool, now: nat): seq<OutboxEvent>
  {
    if e.eventId < |events| then events[e.eventId := Marked(e, decide(e), now)] else events
  }

  /** The store after marking the fetched events `xs` one after another. */
  function MarkAll(events: seq<OutboxEvent>, xs: seq<OutboxEvent>, decide: OutboxEvent -> bool, now: nat): (r: seq<OutboxEvent>)
    ensures |r| == |events|
  {
    if xs == [] then events else Mark(MarkAll(events, xs[..|xs| - 1], decide, now), xs[|xs| - 1], decide, now)
  }

  /** Marking one more fetched event extends the marking of the prefix. */
  lemma MarkAllStep(events: seq<OutboxEvent>, xs: seq<OutboxEvent>, k: nat, decide: OutboxEvent -> bool, now: nat)
    requires k < |xs|
    ensures MarkAll(events, xs[..k + 1], decide, now) == Mark(MarkAll(events, xs[..k], decide, now), xs[k], decide, now)
  {
    assert xs[..k + 1][..k] == xs[..k];
  }

  /** Event `i` is in the batch of `limit` iff it is PENDING and fewer than
      `limit` PENDING events precede it. */
  predicate Selected(events: seq<OutboxEvent>, limit: nat, i: nat)
    requires i < |events|
  {
    events[i].status == PENDING && |Pending(events[..i])| < limit
  }

  lemma {:induction false} PendingOfPrefix(events: seq<OutboxEvent>, i: nat)
    requires i <= |events|
    ensures Pending(events[..i]) <= Pending(events)
    decreases |events| - i
  {
    if i < |events| {
      var n := |events|;
      PendingOfPrefix(events[..n - 1], i);
      assert events[..n - 1][..i] == events[..i];
    } else {
      assert events[..i] == events;
    }
  }

  /** A PENDING event sits in the pending list at its rank: the number of
      PENDING events before it. */
  lemma PendingRank(events: seq<OutboxEvent>, i: nat)
    requires i < |events| && events[i].status == PENDING
    ensures |Pending(events[..i])| < |Pending(events)|
    ensures Pending(events)[|Pending(events[..i])|] == events[i]
  {
    PendingOfPrefix(events, i + 1);
    assert events[..i + 1][..i] == events[..i];
  }

  /** Every pending-list element is the store's event at its own id, and its
      rank is its position in the list. */
  lemma {:induction false} PendingElements(events: seq<OutboxEvent>, j: nat)
    requires IdsAreIndices(events)
    requires j < |Pending(events)|
    ensures Pending(events)[j].eventId < |events|
    ensures events[Pending(events)[j].eventId] == Pending(events)[j]
    ensures |Pending(events[..Pending(events)[j].eventId])| == j
    decreases |events|
  {
    var n := |events|;
    var front := events[..n - 1];
    assert IdsAreIndices(front);
    if j < |Pending(front)| {
      PendingElements(front, j);
      var x := Pending(events)[j];
      assert x == Pending(front)[j];
      assert front[..x.eventId] == events[..x.eventId];
    } else {
      assert events[..n - 1] == front;
    }
  }

  lemma {:induction false} MarkAllUntouched(events: seq<OutboxEvent>, xs: seq<OutboxEvent>, decide: OutboxEvent -> bool, now: nat, i: nat)
    requires i < |events|
    requires forall j :: 0 <= j < |xs| ==> xs[j].eventId != i
    ensures MarkAll(events, xs, decide, now)[i] == events[i]
    decreases |xs|
  {
    if xs != [] {
      MarkAllUntouched(events, xs[..|xs| - 1], decide, now, i);
    }
  }

  lemma {:induction false} MarkAllTouched(events: seq<OutboxEvent>, xs: seq<OutboxEvent>, decide: OutboxEvent -> bool, now: nat, j: nat)
    requires j < |xs| && xs[j].eventId < |events|
    requires forall k :: j < k < |xs| ==> xs[k].eventId != xs[j].eventId
    ensures MarkAll(events, xs, decide, now)[xs[j].eventId] == Marked(xs[j], decide(xs[j]), now)
    decreases |xs|
  {
    if j < |xs| - 1 {
      MarkAllTouched(events, xs[..|xs| - 1], decide, now, j);
    }
  }

  /** One publishing cycle over the batch of `limit`: an event of the batch is
      marked as `decide` says, every other event is left as it was. */
  lemma PublishCycleEffect(events: seq<OutboxEvent>, limit: nat, decide: OutboxEvent -> bool, now: nat, i: nat)
    requires IdsAreIndices(events) && i < |events|
    ensures MarkAll(events, FetchPending(events, limit), decide, now)[i]
         == if Selected(events, limit, i) then Marked(events[i], decide(events[i]), now) else events[i]
  {
    var f := FetchPending(events, limit);
    var p := Pending(events);
    if Selected(events, limit, i) {
      var j := |Pending(events[..i])|;
      PendingRank(events, i);
      assert f[j] == events[i];
      forall k | j < k < |f| ensures f[k].eventId != i {
        PendingElements(events, k);
      }
      MarkAllTouched(events, f, decide, now, j);
    } else {
      forall k | 0 <= k < |f| ensures f[k].eventId != i {
        PendingElements(events, k);
      }
      MarkAllUntouched(events, f, decide, now, i);
    }
  }

  /** After a cycle no event of the batch is PENDING, and the number of
      PENDING events has dropped by exactly the batch size (or to zero). */
  lemma {:induction false} PublishCycleDrainsBatch(events: seq<OutboxEvent>, limit: nat, decide: OutboxEvent -> bool, now: nat, m: nat)
    requires IdsAreIndices(events) && m <= |events|
    ensures var r := MarkAll(events, FetchPending(events, limit), decide, now);
      |Pending(r[..m])| == |Pending(events[..m])| - Min(limit, |Pending(events[..m])|)
    decreases m
  {
    var r := MarkAll(events, FetchPending(events, limit), decide, now);
    if m > 0 {
      PublishCycleDrainsBatch(events, limit, decide, now, m - 1);
      PublishCycleEffect(events, limit, decide, now, m - 1);
      PendingCountStep(r, m);
      PendingCountStep(events, m);
      var before := |Pending(events[..m - 1])|;
      if Selected(events, limit, m - 1) {
        assert r[m - 1].status != PENDING && before < limit;
      } else {
        assert r[m - 1] == events[m - 1];
      }
    }
  }

  lemma PendingCountStep(events: seq<OutboxEvent>, m: nat)
    requires 0 < m <= |events|
    ensures |Pending(events[..m])| == |Pending(events[..m - 1])| + (if events[m - 1].status == PENDING then 1 else 0)
  {
    assert events[..m][..m - 1] == events[..m - 1];
  }

  lemma PublishCycleLeavesNoBatchEventPending(events: seq<OutboxEvent>, limit: nat, decide: OutboxEvent -> bool, now: nat)
    requires IdsAreIndices(events)
    ensures var r := MarkAll(events, FetchPending(events, limit), decide, now);
      && IdsAreIndices(r)
      && (forall e :: e in FetchPending(events, limit) ==> r[e.eventId].status != PENDING)
      && |Pending(r)| == |Pending(events)| - Min(limit, |Pending(events)|)
  {
    var r := MarkAll(events, FetchPending(events, limit), decide, now);
    forall i | 0 <= i < |r| ensures r[i].eventId == i {
      PublishCycleEffect(events, limit, decide, now, i);
    }
    forall e | e in FetchPending(events, limit) ensures r[e.eventId].status != PENDING {
      var j :| 0 <= j < |FetchPending(events, limit)| && FetchPending(events, limit)[j] == e;
      PendingElements(events, j);
      PublishCycleEffect(events, limit, decide, now, e.eventId);
    }
    PublishCycleDrainsBatch(events, limit, decide, now, |events|);
    assert r[..|events|] == r && events[..|events|] == events;
  }

  /** The outbox store, its events held in insertion order. */
  class OutboxEventService {
    var events: seq<OutboxEvent>

    ghost predicate Valid()
      reads this
    {
      IdsAreIndices(events)
    }

    constructor ()
      ensures Valid() && events == []
    {
      events := [];
    }

    method SaveEvent(eventType: string, aggregateId: int, payload: Model.Payload) returns (saved: OutboxEvent)
      requires Valid()
      modifies this
      ensures Valid()
      ensures events == AppendEvent(old(events), eventType, aggregateId, payload)
      ensures saved == events[|events| - 1]
    {
      saved := OutboxEvent(|events|, eventType, aggregateId, payload, PENDING, Model.None);
      events := events + [saved];
    }

    function FetchPendingEvents(limit: nat): seq<OutboxEvent>
      reads this
    {
      FetchPending(events, limit)
    }

    method MarkAsPublished(event: OutboxEvent, now: nat)
      requires Valid() && event.eventId < |events|
      modifies this
      ensures Valid()
      ensures events == old(events)[event.eventId := Marked(event, true, now)]
    {
      events := events[event.eventId := event.(status := PUBLISHED, publishedAt := Model.Some(now))];
    }

    method MarkAsFailed(event: OutboxEvent)
      requires Valid() && event.eventId < |events|
      modifies this
      ensures Valid()
      ensures events == old(events)[event.eventId := event.(status := FAILED)]
    {
      events := events[event.eventId := event.(status := FAILED)];
    }
  }
}
