/** The hold-event processor (`HoldEventServiceImpl`): idempotent handlers for
    `hold.created`, `hold.expired` and `hold.voided`.

    Each handler derives an event id from (event type, transaction id) and a
    hash of the payload, returns at once if either is already in the
    processed-event log, and otherwise runs one unit of work: it reserves or
    releases funds on an account, moves the transaction's status, appends one
    outbox row and records SUCCESS (or SKIPPED). A failure inside the unit of
    work rolls back its ledger and outbox writes, records the event id as
    FAILED with an empty hash, and is re-raised to the caller.

    `Deliver` specifies one call; `HoldEventService` performs it step by step
    on the stores. */
module HoldEvents {
  import opened Model
  import opened Messages
  import opened Decimal
  import opened Database
  import Outbox
  import Idempotency

  const HOLD_CREATED := "hold.created"
  const HOLD_EXPIRED := "hold.expired"
  const HOLD_VOIDED := "hold.voided"

  /** The state after a handler call, and whether the call returned or threw. */
  datatype Step = Step(store: Store, outcome: Result<()>)

  /** What the unit of work of a handler does: it commits new ledger and
      outbox state, skips a transaction in the wrong state, or throws. */
  datatype Effect = Applied(store: Store) | Skipped | Raised(error: Error)

  /** Which of the two releasing handlers runs; a void may carry a reason. */
  datatype Release = Expiry | Void(reason: Option<string>)

  function EventType(ev: HoldEvent): string
  {
    match ev
    case Created(_) => HOLD_CREATED
    case Expired(_) => HOLD_EXPIRED
    case Voided(_) => HOLD_VOIDED
  }

  function EventIdOf(ev: HoldEvent): Idempotency.EventKey
  {
    Idempotency.GenerateEventId(EventType(ev), ev.TransactionId())
  }

  /** Neither the event id nor the payload hash has been seen before. */
  predicate IsFresh(records: Records, ev: HoldEvent)
  {
    !Idempotency.EventProcessed(records, EventIdOf(ev))
    && !Idempotency.PayloadProcessed(records, Idempotency.GeneratePayloadHash(ev))
  }

  /** `updateAccountBalances`: moves `amount` from available to reserved,
      refusing to drive available below zero. */
  function UpdateAccountBalances(a: Account, amount: int): (r: Result<Account>)
    ensures r.Ok? <==> amount <= a.availableBalance
    ensures r.Err? ==> r.error == IllegalState("Insufficient available balance for hold")
    ensures r.Ok? ==>
      && r.value.availableBalance >= 0
      && r.value.reserved == a.reserved + amount
      && r.value.availableBalance + r.value.reserved == a.availableBalance + a.reserved
      && r.value.(availableBalance := a.availableBalance, reserved := a.reserved) == a
  {
    var newAvailable := a.availableBalance - amount;
    var newReserved := a.reserved + amount;
    if newAvailable < 0 then Err(IllegalState("Insufficient available balance for hold"))
    else Ok(a.(availableBalance := newAvailable, reserved := newReserved))
  }

  /** No sign check guards a hold amount: a negative one passes the balance
      check and leaves reserved below zero. */
  lemma NegativeHoldAmountDrivesReservedNegative(a: Account, amount: int)
    requires a.availableBalance >= 0 && a.reserved == 0 && amount < 0
    ensures UpdateAccountBalances(a, amount).Ok?
    ensures UpdateAccountBalances(a, amount).value.reserved < 0
  {
  }

  /** `releaseFunds`: moves `amount` back to available; reserved goes down by
      `amount` but is clamped at zero. */
  function ReleaseFunds(a: Account, amount: int): (r: Account)
    ensures r.availableBalance == a.availableBalance + amount
    ensures r.reserved >= 0
    ensures amount <= a.reserved ==> r.availableBalance + r.reserved == a.availableBalance + a.reserved
    ensures amount > a.reserved ==> r.reserved == 0
    ensures r.(availableBalance := a.availableBalance, reserved := a.reserved) == a
  {
    var newAvailable := a.availableBalance + amount;
    var newReserved := a.reserved - amount;
    a.(availableBalance := newAvailable, reserved := if newReserved < 0 then 0 else newReserved)
  }

  predicate IsTransactionExpirable(t: Transaction)
  {
    t.status == AUTHORIZED
  }

  predicate IsTransactionVoidable(t: Transaction)
  {
    t.status == AUTHORIZED
  }

  predicate Releasable(kind: Release, t: Transaction)
  {
    if kind.Expiry? then IsTransactionExpirable(t) else IsTransactionVoidable(t)
  }

  function ReleaseReason(kind: Release): string
  {
    match kind
    case Expiry => "Hold expired"
    case Void(reason) => if reason.Some? then reason.value else "Hold voided"
  }

  function ReleaseKind(ev: HoldEvent): Release
  {
    if ev.Voided? then Void(ev.voided.reason) else Expiry
  }

  /** The unit of work of `processHoldCreated`: reserve on the issuer, then
      authorize the transaction, then append the `transaction.authorized` row;
      each lookup fails in that order, and a hold without id fails before the
      row is written. There is no check of the transaction's status. */
  function ApplyHoldCreated(s: Store, e: HoldCreatedEvent): (r: Effect)
    ensures !r.Skipped?
    ensures e.issuerAccountId !in s.accounts
      ==> r == Raised(IllegalArgument("Account not found: " + DecimalString(e.issuerAccountId)))
    ensures e.issuerAccountId in s.accounts && s.accounts[e.issuerAccountId].availableBalance < e.amount
      ==> r == Raised(IllegalState("Insufficient available balance for hold"))
    ensures e.issuerAccountId in s.accounts && e.amount <= s.accounts[e.issuerAccountId].availableBalance
            && e.transactionId !in s.transactions
      ==> r == Raised(IllegalArgument("Transaction not found: " + DecimalString(e.transactionId)))
    ensures e.issuerAccountId in s.accounts && e.amount <= s.accounts[e.issuerAccountId].availableBalance
            && e.transactionId in s.transactions && e.holdId.None?
      ==> r == Raised(IllegalState("HoldId cannot be null when publishing transaction.authorized event"))
    ensures r.Applied? <==>
      && e.issuerAccountId in s.accounts && e.amount <= s.accounts[e.issuerAccountId].availableBalance
      && e.transactionId in s.transactions && e.holdId.Some?
    ensures r.Applied? ==>
      var a := s.accounts[e.issuerAccountId];
      var t := s.transactions[e.transactionId];
      && r.store.accounts == s.accounts[e.issuerAccountId := a.(availableBalance := a.availableBalance - e.amount,
                                                                  reserved := a.reserved + e.amount)]
      && r.store.transactions == s.transactions[e.transactionId := t.(status := AUTHORIZED)]
      && r.store.outbox == s.outbox + [Outbox.OutboxEvent(|s.outbox|, Outbox.TRANSACTION_AUTHORIZED, t.transactionId,
           AuthorizedPayload(t.transactionId, e.holdId.value, e.issuerAccountId, e.merchantAccountId,
                             t.amount, t.currency, AUTHORIZED), Outbox.PENDING, None)]
      && r.store.entries == s.entries && r.store.nextTransactionId == s.nextTransactionId
      && r.store.processed == s.processed
  {
    if e.issuerAccountId !in s.accounts then
      Raised(IllegalArgument("Account not found: " + DecimalString(e.issuerAccountId)))
    else
      match UpdateAccountBalances(s.accounts[e.issuerAccountId], e.amount)
      case Err(error) => Raised(error)
      case Ok(account) =>
        if e.transactionId !in s.transactions then
          Raised(IllegalArgument("Transaction not found: " + DecimalString(e.transactionId)))
        else
          var t := s.transactions[e.transactionId].(status := AUTHORIZED);
          if e.holdId.None? then
            Raised(IllegalState("HoldId cannot be null when publishing transaction.authorized event"))
          else
            var payload := AuthorizedPayload(t.transactionId, e.holdId.value, e.issuerAccountId,
                                             e.merchantAccountId, t.amount, t.currency, t.status);
            Applied(s.(accounts := s.accounts[e.issuerAccountId := account],
                       transactions := s.transactions[e.transactionId := t],
                       outbox := Outbox.AppendEvent(s.outbox, Outbox.TRANSACTION_AUTHORIZED, t.transactionId, payload)))
  }

  /** The unit of work of `processHoldExpired` and `processHoldVoided`: a
      transaction that is not AUTHORIZED is skipped before any account is
      looked up; otherwise the funds are released, the transaction FAILS and
      one `transaction.failed` row carries the release reason. */
  function ApplyHoldRelease(s: Store, kind: Release, transactionId: int, accountId: int, hold: Option<int>, amount: int): (r: Effect)
    ensures transactionId !in s.transactions
      ==> r == Raised(IllegalArgument("Transaction not found: " + DecimalString(transactionId)))
    ensures transactionId in s.transactions && s.transactions[transactionId].status != AUTHORIZED
      ==> r == Skipped
    ensures transactionId in s.transactions && s.transactions[transactionId].status == AUTHORIZED
            && accountId !in s.accounts
      ==> r == Raised(IllegalArgument("Account not found: " + DecimalString(accountId)))
    ensures r.Applied? <==>
      transactionId in s.transactions && s.transactions[transactionId].status == AUTHORIZED && accountId in s.accounts
    ensures r.Applied? ==>
      var t := s.transactions[transactionId];
      && r.store.accounts == s.accounts[accountId := ReleaseFunds(s.accounts[accountId], amount)]
      && r.store.transactions == s.transactions[transactionId := t.(status := FAILED)]
      && r.store.outbox == s.outbox + [Outbox.OutboxEvent(|s.outbox|, Outbox.TRANSACTION_FAILED, t.transactionId,
           FailedPayload(t.transactionId, hold, accountId, t.amount, t.currency, FAILED, ReleaseReason(kind)),
           Outbox.PENDING, None)]
      && r.store.entries == s.entries && r.store.nextTransactionId == s.nextTransactionId
      && r.store.processed == s.processed
  {
    if transactionId !in s.transactions then
      Raised(IllegalArgument("Transaction not found: " + DecimalString(transactionId)))
    else
      var t := s.transactions[transactionId];
      if !Releasable(kind, t) then Skipped
      else if accountId !in s.accounts then
        Raised(IllegalArgument("Account not found: " + DecimalString(accountId)))
      else
        var account := ReleaseFunds(s.accounts[accountId], amount);
        var failed := t.(status := FAILED);
        var payload := FailedPayload(failed.transactionId, hold, accountId, failed.amount, failed.currency,
                                     failed.status, ReleaseReason(kind));
        Applied(s.(accounts := s.accounts[accountId := account],
                   transactions := s.transactions[transactionId := failed],
                   outbox := Outbox.AppendEvent(s.outbox, Outbox.TRANSACTION_FAILED, failed.transactionId, payload)))
  }

  function Apply(s: Store, ev: HoldEvent): Effect
  {
    match ev
    case Created(e) => ApplyHoldCreated(s, e)
    case _ => ApplyHoldRelease(s, ReleaseKind(ev), ev.TransactionId(), ev.AccountId(), ev.HoldId(), ev.Amount())
  }

  /** One call of the handler for `ev`: both duplicate checks, then the unit
      of work, then the record of its outcome. A failure keeps only its
      FAILED record: the ledger and the outbox are as before the call. */
  function Deliver(s: Store, ev: HoldEvent): (r: Step)
    ensures Idempotency.EventProcessed(s.processed, EventIdOf(ev)) ==> r == Step(s, Ok(()))
    ensures Idempotency.PayloadProcessed(s.processed, Idempotency.GeneratePayloadHash(ev)) ==> r == Step(s, Ok(()))
    ensures IsFresh(s.processed, ev) && Apply(s, ev).Raised? ==>
      r == Step(s.(processed := s.processed[EventIdOf(ev) := Idempotency.ProcessedEvent(EventIdOf(ev), Idempotency.EmptyHash, Idempotency.FAILED)]),
                Err(Apply(s, ev).error))
    ensures IsFresh(s.processed, ev) && Apply(s, ev).Skipped? ==>
      r == Step(s.(processed := s.processed[EventIdOf(ev) := Idempotency.ProcessedEvent(EventIdOf(ev), Idempotency.GeneratePayloadHash(ev), Idempotency.SKIPPED)]),
                Ok(()))
    ensures IsFresh(s.processed, ev) && Apply(s, ev).Applied? ==>
      r == Step(Apply(s, ev).store.(processed := s.processed[EventIdOf(ev) := Idempotency.ProcessedEvent(EventIdOf(ev), Idempotency.GeneratePayloadHash(ev), Idempotency.SUCCESS)]),
                Ok(()))
  {
    var eventId := EventIdOf(ev);
    if Idempotency.EventProcessed(s.processed, eventId) then Step(s, Ok(()))
    else
      var payloadHash := Idempotency.GeneratePayloadHash(ev);
      if Idempotency.PayloadProcessed(s.processed, payloadHash) then Step(s, Ok(()))
      else
        match Apply(s, ev)
        case Applied(s') =>
          Step(s'.(processed := s.processed[eventId := Idempotency.ProcessedEvent(eventId, payloadHash, Idempotency.SUCCESS)]), Ok(()))
        case Skipped =>
          Step(s.(processed := s.processed[eventId := Idempotency.ProcessedEvent(eventId, payloadHash, Idempotency.SKIPPED)]), Ok(()))
        case Raised(error) =>
          Step(s.(processed := s.processed[eventId := Idempotency.ProcessedEvent(eventId, Idempotency.EmptyHash, Idempotency.FAILED)]), Err(error))
  }

  /** The store after `n` deliveries of the same event. */
  function DeliverTimes(s: Store, ev: HoldEvent, n: nat): Store
  {
    if n == 0 then s else Deliver(DeliverTimes(s, ev, n - 1), ev).store
  }

  /** The store after delivering `evs` in order, whatever each call returns. */
  function DeliverAll(s: Store, evs: seq<HoldEvent>): Store
  {
    if evs == [] then s else Deliver(DeliverAll(s, evs[..|evs| - 1]), evs[|evs| - 1]).store
  }

  /** A second delivery of an event returns normally and changes nothing:
      a first call that ran records the event id, whether it succeeded, was
      skipped or failed (so a failed event is never retried). */
  lemma RedeliveryIsNoOp(s: Store, ev: HoldEvent)
    ensures var s1 := Deliver(s, ev).store;
      && (IsFresh(s.processed, ev) ==> Idempotency.EventProcessed(s1.processed, EventIdOf(ev)))
      && Deliver(s1, ev) == Step(s1, Ok(()))
  {
    if IsFresh(s.processed, ev) {
      var s1 := Deliver(s, ev).store;
      assert s1.processed == s.processed[EventIdOf(ev) := s1.processed[EventIdOf(ev)]];
    }
  }

  /** Delivering an event any number of times leaves the state the first
      delivery left. */
  lemma {:induction false} RedeliveryIsIdempotent(s: Store, ev: HoldEvent, n: nat)
    requires n >= 1
    ensures DeliverTimes(s, ev, n) == Deliver(s, ev).store
    decreases n
  {
    if n > 1 {
      RedeliveryIsIdempotent(s, ev, n - 1);
      RedeliveryIsNoOp(s, ev);
    }
  }

  /** One hold event with a non-negative amount keeps every balance
      non-negative. */
  lemma DeliverKeepsBalancesNonNegative(s: Store, ev: HoldEvent)
    requires NonNegativeBalances(s.accounts) && ev.Amount() >= 0
    ensures NonNegativeBalances(Deliver(s, ev).store.accounts)
  {
  }

  /** Balance invariant over any sequence of hold events (with non-negative
      amounts): neither available nor reserved ever goes below zero. */
  lemma {:induction false} DeliverAllKeepsBalancesNonNegative(s: Store, evs: seq<HoldEvent>)
    requires NonNegativeBalances(s.accounts)
    requires forall i :: 0 <= i < |evs| ==> evs[i].Amount() >= 0
    ensures NonNegativeBalances(DeliverAll(s, evs).accounts)
    decreases |evs|
  {
    if evs != [] {
      DeliverAllKeepsBalancesNonNegative(s, evs[..|evs| - 1]);
      DeliverKeepsBalancesNonNegative(DeliverAll(s, evs[..|evs| - 1]), evs[|evs| - 1]);
    }
  }

  lemma DeliverPreservesValidity(s: Store, ev: HoldEvent)
    requires StoreValid(s)
    ensures StoreValid(Deliver(s, ev).store)
  {
  }

  /** Hold events never post entries, so double-entry balance is untouched. */
  lemma {:induction false} DeliverAllKeepsEntries(s: Store, evs: seq<HoldEvent>)
    ensures DeliverAll(s, evs).entries == s.entries
    decreases |evs|
  {
    if evs != [] {
      DeliverAllKeepsEntries(s, evs[..|evs| - 1]);
    }
  }

  /** `hold.created` has no status guard: a transaction that has already
      settled (SUCCESS) or failed is moved back to AUTHORIZED, funds are
      reserved again and a second `transaction.authorized` row is written. */
  lemma HoldCreatedReauthorizesSettledTransaction(s: Store, e: HoldCreatedEvent)
    requires IsFresh(s.processed, Created(e))
    requires e.issuerAccountId in s.accounts && e.amount <= s.accounts[e.issuerAccountId].availableBalance
    requires e.transactionId in s.transactions && s.transactions[e.transactionId].status in {SUCCESS, FAILED}
    requires e.holdId.Some?
    ensures var r := Deliver(s, Created(e));
      && r.outcome.Ok?
      && r.store.transactions[e.transactionId].status == AUTHORIZED
      && |r.store.outbox| == |s.outbox| + 1
      && r.store.outbox[|s.outbox|].eventType == Outbox.TRANSACTION_AUTHORIZED
  {
  }

  /** The created-hold scenario: an issuer with 1000.00 available receives
      `hold.created` for 250.00 and ends with 750.00 available and 250.00
      reserved; the transaction is AUTHORIZED. */
  lemma HoldCreatedScenario(s: Store, e: HoldCreatedEvent)
    requires IsFresh(s.processed, Created(e))
    requires e.issuerAccountId in s.accounts && e.transactionId in s.transactions && e.holdId.Some?
    requires s.accounts[e.issuerAccountId].availableBalance == 100000
    requires s.accounts[e.issuerAccountId].reserved == 0 && e.amount == 25000
    ensures var r := Deliver(s, Created(e)).store;
      && r.accounts[e.issuerAccountId].availableBalance == 75000
      && r.accounts[e.issuerAccountId].reserved == 25000
      && r.transactions[e.transactionId].status == AUTHORIZED
  {
  }

  /** The anomalous-expiry scenario: an AUTHORIZED transaction whose account
      holds only 100.00 in reserve receives `hold.expired` for 250.00;
      reserved clamps to zero, available rises by 250.00, the transaction
      FAILS. */
  lemma HoldExpiredClampScenario(s: Store, e: HoldExpiredEvent)
    requires IsFresh(s.processed, Expired(e))
    requires e.transactionId in s.transactions && s.transactions[e.transactionId].status == AUTHORIZED
    requires e.accountId in s.accounts && s.accounts[e.accountId].reserved == 10000 && e.amount == 25000
    ensures var r := Deliver(s, Expired(e)).store;
      && r.accounts[e.accountId].reserved == 0
      && r.accounts[e.accountId].availableBalance == s.accounts[e.accountId].availableBalance + 25000
      && r.transactions[e.transactionId].status == FAILED
  {
  }

  /** A release for a transaction that is not AUTHORIZED (here: already
      SUCCESS) touches no account, transaction or outbox row and is recorded
      SKIPPED with its payload hash. */
  lemma ReleaseOfSettledTransactionIsSkipped(s: Store, ev: HoldEvent)
    requires !ev.Created? && IsFresh(s.processed, ev)
    requires ev.TransactionId() in s.transactions && s.transactions[ev.TransactionId()].status != AUTHORIZED
    ensures var r := Deliver(s, ev);
      && r.outcome.Ok?
      && r.store.accounts == s.accounts && r.store.transactions == s.transactions && r.store.outbox == s.outbox
      && r.store.processed[EventIdOf(ev)].status == Idempotency.SKIPPED
      && r.store.processed[EventIdOf(ev)].payloadHash == Idempotency.GeneratePayloadHash(ev)
  {
  }

  /** The handlers, acting on the ledger, outbox and idempotency stores. */
  class HoldEventService {
    const ledger: LedgerStore
    const outbox: Outbox.OutboxEventService
    const processed: Idempotency.ProcessedEventService

    constructor (ledger: LedgerStore, outbox: Outbox.OutboxEventService, processed: Idempotency.ProcessedEventService)
      ensures this.ledger == ledger && this.outbox == outbox && this.processed == processed
    {
      this.ledger := ledger;
      this.outbox := outbox;
      this.processed := processed;
    }

    function Snapshot(): Store
      reads ledger, outbox, processed
    {
      Store(ledger.accounts, ledger.transactions, ledger.entries, ledger.nextTransactionId,
            outbox.events, processed.records)
    }

    ghost predicate Valid()
      reads ledger, outbox, processed
    {
      StoreValid(Snapshot())
    }

    method ProcessHoldCreated(event: HoldCreatedEvent) returns (outcome: Result<()>)
      requires Valid()
      modifies ledger, outbox, processed
      ensures Valid()
      ensures Step(Snapshot(), outcome) == Deliver(old(Snapshot()), Created(event))
    {
      DeliverPreservesValidity(Snapshot(), Created(event));
      var eventId := Idempotency.GenerateEventId(HOLD_CREATED, event.transactionId);
      if processed.IsEventProcessed(eventId) {
        return Ok(());
      }
      var payloadHash := Idempotency.GeneratePayloadHash(Created(event));
      if processed.IsPayloadProcessed(payloadHash) {
        return Ok(());
      }
      var accounts0, transactions0, events0 := ledger.accounts, ledger.transactions, outbox.events;
      var failure: Option<Error> := None;
      if event.issuerAccountId !in ledger.accounts {
        failure := Some(IllegalArgument("Account not found: " + DecimalString(event.issuerAccountId)));
      } else {
        var updated := UpdateAccountBalances(ledger.accounts[event.issuerAccountId], event.amount);
        if updated.Err? {
          failure := Some(updated.error);
        } else {
          ledger.accounts := ledger.accounts[event.issuerAccountId := updated.value];
          if event.transactionId !in ledger.transactions {
            failure := Some(IllegalArgument("Transaction not found: " + DecimalString(event.transactionId)));
          } else {
            var transaction := ledger.transactions[event.transactionId].(status := AUTHORIZED);
            ledger.transactions := ledger.transactions[event.transactionId := transaction];
            if event.holdId.None? {
              failure := Some(IllegalState("HoldId cannot be null when publishing transaction.authorized event"));
            } else {
              var payload := AuthorizedPayload(transaction.transactionId, event.holdId.value, event.issuerAccountId,
                                               event.merchantAccountId, transaction.amount, transaction.currency,
                                               transaction.status);
              var saved := outbox.SaveEvent(Outbox.TRANSACTION_AUTHORIZED, transaction.transactionId, payload);
            }
          }
        }
      }
      if failure.Some? {
        // The unit of work rolls back; the failure record outlives it.
        ledger.accounts, ledger.transactions, outbox.events := accounts0, transactions0, events0;
        processed.MarkEventAsProcessed(eventId, Idempotency.EmptyHash, Idempotency.FAILED);
        return Err(failure.value);
      }
      processed.MarkEventAsProcessed(eventId, payloadHash, Idempotency.SUCCESS);
      outcome := Ok(());
    }

    method ProcessHoldExpired(event: HoldExpiredEvent) returns (outcome: Result<()>)
      requires Valid()
      modifies ledger, outbox, processed
      ensures Valid()
      ensures Step(Snapshot(), outcome) == Deliver(old(Snapshot()), Expired(event))
    {
      outcome := ProcessHoldRelease(Expired(event));
    }

    method ProcessHoldVoided(event: HoldVoidedEvent) returns (outcome: Result<()>)
      requires Valid()
      modifies ledger, outbox, processed
      ensures Valid()
      ensures Step(Snapshot(), outcome) == Deliver(old(Snapshot()), Voided(event))
    {
      outcome := ProcessHoldRelease(Voided(event));
    }

    /** The body shared by the expiry and void handlers. */
    method ProcessHoldRelease(event: HoldEvent) returns (outcome: Result<()>)
      requires Valid() && !event.Created?
      modifies ledger, outbox, processed
      ensures Valid()
      ensures Step(Snapshot(), outcome) == Deliver(old(Snapshot()), event)
    {
      DeliverPreservesValidity(Snapshot(), event);
      var eventId := Idempotency.GenerateEventId(EventType(event), event.TransactionId());
      if processed.IsEventProcessed(eventId) {
        return Ok(());
      }
      var payloadHash := Idempotency.GeneratePayloadHash(event);
      if processed.IsPayloadProcessed(payloadHash) {
        return Ok(());
      }
      if event.TransactionId() !in ledger.transactions {
        processed.MarkEventAsProcessed(eventId, Idempotency.EmptyHash, Idempotency.FAILED);
        return Err(IllegalArgument("Transaction not found: " + DecimalString(event.TransactionId())));
      }
      var transaction := ledger.transactions[event.TransactionId()];
      var kind := ReleaseKind(event);
      if !Releasable(kind, transaction) {
        processed.MarkEventAsProcessed(eventId, payloadHash, Idempotency.SKIPPED);
        return Ok(());
      }
      if event.AccountId() !in ledger.accounts {
        processed.MarkEventAsProcessed(eventId, Idempotency.EmptyHash, Idempotency.FAILED);
        return Err(IllegalArgument("Account not found: " + DecimalString(event.AccountId())));
      }
      ledger.accounts := ledger.accounts[event.AccountId() := ReleaseFunds(ledger.accounts[event.AccountId()], event.Amount())];
      transaction := transaction.(status := FAILED);
      ledger.transactions := ledger.transactions[event.TransactionId() := transaction];
      var payload := FailedPayload(transaction.transactionId, event.HoldId(), event.AccountId(), transaction.amount,
                                   transaction.currency, transaction.status, ReleaseReason(kind));
      var saved := outbox.SaveEvent(Outbox.TRANSACTION_FAILED, transaction.transactionId, payload);
      processed.MarkEventAsProcessed(eventId, payloadHash, Idempotency.SUCCESS);
      outcome := Ok(());
    }
  }
}
