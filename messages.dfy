/** The messages the ledger service exchanges with its collaborators
    (package `dto`): the requests its callers send, the hold-lifecycle events
    it consumes, and the request/response of the synchronous hold call. */
module Messages {
  import opened Model

  datatype CreateTransactionRequest = CreateTransactionRequest(
    issuerAccountId: int, merchantAccountId: int, amount: int, currency: string)

  datatype CreateCashbackTransactionRequest = CreateCashbackTransactionRequest(
    issuerAccountId: int, merchantAccountId: int, amount: int, currency: string)

  datatype CreateTransactionResponse = CreateTransactionResponse(
    transactionId: int, status: TransactionStatus)

  /** The transaction id of a commit comes from the URL path; the body carries the hold id. */
  datatype CommitTransactionRequest = CommitTransactionRequest(holdId: int)

  datatype CommitTransactionResponse = CommitTransactionResponse(
    transactionId: int, status: TransactionStatus, message: string)

  /** The body of the synchronous call to the hold service. */
  datatype CreateHoldRequest = CreateHoldRequest(
    transactionId: int, issuerAccountId: int, merchantAccountId: int, amount: int, currency: string)

  /** Only AUTHORIZED is named by the service; the hold service's other states
      are carried by name. */
  datatype HoldStatus = HoldAuthorized | OtherHoldStatus(name: string)

  /** What the synchronous hold call yields: a transport failure, an empty
      body, or a body whose fields may each be null. */
  datatype HoldReply =
    | CallFailed
    | NullBody
    | HoldResponse(holdId: Option<int>, status: Option<HoldStatus>)

  datatype HoldCreatedEvent = HoldCreatedEvent(
    holdId: Option<int>, transactionId: int, issuerAccountId: int, merchantAccountId: int,
    amount: int, currency: string, status: string, expiresAt: Option<int>)

  datatype HoldExpiredEvent = HoldExpiredEvent(
    holdId: Option<int>, transactionId: int, accountId: int, amount: int,
    status: string, expiresAt: Option<int>)

  datatype HoldVoidedEvent = HoldVoidedEvent(
    holdId: Option<int>, transactionId: int, accountId: int, amount: int,
    status: string, reason: Option<string>)

  /** The three inbound hold-lifecycle events, tagged by kind. */
  datatype HoldEvent =
    | Created(created: HoldCreatedEvent)
    | Expired(expired: HoldExpiredEvent)
    | Voided(voided: HoldVoidedEvent)
  {
    function TransactionId(): int
    {
      match this
      case Created(e) => e.transactionId
      case Expired(e) => e.transactionId
      case Voided(e) => e.transactionId
    }

    function Amount(): int
    {
      match this
      case Created(e) => e.amount
      case Expired(e) => e.amount
      case Voided(e) => e.amount
    }

    /** The account the handler adjusts: the issuer for a created hold. */
    function AccountId(): int
    {
      match this
      case Created(e) => e.issuerAccountId
      case Expired(e) => e.accountId
      case Voided(e) => e.accountId
    }

    function HoldId(): Option<int>
    {
      match this
      case Created(e) => e.holdId
      case Expired(e) => e.holdId
      case Voided(e) => e.holdId
    }
  }
}
