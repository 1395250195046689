/** The transaction orchestrator (`TransactionServiceImpl`): creating an
    inbound transaction and asking the hold service for a hold, committing an
    authorized transaction by a double-entry posting, and the hold-free
    cashback posting.

    Each operation is one unit of work: when it fails, nothing it wrote to
    the ledger or the outbox survives. The call to the hold service is a
    parameter, `holdService`, from the request sent to the reply received.

    Accounts are managed entities: the issuer and the merchant of one
    operation are the same object when their ids are equal, so the model
    applies each setter in turn to the account map. */
module Transactions {
  import opened Model
  import opened Messages
  import opened Decimal
  import opened Database
  import Outbox

  /** The state after a call, and what the call returned or threw. */
  datatype Outcome<T> = Outcome(store: Store, result: Result<T>)

  const HOLD_REQUEST_FAILED := "Failed to send hold request to CreditHoldServ"

  /** `validateAccounts`: account types, then both statuses, then the
      issuer's available balance (an exactly sufficient balance passes). */
  function ValidateAccounts(issuer: Account, merchant: Account, amount: int): (r: Option<Error>)
    ensures r.None? <==>
      && issuer.accountType == ISSUER && merchant.accountType == MERCHANT
      && issuer.status == ACTIVE && merchant.status == ACTIVE
      && amount <= issuer.availableBalance
    ensures issuer.accountType != ISSUER ==> r == Some(IllegalArgument("Issuer account type invalid"))
    ensures issuer.accountType == ISSUER && merchant.accountType != MERCHANT
      ==> r == Some(IllegalArgument("Merchant account type invalid"))
    ensures issuer.accountType == ISSUER && merchant.accountType == MERCHANT
            && (issuer.status != ACTIVE || merchant.status != ACTIVE)
      ==> r == Some(IllegalArgument("Accounts must be ACTIVE"))
    ensures issuer.accountType == ISSUER && merchant.accountType == MERCHANT
            && issuer.status == ACTIVE && merchant.status == ACTIVE
            && issuer.availableBalance < amount
      ==> r == Some(IllegalArgument("Insufficient available balance"))
    ensures r.Some? ==> r.value.IllegalArgument?
  {
    if issuer.accountType != ISSUER then Some(IllegalArgument("Issuer account type invalid"))
    else if merchant.accountType != MERCHANT then Some(IllegalArgument("Merchant account type invalid"))
    else if issuer.status != ACTIVE || merchant.status != ACTIVE then Some(IllegalArgument("Accounts must be ACTIVE"))
    else if issuer.availableBalance < amount then Some(IllegalArgument("Insufficient available balance"))
    else None
  }

  /** The response check of `sendHoldRequest`: a failed call, an empty body
      or a body without hold id all surface as one runtime failure. */
  function CheckHoldResponse(reply: HoldReply): (r: Result<HoldReply>)
    ensures r.Ok? <==> reply.HoldResponse? && reply.holdId.Some?
    ensures r.Ok? ==> r.value == reply
    ensures r.Err? ==> r.error == Runtime(HOLD_REQUEST_FAILED)
  {
    match reply
    case HoldResponse(holdId, _) =>
      if holdId.Some? then Ok(reply) else Err(Runtime(HOLD_REQUEST_FAILED))
    case _ => Err(Runtime(HOLD_REQUEST_FAILED))
  }

  /** The transaction status a confirmed hold leads to. */
  function StatusAfterHold(status: HoldStatus): (r: TransactionStatus)
    ensures r == AUTHORIZED <==> status.HoldAuthorized?
    ensures r != AUTHORIZED ==> r == FAILED
  {
    if status.HoldAuthorized? then AUTHORIZED else FAILED
  }

  /** `setAvailableBalance(getAvailableBalance() + delta)` on one account. */
  function AddAvailable(accounts: map<int, Account>, id: int, delta: int): (r: map<int, Account>)
    requires id in accounts
    ensures r.Keys == accounts.Keys
    ensures r[id].availableBalance == accounts[id].availableBalance + delta
    ensures r[id].(availableBalance := accounts[id].availableBalance) == accounts[id]
    ensures forall k :: k in accounts && k != id ==> r[k] == accounts[k]
  {
    accounts[id := accounts[id].(availableBalance := accounts[id].availableBalance + delta)]
  }

  /** `setReserved(getReserved() + delta)` on one account. */
  function AddReserved(accounts: map<int, Account>, id: int, delta: int): (r: map<int, Account>)
    requires id in accounts
    ensures r.Keys == accounts.Keys
    ensures r[id].reserved == accounts[id].reserved + delta
    ensures r[id].(reserved := accounts[id].reserved) == accounts[id]
    ensures forall k :: k in accounts && k != id ==> r[k] == accounts[k]
  {
    accounts[id := accounts[id].(reserved := accounts[id].reserved + delta)]
  }

  /** The total funds (available plus reserved) of two distinct accounts. */
  function PairFunds(accounts: map<int, Account>, i: int, m: int): int
    requires i in accounts && m in accounts
  {
    accounts[i].availableBalance + accounts[i].reserved + accounts[m].availableBalance + accounts[m].reserved
  }

  /** The balance updates of `performDoubleEntryPosting`: the issuer's
      available is debited, the merchant's credited, and the issuer's
      reserved reduced without a floor. Because a created hold has already
      moved the amount out of available, the pair of accounts loses `amount`
      in total. */
  function PostDoubleEntry(accounts: map<int, Account>, issuerId: int, merchantId: int, amount: int): (r: map<int, Account>)
    requires issuerId in accounts && merchantId in accounts
    ensures r.Keys == accounts.Keys
    ensures forall k :: k in accounts && k != issuerId && k != merchantId ==> r[k] == accounts[k]
    ensures issuerId != merchantId ==>
      && r[issuerId].availableBalance == accounts[issuerId].availableBalance - amount
      && r[issuerId].reserved == accounts[issuerId].reserved - amount
      && r[issuerId].(availableBalance := accounts[issuerId].availableBalance, reserved := accounts[issuerId].reserved)
         == accounts[issuerId]
      && r[merchantId] == accounts[merchantId].(availableBalance := accounts[merchantId].availableBalance + amount)
      && PairFunds(r, issuerId, merchantId) == PairFunds(accounts, issuerId, merchantId) - amount
    ensures issuerId == merchantId ==>
      r[issuerId] == accounts[issuerId].(reserved := accounts[issuerId].reserved - amount)
  {
    var debited := AddAvailable(accounts, issuerId, -amount);
    var credited := AddAvailable(debited, merchantId, amount);
    AddReserved(credited, issuerId, -amount)
  }

  /** The balance updates of a cashback: the issuer is credited and the
      merchant debited on available, with no check of the merchant's
      balance; the pair's total is unchanged. */
  function PostCashback(accounts: map<int, Account>, issuerId: int, merchantId: int, amount: int): (r: map<int, Account>)
    requires issuerId in accounts && merchantId in accounts
    ensures r.Keys == accounts.Keys
    ensures forall k :: k in accounts && k != issuerId && k != merchantId ==> r[k] == accounts[k]
    ensures issuerId != merchantId ==>
      && r[issuerId] == accounts[issuerId].(availableBalance := accounts[issuerId].availableBalance + amount)
      && r[merchantId] == accounts[merchantId].(availableBalance := accounts[merchantId].availableBalance - amount)
      && PairFunds(r, issuerId, merchantId) == PairFunds(accounts, issuerId, merchantId)
    ensures issuerId == merchantId ==> r == accounts
  {
    var credited := AddAvailable(accounts, issuerId, amount);
    AddAvailable(credited, merchantId, -amount)
  }

  /** `createTransactionEntries`: issuer debit, then merchant credit. */
  function CommitEntries(transactionId: int, issuerId: int, merchantId: int, amount: int): (r: seq<TransactionEntry>)
    ensures |r| == 2 && Sum(r) == 0
    ensures forall e :: e in r ==> e.transactionId == transactionId
    ensures r[0].accountId == issuerId && r[0].amount == -amount
    ensures r[1].accountId == merchantId && r[1].amount == amount
  {
    var r := [TransactionEntry(transactionId, issuerId, -amount), TransactionEntry(transactionId, merchantId, amount)];
    PairSums(r[0], r[1], transactionId);
    r
  }

  /** The cashback entries: merchant debit, then issuer credit. */
  function CashbackEntries(transactionId: int, issuerId: int, merchantId: int, amount: int): (r: seq<TransactionEntry>)
    ensures |r| == 2 && Sum(r) == 0
    ensures forall e :: e in r ==> e.transactionId == transactionId
    ensures r[0].accountId == merchantId && r[0].amount == -amount
    ensures r[1].accountId == issuerId && r[1].amount == amount
  {
    var r := [TransactionEntry(transactionId, merchantId, -amount), TransactionEntry(transactionId, issuerId, amount)];
    PairSums(r[0], r[1], transactionId);
    r
  }

  /** `createInboundTransaction`. Both accounts are looked up (issuer first)
      and validated before anything is written; then a PENDING INBOUND
      transaction with the next id and a `transaction.initiated` row are
      written, the hold is requested for that id, and the hold reply decides
      the status. A failed hold call rolls the whole unit of work back. */
  function CreateInbound(s: Store, request: CreateTransactionRequest, holdService: CreateHoldRequest -> HoldReply): (r: Outcome<CreateTransactionResponse>)
    ensures request.issuerAccountId !in s.accounts
      ==> r == Outcome(s, Err(IllegalArgument("Issuer account not found")))
    ensures request.issuerAccountId in s.accounts && request.merchantAccountId !in s.accounts
      ==> r == Outcome(s, Err(IllegalArgument("Merchant account not found")))
    ensures request.issuerAccountId in s.accounts && request.merchantAccountId in s.accounts
            && ValidateAccounts(s.accounts[request.issuerAccountId], s.accounts[request.merchantAccountId], request.amount).Some?
      ==> r == Outcome(s, Err(ValidateAccounts(s.accounts[request.issuerAccountId], s.accounts[request.merchantAccountId], request.amount).value))
    ensures request.issuerAccountId in s.accounts && request.merchantAccountId in s.accounts
            && ValidateAccounts(s.accounts[request.issuerAccountId], s.accounts[request.merchantAccountId], request.amount).None?
      ==> var reply := holdService(CreateHoldRequest(s.nextTransactionId, s.accounts[request.issuerAccountId].accountId,
                                                     s.accounts[request.merchantAccountId].accountId,
                                                     request.amount, request.currency));
          && (CheckHoldResponse(reply).Err? ==> r == Outcome(s, Err(Runtime(HOLD_REQUEST_FAILED))))
          && (CheckHoldResponse(reply).Ok? && reply.status.None? ==> r == Outcome(s, Err(Runtime(""))))
          && (CheckHoldResponse(reply).Ok? && reply.status.Some? ==> r.result.Ok?)
    ensures r.result.Err? ==> r.store == s
    ensures r.result.Ok? ==>
      var id := s.nextTransactionId;
      var issuer := s.accounts[request.issuerAccountId];
      var merchant := s.accounts[request.merchantAccountId];
      var reply := holdService(CreateHoldRequest(id, issuer.accountId, merchant.accountId, request.amount, request.currency));
      && ValidateAccounts(issuer, merchant, request.amount).None?
      && reply.HoldResponse? && reply.holdId.Some? && reply.status.Some?
      && r.result.value == CreateTransactionResponse(id, StatusAfterHold(reply.status.value))
      && r.store.transactions == s.transactions[id := Transaction(id, INBOUND, StatusAfterHold(reply.status.value),
                                                                  issuer.accountId, reply.holdId, merchant.accountId,
                                                                  request.amount, request.currency)]
      && r.store.nextTransactionId == id + 1
      && r.store.outbox == s.outbox + [Outbox.OutboxEvent(|s.outbox|, Outbox.TRANSACTION_INITIATED, id,
           InitiatedPayload(id, issuer.accountId, merchant.accountId, request.amount, request.currency),
           Outbox.PENDING, None)]
      && r.store.accounts == s.accounts && r.store.entries == s.entries && r.store.processed == s.processed
  {
    if request.issuerAccountId !in s.accounts then Outcome(s, Err(IllegalArgument("Issuer account not found")))
    else if request.merchantAccountId !in s.accounts then Outcome(s, Err(IllegalArgument("Merchant account not found")))
    else
      var issuer := s.accounts[request.issuerAccountId];
      var merchant := s.accounts[request.merchantAccountId];
      match ValidateAccounts(issuer, merchant, request.amount)
      case Some(error) => Outcome(s, Err(error))
      case None =>
        var id := s.nextTransactionId;
        var holdRequest := CreateHoldRequest(id, issuer.accountId, merchant.accountId, request.amount, request.currency);
        match CheckHoldResponse(holdService(holdRequest))
        case Err(error) => Outcome(s, Err(error))
        case Ok(response) =>
          if response.status.None? then
            // dereferencing the absent status throws a NullPointerException
            Outcome(s, Err(Runtime("")))
          else
            var txn := Transaction(id, INBOUND, StatusAfterHold(response.status.value), issuer.accountId,
                                   response.holdId, merchant.accountId, request.amount, request.currency);
            var payload := InitiatedPayload(id, issuer.accountId, merchant.accountId, request.amount, request.currency);
            Outcome(s.(transactions := s.transactions[id := txn], nextTransactionId := id + 1,
                       outbox := Outbox.AppendEvent(s.outbox, Outbox.TRANSACTION_INITIATED, id, payload)),
                    Ok(CreateTransactionResponse(id, txn.status)))
  }

  /** `commitTransaction`. The transaction must exist, be AUTHORIZED and carry
      the request's hold id (all three reported as bad requests, in that
      order); then both accounts must exist and the amount be positive. A
      commit posts the double entry, sets SUCCESS and appends one
      `transaction.posted` row. */
  function Commit(s: Store, transactionId: int, request: CommitTransactionRequest): (r: Outcome<CommitTransactionResponse>)
    ensures transactionId !in s.transactions
      ==> r == Outcome(s, Err(IllegalArgument("Transaction not found")))
    ensures transactionId in s.transactions && s.transactions[transactionId].status != AUTHORIZED
      ==> r == Outcome(s, Err(IllegalArgument("Transaction must be in AUTHORIZED state to commit")))
    ensures transactionId in s.transactions && s.transactions[transactionId].status == AUTHORIZED
            && s.transactions[transactionId].holdId != Some(request.holdId)
      ==> r == Outcome(s, Err(IllegalArgument("Hold ID mismatch")))
    ensures transactionId in s.transactions
            && s.transactions[transactionId].status == AUTHORIZED && s.transactions[transactionId].holdId == Some(request.holdId)
      ==> var t := s.transactions[transactionId];
          && (t.accountId !in s.accounts ==> r == Outcome(s, Err(IllegalArgument("Issuer account not found"))))
          && ((t.accountId in s.accounts && t.merchantId !in s.accounts)
                ==> r == Outcome(s, Err(IllegalArgument("Merchant account not found"))))
          && ((t.accountId in s.accounts && t.merchantId in s.accounts && t.amount <= 0)
                ==> r == Outcome(s, Err(IllegalState("Transaction amount must be positive: " + MoneyString(t.amount)))))
          && (t.accountId in s.accounts && t.merchantId in s.accounts && t.amount > 0 ==> r.result.Ok?)
    ensures r.result.Err? ==> r.store == s
    ensures r.result.Ok? ==>
      var t := s.transactions[transactionId];
      && t.status == AUTHORIZED && t.holdId == Some(request.holdId) && t.amount > 0
      && t.accountId in s.accounts && t.merchantId in s.accounts
      && r.result.value == CommitTransactionResponse(t.transactionId, SUCCESS, "Transaction committed successfully")
      && r.store.accounts == PostDoubleEntry(s.accounts, t.accountId, t.merchantId, t.amount)
      && r.store.entries == s.entries + CommitEntries(t.transactionId, s.accounts[t.accountId].accountId,
                                                      s.accounts[t.merchantId].accountId, t.amount)
      && r.store.transactions == s.transactions[transactionId := t.(status := SUCCESS)]
      && r.store.outbox == s.outbox + [Outbox.OutboxEvent(|s.outbox|, Outbox.TRANSACTION_POSTED, t.transactionId,
           PostedPayload(t.transactionId, t.txnType, s.accounts[t.accountId].accountId,
                         s.accounts[t.merchantId].accountId, t.amount, t.currency),
           Outbox.PENDING, None)]
      && r.store.nextTransactionId == s.nextTransactionId && r.store.processed == s.processed
  {
    if transactionId !in s.transactions then Outcome(s, Err(IllegalArgument("Transaction not found")))
    else
      var t := s.transactions[transactionId];
      if t.status != AUTHORIZED then Outcome(s, Err(IllegalArgument("Transaction must be in AUTHORIZED state to commit")))
      else if t.holdId != Some(request.holdId) then Outcome(s, Err(IllegalArgument("Hold ID mismatch")))
      else if t.accountId !in s.accounts then Outcome(s, Err(IllegalArgument("Issuer account not found")))
      else if t.merchantId !in s.accounts then Outcome(s, Err(IllegalArgument("Merchant account not found")))
      else if t.amount <= 0 then Outcome(s, Err(IllegalState("Transaction amount must be positive: " + MoneyString(t.amount))))
      else
        var issuerId := s.accounts[t.accountId].accountId;
        var merchantId := s.accounts[t.merchantId].accountId;
        var committed := t.(status := SUCCESS);
        var payload := PostedPayload(committed.transactionId, committed.txnType, issuerId, merchantId,
                                     committed.amount, committed.currency);
        Outcome(s.(accounts := PostDoubleEntry(s.accounts, t.accountId, t.merchantId, t.amount),
                   entries := s.entries + CommitEntries(t.transactionId, issuerId, merchantId, t.amount),
                   transactions := s.transactions[transactionId := committed],
                   outbox := Outbox.AppendEvent(s.outbox, Outbox.TRANSACTION_POSTED, committed.transactionId, payload)),
                Ok(CommitTransactionResponse(committed.transactionId, SUCCESS, "Transaction committed successfully")))
  }

  /** `createCashbackTransaction`: both accounts must exist (issuer first)
      and be ACTIVE, and the amount be positive; account types are not
      checked. It writes a SUCCESS CASHBACK transaction, credits the issuer
      and debits the merchant, adds the two entries and one
      `transaction.posted` row. */
  function Cashback(s: Store, request: CreateCashbackTransactionRequest): (r: Outcome<CreateTransactionResponse>)
    ensures request.issuerAccountId !in s.accounts
      ==> r == Outcome(s, Err(IllegalArgument("Issuer account not found")))
    ensures request.issuerAccountId in s.accounts && request.merchantAccountId !in s.accounts
      ==> r == Outcome(s, Err(IllegalArgument("Merchant account not found")))
    ensures request.issuerAccountId in s.accounts && request.merchantAccountId in s.accounts
            && (s.accounts[request.issuerAccountId].status != ACTIVE || s.accounts[request.merchantAccountId].status != ACTIVE)
      ==> r == Outcome(s, Err(IllegalArgument("Accounts must be ACTIVE")))
    ensures request.issuerAccountId in s.accounts && request.merchantAccountId in s.accounts
            && s.accounts[request.issuerAccountId].status == ACTIVE && s.accounts[request.merchantAccountId].status == ACTIVE
            && request.amount <= 0
      ==> r == Outcome(s, Err(IllegalArgument("Amount must be positive")))
    ensures request.issuerAccountId in s.accounts && request.merchantAccountId in s.accounts
            && s.accounts[request.issuerAccountId].status == ACTIVE && s.accounts[request.merchantAccountId].status == ACTIVE
            && request.amount > 0
      ==> r.result.Ok?
    ensures r.result.Err? ==> r.store == s
    ensures r.result.Ok? ==>
      var id := s.nextTransactionId;
      var issuerId := s.accounts[request.issuerAccountId].accountId;
      var merchantId := s.accounts[request.merchantAccountId].accountId;
      && request.amount > 0
      && r.result.value == CreateTransactionResponse(id, SUCCESS)
      && r.store.transactions == s.transactions[id := Transaction(id, CASHBACK, SUCCESS, issuerId, None, merchantId,
                                                                  request.amount, request.currency)]
      && r.store.nextTransactionId == id + 1
      && r.store.accounts == PostCashback(s.accounts, request.issuerAccountId, request.merchantAccountId, request.amount)
      && r.store.entries == s.entries + CashbackEntries(id, issuerId, merchantId, request.amount)
      && r.store.outbox == s.outbox + [Outbox.OutboxEvent(|s.outbox|, Outbox.TRANSACTION_POSTED, id,
           PostedPayload(id, CASHBACK, issuerId, merchantId, request.amount, request.currency),
           Outbox.PENDING, None)]
      && r.store.processed == s.processed
  {
    if request.issuerAccountId !in s.accounts then Outcome(s, Err(IllegalArgument("Issuer account not found")))
    else if request.merchantAccountId !in s.accounts then Outcome(s, Err(IllegalArgument("Merchant account not found")))
    else
      var issuer := s.accounts[request.issuerAccountId];
      var merchant := s.accounts[request.merchantAccountId];
      if issuer.status != ACTIVE || merchant.status != ACTIVE then Outcome(s, Err(IllegalArgument("Accounts must be ACTIVE")))
      else if request.amount <= 0 then Outcome(s, Err(IllegalArgument("Amount must be positive")))
      else
        var id := s.nextTransactionId;
        var txn := Transaction(id, CASHBACK, SUCCESS, issuer.accountId, None, merchant.accountId, request.amount, request.currency);
        var payload := PostedPayload(id, CASHBACK, issuer.accountId, merchant.accountId, request.amount, request.currency);
        Outcome(s.(transactions := s.transactions[id := txn], nextTransactionId := id + 1,
                   accounts := PostCashback(s.accounts, request.issuerAccountId, request.merchantAccountId, request.amount),
                   entries := s.entries + CashbackEntries(id, issuer.accountId, merchant.accountId, request.amount),
                   outbox := Outbox.AppendEvent(s.outbox, Outbox.TRANSACTION_POSTED, id, payload)),
                Ok(CreateTransactionResponse(id, SUCCESS)))
  }

  /** Appending a pair of entries that sum to zero and belong to one
      transaction keeps every transaction's entries summing to zero. */
  lemma AppendPairKeepsBalanced(entries: seq<TransactionEntry>, pair: seq<TransactionEntry>, transactionId: int)
    requires EntriesBalanced(entries)
    requires |pair| == 2 && Sum(pair) == 0
    requires forall e :: e in pair ==> e.transactionId == transactionId
    ensures EntriesBalanced(entries + pair)
  {
    forall t ensures SumFor(entries + pair, t) == 0 {
      SumForAppend(entries, pair, t);
      assert pair == [pair[0], pair[1]];
      PairSums(pair[0], pair[1], t);
      PairSums(pair[0], pair[1], transactionId);
    }
  }

  /** Conservation: a commit leaves the entries of every transaction summing
      to zero, and its own two entries cancel. */
  lemma CommitKeepsEntriesBalanced(s: Store, transactionId: int, request: CommitTransactionRequest)
    requires EntriesBalanced(s.entries)
    ensures EntriesBalanced(Commit(s, transactionId, request).store.entries)
  {
    var r := Commit(s, transactionId, request);
    if r.result.Ok? {
      var t := s.transactions[transactionId];
      AppendPairKeepsBalanced(s.entries,
        CommitEntries(t.transactionId, s.accounts[t.accountId].accountId, s.accounts[t.merchantId].accountId, t.amount),
        t.transactionId);
    }
  }

  lemma CashbackKeepsEntriesBalanced(s: Store, request: CreateCashbackTransactionRequest)
    requires EntriesBalanced(s.entries)
    ensures EntriesBalanced(Cashback(s, request).store.entries)
  {
    var r := Cashback(s, request);
    if r.result.Ok? {
      AppendPairKeepsBalanced(s.entries,
        CashbackEntries(s.nextTransactionId, s.accounts[request.issuerAccountId].accountId,
                        s.accounts[request.merchantAccountId].accountId, request.amount),
        s.nextTransactionId);
    }
  }

  lemma CreateInboundPreservesValidity(s: Store, request: CreateTransactionRequest, holdService: CreateHoldRequest -> HoldReply)
    requires StoreValid(s)
    ensures StoreValid(CreateInbound(s, request, holdService).store)
  {
  }

  lemma CommitPreservesValidity(s: Store, transactionId: int, request: CommitTransactionRequest)
    requires StoreValid(s)
    ensures StoreValid(Commit(s, transactionId, request).store)
  {
  }

  lemma CashbackPreservesValidity(s: Store, request: CreateCashbackTransactionRequest)
    requires StoreValid(s)
    ensures StoreValid(Cashback(s, request).store)
  {
  }

  /** Outbox atomicity: a successful creation leaves exactly one new
      `transaction.initiated` row, for the new transaction, which is the only
      new transaction; no balance moves. */
  lemma CreateInboundWritesOneInitiatedRow(s: Store, request: CreateTransactionRequest, holdService: CreateHoldRequest -> HoldReply)
    requires StoreValid(s)
    ensures var r := CreateInbound(s, request, holdService);
      r.result.Ok? ==>
        && r.result.value.transactionId !in s.transactions
        && r.store.transactions.Keys == s.transactions.Keys + {r.result.value.transactionId}
        && |r.store.outbox| == |s.outbox| + 1
        && r.store.outbox[|s.outbox|].eventType == Outbox.TRANSACTION_INITIATED
        && r.store.outbox[|s.outbox|].aggregateId == r.result.value.transactionId
        && r.store.accounts == s.accounts
  {
  }

  /** The ledger and outbox tables, as `TransactionServiceImpl` uses them. */
  class TransactionService {
    const ledger: LedgerStore
    const outbox: Outbox.OutboxEventService

    constructor (ledger: LedgerStore, outbox: Outbox.OutboxEventService)
      ensures this.ledger == ledger && this.outbox == outbox
    {
      this.ledger := ledger;
      this.outbox := outbox;
    }

    /** The service never reads the idempotency log; it is empty here. */
    function Snapshot(): Store
      reads ledger, outbox
    {
      Store(ledger.accounts, ledger.transactions, ledger.entries, ledger.nextTransactionId, outbox.events, map[])
    }

    ghost predicate Valid()
      reads ledger, outbox
    {
      StoreValid(Snapshot())
    }

    method CreateInboundTransaction(request: CreateTransactionRequest, holdService: CreateHoldRequest -> HoldReply)
      returns (response: Result<CreateTransactionResponse>)
      requires Valid()
      modifies ledger, outbox
      ensures Valid()
      ensures Outcome(Snapshot(), response) == CreateInbound(old(Snapshot()), request, holdService)
    {
      CreateInboundPreservesValidity(Snapshot(), request, holdService);
      if request.issuerAccountId !in ledger.accounts {
        return Err(IllegalArgument("Issuer account not found"));
      }
      var issuer := ledger.accounts[request.issuerAccountId];
      if request.merchantAccountId !in ledger.accounts {
        return Err(IllegalArgument("Merchant account not found"));
      }
      var merchant := ledger.accounts[request.merchantAccountId];
      var invalid := ValidateAccounts(issuer, merchant, request.amount);
      if invalid.Some? {
        return Err(invalid.value);
      }
      var transactions0, nextTransactionId0, events0 := ledger.transactions, ledger.nextTransactionId, outbox.events;
      var txn := Transaction(ledger.nextTransactionId, INBOUND, PENDING, issuer.accountId, None,
                             merchant.accountId, request.amount, request.currency);
      ledger.transactions := ledger.transactions[txn.transactionId := txn];
      ledger.nextTransactionId := ledger.nextTransactionId + 1;
      var initiated := outbox.SaveEvent(Outbox.TRANSACTION_INITIATED, txn.transactionId,
        InitiatedPayload(txn.transactionId, issuer.accountId, merchant.accountId, request.amount, request.currency));
      var checked := CheckHoldResponse(holdService(CreateHoldRequest(txn.transactionId, issuer.accountId,
                                                                     merchant.accountId, request.amount, request.currency)));
      if checked.Err? || checked.value.status.None? {
        // The unit of work rolls back.
        ledger.transactions, ledger.nextTransactionId, outbox.events := transactions0, nextTransactionId0, events0;
        return Err(if checked.Err? then checked.error else Runtime(""));
      }
      txn := txn.(holdId := checked.value.holdId, status := StatusAfterHold(checked.value.status.value));
      ledger.transactions := ledger.transactions[txn.transactionId := txn];
      response := Ok(CreateTransactionResponse(txn.transactionId, txn.status));
    }

    /** `performDoubleEntryPosting` with `createTransactionEntries`: rejects a
        non-positive amount before touching anything. */
    method PerformDoubleEntryPosting(transaction: Transaction, issuerId: int, merchantId: int) returns (failure: Option<Error>)
      requires issuerId in ledger.accounts && merchantId in ledger.accounts
      modifies ledger
      ensures failure.Some? <==> transaction.amount <= 0
      ensures failure.Some? ==> failure.value == IllegalState("Transaction amount must be positive: " + MoneyString(transaction.amount))
      ensures failure.Some? ==> ledger.accounts == old(ledger.accounts) && ledger.entries == old(ledger.entries)
      ensures failure.None? ==>
        && ledger.accounts == PostDoubleEntry(old(ledger.accounts), issuerId, merchantId, transaction.amount)
        && ledger.entries == old(ledger.entries) + CommitEntries(transaction.transactionId,
             old(ledger.accounts)[issuerId].accountId, old(ledger.accounts)[merchantId].accountId, transaction.amount)
      ensures ledger.transactions == old(ledger.transactions) && ledger.nextTransactionId == old(ledger.nextTransactionId)
    {
      var amount := transaction.amount;
      if amount <= 0 {
        return Some(IllegalState("Transaction amount must be positive: " + MoneyString(amount)));
      }
      var issuerAccountId, merchantAccountId := ledger.accounts[issuerId].accountId, ledger.accounts[merchantId].accountId;
      ledger.accounts := ledger.accounts[issuerId := ledger.accounts[issuerId].(availableBalance := ledger.accounts[issuerId].availableBalance - amount)];
      ledger.accounts := ledger.accounts[merchantId := ledger.accounts[merchantId].(availableBalance := ledger.accounts[merchantId].availableBalance + amount)];
      ledger.accounts := ledger.accounts[issuerId := ledger.accounts[issuerId].(reserved := ledger.accounts[issuerId].reserved - amount)];
      ledger.entries := ledger.entries + [TransactionEntry(transaction.transactionId, issuerAccountId, -amount)];
      ledger.entries := ledger.entries + [TransactionEntry(transaction.transactionId, merchantAccountId, amount)];
      failure := None;
    }

    method CommitTransaction(transactionId: int, request: CommitTransactionRequest)
      returns (response: Result<CommitTransactionResponse>)
      requires Valid()
      modifies ledger, outbox
      ensures Valid()
      ensures Outcome(Snapshot(), response) == Commit(old(Snapshot()), transactionId, request)
    {
      CommitPreservesValidity(Snapshot(), transactionId, request);
      if transactionId !in ledger.transactions {
        return Err(IllegalArgument("Transaction not found"));
      }
      var transaction := ledger.transactions[transactionId];
      if transaction.status != AUTHORIZED {
        return Err(IllegalArgument("Transaction must be in AUTHORIZED state to commit"));
      }
      if transaction.holdId != Some(request.holdId) {
        return Err(IllegalArgument("Hold ID mismatch"));
      }
      if transaction.accountId !in ledger.accounts {
        return Err(IllegalArgument("Issuer account not found"));
      }
      if transaction.merchantId !in ledger.accounts {
        return Err(IllegalArgument("Merchant account not found"));
      }
      var issuerId, merchantId := ledger.accounts[transaction.accountId].accountId, ledger.accounts[transaction.merchantId].accountId;
      var failure := PerformDoubleEntryPosting(transaction, transaction.accountId, transaction.merchantId);
      if failure.Some? {
        return Err(failure.value);
      }
      transaction := transaction.(status := SUCCESS);
      ledger.transactions := ledger.transactions[transactionId := transaction];
      var posted := outbox.SaveEvent(Outbox.TRANSACTION_POSTED, transaction.transactionId,
        PostedPayload(transaction.transactionId, transaction.txnType, issuerId, merchantId, transaction.amount, transaction.currency));
      response := Ok(CommitTransactionResponse(transaction.transactionId, SUCCESS, "Transaction committed successfully"));
    }

    method CreateCashbackTransaction(request: CreateCashbackTransactionRequest)
      returns (response: Result<CreateTransactionResponse>)
      requires Valid()
      modifies ledger, outbox
      ensures Valid()
      ensures Outcome(Snapshot(), response) == Cashback(old(Snapshot()), request)
    {
      CashbackPreservesValidity(Snapshot(), request);
      if request.issuerAccountId !in ledger.accounts {
        return Err(IllegalArgument("Issuer account not found"));
      }
      var issuer := ledger.accounts[request.issuerAccountId];
      if request.merchantAccountId !in ledger.accounts {
        return Err(IllegalArgument("Merchant account not found"));
      }
      var merchant := ledger.accounts[request.merchantAccountId];
      if issuer.status != ACTIVE || merchant.status != ACTIVE {
        return Err(IllegalArgument("Accounts must be ACTIVE"));
      }
      if request.amount <= 0 {
        return Err(IllegalArgument("Amount must be positive"));
      }
      var txn := Transaction(ledger.nextTransactionId, CASHBACK, SUCCESS, issuer.accountId, None,
                             merchant.accountId, request.amount, request.currency);
      ledger.transactions := ledger.transactions[txn.transactionId := txn];
      ledger.nextTransactionId := ledger.nextTransactionId + 1;
      var issuerKey, merchantKey := request.issuerAccountId, request.merchantAccountId;
      ledger.accounts := ledger.accounts[issuerKey := ledger.accounts[issuerKey].(availableBalance := ledger.accounts[issuerKey].availableBalance + request.amount)];
      ledger.accounts := ledger.accounts[merchantKey := ledger.accounts[merchantKey].(availableBalance := ledger.accounts[merchantKey].availableBalance - request.amount)];
      ledger.entries := ledger.entries + [TransactionEntry(txn.transactionId, merchant.accountId, -request.amount)];
      ledger.entries := ledger.entries + [TransactionEntry(txn.transactionId, issuer.accountId, request.amount)];
      var posted := outbox.SaveEvent(Outbox.TRANSACTION_POSTED, txn.transactionId,
        PostedPayload(txn.transactionId, CASHBACK, issuer.accountId, merchant.accountId, request.amount, request.currency));
      response := Ok(CreateTransactionResponse(txn.transactionId, SUCCESS));
    }
  }
}
