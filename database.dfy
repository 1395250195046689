/** The persistent state the services share: the ledger store (accounts,
    transactions and their entries), the outbox and the idempotency log.
    `Store` is a snapshot of all of it, the value the services' specification
    functions map from and to. */
module Database {
  import opened Model
  import Outbox
  import Idempotency

  type Records = map<Idempotency.EventKey, Idempotency.ProcessedEvent>

  datatype Store = Store(
    accounts: map<int, Account>,
    transactions: map<int, Transaction>,
    entries: seq<TransactionEntry>,
    nextTransactionId: int,
    outbox: seq<Outbox.OutboxEvent>,
    processed: Records)

  /** Rows are filed under their own ids, transaction ids are below the next
      id the sequence hands out, outbox ids are positions. */
  predicate StoreValid(s: Store)
  {
    && (forall id :: id in s.accounts ==> s.accounts[id].accountId == id)
    && (forall id :: id in s.transactions ==> s.transactions[id].transactionId == id && id < s.nextTransactionId)
    && Outbox.IdsAreIndices(s.outbox)
    && Idempotency.RecordsKeyed(s.processed)
  }

  predicate NonNegativeBalances(accounts: map<int, Account>)
  {
    forall id :: id in accounts ==> accounts[id].availableBalance >= 0 && accounts[id].reserved >= 0
  }

  /** Double-entry conservation: the entries of every transaction sum to zero. */
  ghost predicate EntriesBalanced(entries: seq<TransactionEntry>)
  {
    forall t :: SumFor(entries, t) == 0
  }

  /** The account, transaction and entry tables. */
  class LedgerStore {
    var accounts: map<int, Account>
    var transactions: map<int, Transaction>
    var entries: seq<TransactionEntry>
    var nextTransactionId: int

    constructor (accounts: map<int, Account>)
      requires forall id :: id in accounts ==> accounts[id].accountId == id
      ensures this.accounts == accounts && transactions == map[] && entries == [] && nextTransactionId == 1
    {
      this.accounts := accounts;
      transactions := map[];
      entries := [];
      nextTransactionId := 1;
    }
  }
}
