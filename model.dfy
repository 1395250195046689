/** The persistent entities of the ledger service (package `model`) and the
    failure type that mirrors the exceptions its services throw.

    Money is held as an integer number of minor units: every balance and
    amount column is a decimal with scale 2, so 150.75 is 15075 here. */
module Model {

  datatype Option<+T> = None | Some(value: T)

  /** The three exception classes the services raise; the HTTP layer maps
      them to 400, 409 and 500 respectively. */
  datatype Error =
    | IllegalArgument(message: string)
    | IllegalState(message: string)
    | Runtime(message: string)

  datatype Result<+T> = Ok(value: T) | Err(error: Error)

  datatype AccountType = ISSUER | MERCHANT

  datatype AccountStatus = ACTIVE | BLOCKED | CLOSED

  /** A ledger party; `availableBalance` and `reserved` are in minor units. */
  datatype Account = Account(
    accountId: int,
    customerId: int,
    accountType: AccountType,
    status: AccountStatus,
    availableBalance: int,
    reserved: int,
    creditLimit: int)

  datatype TransactionType = INBOUND | CASHBACK

  datatype TransactionStatus = PENDING | AUTHORIZED | SUCCESS | FAILED

  /** One money movement: `accountId` is the issuer, `merchantId` the
      merchant; `holdId` stays absent until a hold is confirmed. */
  datatype Transaction = Transaction(
    transactionId: int,
    txnType: TransactionType,
    status: TransactionStatus,
    accountId: int,
    holdId: Option<int>,
    merchantId: int,
    amount: int,
    currency: string)

  /** One leg of a double-entry posting: negative is a debit, positive a credit. */
  datatype TransactionEntry = TransactionEntry(transactionId: int, accountId: int, amount: int)

  /** The records serialised into outbox payloads, one variant per event type.
      A failed payload's hold id may be null, so it is named `hold` there. */
  datatype Payload =
    | InitiatedPayload(transactionId: int, issuerAccountId: int, merchantAccountId: int,
                       amount: int, currency: string)
    | AuthorizedPayload(transactionId: int, holdId: int, issuerAccountId: int,
                        merchantAccountId: int, amount: int, currency: string,
                        status: TransactionStatus)
    | FailedPayload(transactionId: int, hold: Option<int>, accountId: int, amount: int,
                    currency: string, status: TransactionStatus, reason: string)
    | PostedPayload(transactionId: int, txnType: TransactionType, issuerAccountId: int,
                    merchantAccountId: int, amount: int, currency: string)

  /** The sum of the amounts of a list of entries. */
  function Sum(entries: seq<TransactionEntry>): int
  {
    if entries == [] then 0 else Sum(entries[..|entries| - 1]) + entries[|entries| - 1].amount
  }

  /** The sum of the amounts of the entries that belong to one transaction. */
  function SumFor(entries: seq<TransactionEntry>, transactionId: int): int
  {
    if entries == [] then 0
    else
      var last := entries[|entries| - 1];
      SumFor(entries[..|entries| - 1], transactionId) + (if last.transactionId == transactionId then last.amount else 0)
  }

  /** The sums of a two-entry posting. */
  lemma PairSums(a: TransactionEntry, b: TransactionEntry, transactionId: int)
    ensures Sum([a, b]) == a.amount + b.amount
    ensures SumFor([a, b], transactionId)
         == (if a.transactionId == transactionId then a.amount else 0)
          + (if b.transactionId == transactionId then b.amount else 0)
  {
    var p := [a, b];
    var single := [a];
    assert single[..0] == [];
    assert Sum(single) == Sum(single[..0]) + a.amount;
    assert SumFor(single, transactionId)
        == SumFor(single[..0], transactionId) + (if a.transactionId == transactionId then a.amount else 0);
    assert p[..1] == single && p[1] == b;
    assert Sum(p) == Sum(p[..1]) + p[1].amount;
    assert SumFor(p, transactionId) == SumFor(p[..1], transactionId) + (if b.transactionId == transactionId then b.amount else 0);
  }

  lemma {:induction false} SumForAppend(a: seq<TransactionEntry>, b: seq<TransactionEntry>, transactionId: int)
    ensures SumFor(a + b, transactionId) == SumFor(a, transactionId) + SumFor(b, transactionId)
    decreases |b|
  {
    if b == [] {
      assert a + b == a;
    } else {
      var b' := b[..|b| - 1];
      assert (a + b)[..|a + b| - 1] == a + b';
      SumForAppend(a, b', transactionId);
    }
  }
}
