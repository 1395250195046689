/** End-to-end consequences of the hold and commit flows taken together. */
module Scenarios {
  import opened Model
  import opened Messages
  import opened Database
  import HoldEvents
  import Transactions

  /** The created-hold-then-commit scenario on an issuer with 1000.00
      available and a merchant with 500.00: the hold moves 250.00 to
      reserved, and the commit then debits available a second time, so the
      issuer ends with 500.00 available (not 750.00), 0.00 reserved, and the
      merchant with 750.00. */
  lemma CommitAfterHoldDebitsIssuerTwice(s: Store, e: HoldCreatedEvent, holdId: int)
    requires StoreValid(s) && HoldEvents.IsFresh(s.processed, Created(e))
    requires e.transactionId in s.transactions && e.holdId == Some(holdId)
    requires var t := s.transactions[e.transactionId];
      && t.accountId == e.issuerAccountId && t.merchantId != t.accountId
      && t.merchantId in s.accounts && t.holdId == Some(holdId) && t.amount == e.amount
    requires e.issuerAccountId in s.accounts
    requires s.accounts[e.issuerAccountId].availableBalance == 100000 && s.accounts[e.issuerAccountId].reserved == 0
    requires s.accounts[s.transactions[e.transactionId].merchantId].availableBalance == 50000
    requires e.amount == 25000
    ensures var held := HoldEvents.Deliver(s, Created(e)).store;
      var committed := Transactions.Commit(held, e.transactionId, CommitTransactionRequest(holdId));
      var m := s.transactions[e.transactionId].merchantId;
      && committed.result.Ok?
      && committed.store.accounts[e.issuerAccountId].availableBalance == 50000
      && committed.store.accounts[e.issuerAccountId].reserved == 0
      && committed.store.accounts[m].availableBalance == 75000
      && committed.store.transactions[e.transactionId].status == SUCCESS
      && SumFor(committed.store.entries, e.transactionId) == SumFor(s.entries, e.transactionId)
  {
    var held := HoldEvents.Deliver(s, Created(e)).store;
    var t := s.transactions[e.transactionId];
    assert held.transactions[e.transactionId] == t.(status := AUTHORIZED);
    var committed := Transactions.Commit(held, e.transactionId, CommitTransactionRequest(holdId));
    var pair := Transactions.CommitEntries(e.transactionId, e.issuerAccountId, t.merchantId, t.amount);
    assert committed.store.entries == s.entries + pair;
    SumForAppend(s.entries, pair, e.transactionId);
    assert pair == [pair[0], pair[1]];
    PairSums(pair[0], pair[1], e.transactionId);
  }

  /** A hold of an issuer's whole available balance, then its commit, leaves
      the issuer's available balance negative: the commit path has no
      balance check of its own. */
  lemma CommitCanDriveAvailableNegative(s: Store, e: HoldCreatedEvent, holdId: int)
    requires StoreValid(s) && HoldEvents.IsFresh(s.processed, Created(e))
    requires e.transactionId in s.transactions && e.holdId == Some(holdId)
    requires var t := s.transactions[e.transactionId];
      && t.accountId == e.issuerAccountId && t.merchantId != t.accountId
      && t.merchantId in s.accounts && t.holdId == Some(holdId) && t.amount == e.amount
    requires e.issuerAccountId in s.accounts && e.amount > 0
    requires s.accounts[e.issuerAccountId].availableBalance == e.amount
    ensures var held := HoldEvents.Deliver(s, Created(e)).store;
      var committed := Transactions.Commit(held, e.transactionId, CommitTransactionRequest(holdId));
      && (NonNegativeBalances(s.accounts) ==> NonNegativeBalances(held.accounts))
      && committed.result.Ok?
      && committed.store.accounts[e.issuerAccountId].availableBalance == -e.amount
  {
    var held := HoldEvents.Deliver(s, Created(e)).store;
    assert held.transactions[e.transactionId] == s.transactions[e.transactionId].(status := AUTHORIZED);
    if NonNegativeBalances(s.accounts) {
      HoldEvents.DeliverKeepsBalancesNonNegative(s, Created(e));
    }
  }
}
