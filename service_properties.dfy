/**
 * What one processed record does to the stores: the invariants it keeps (balance conservation, ids
 * as keys, locks), what a failure leaves, and what each kind of record does on success.
 */
module ServiceProperties {
  import opened Wrappers
  import opened Ids
  import opened TxTypes
  import opened InputRecords
  import opened ClientErrors
  import opened TransactionErrors
  import opened Amounts
  import opened Transactions
  import opened Clients
  import ClientRepositories
  import TransactionRepositories
  import opened TransactionServices

  /** Every stored client satisfies total == available + held. */
  ghost predicate AllConserved(clients: map<ClientId, ClientState>)
  {
    forall id :: id in clients ==> clients[id].Conserved()
  }

  /** Both stores keep every entity under its own id, as the repositories do. */
  ghost predicate WellKeyed(s: Stores)
  {
    ClientRepositories.KeyedById(s.clients) && TransactionRepositories.KeyedById(s.transactions)
  }

  /** No client disappears, and no locked client is unlocked. */
  ghost predicate LocksKept(before: Stores, after: Stores)
  {
    forall id :: id in before.clients ==>
      id in after.clients && (before.clients[id].IsLocked() ==> after.clients[id].IsLocked())
  }

  /** Processing a record keeps every stored client balanced. */
  lemma ProcessConserves(s: Stores, record: InputRecord)
    requires AllConserved(s.clients)
    ensures AllConserved(Process(s, record).stores.clients)
  {
  }

  /** Processing a record keeps both stores keyed by id. */
  lemma ProcessKeepsKeys(s: Stores, record: InputRecord)
    requires WellKeyed(s)
    ensures WellKeyed(Process(s, record).stores)
  {
  }

  /** Processing a record deletes no client and unlocks none. */
  lemma ProcessKeepsLocks(s: Stores, record: InputRecord)
    requires WellKeyed(s)
    ensures LocksKept(s, Process(s, record).stores)
  {
  }

  /** A record that fails leaves both stores exactly as they were. */
  lemma FailureChangesNothing(s: Stores, record: InputRecord)
    ensures Process(s, record).result.Err? ==> Process(s, record).stores == s
  {
  }

  /** The service never reaches either of its "unexpected kind" arms. */
  lemma NeverUnexpectedTxType(s: Stores, record: InputRecord)
    ensures Process(s, record).result.Err? ==> !Process(s, record).result.error.UnexpectedTxType?
  {
  }

  /** A deposit or withdrawal without an amount is an invalid transaction, and touches no store. */
  lemma MissingAmountIsInvalid(s: Stores, record: InputRecord)
    requires record.txType == Deposit || record.txType == Withdrawal
    requires record.amount.None?
    ensures Process(s, record) == Outcome(Err(TransactionFailure(InvalidTransaction(record.tx))), s)
  {
  }

  /**
   * Any record other than a deposit that names an unknown client fails with the client not found,
   * and creates no client (a withdrawal without an amount is rejected first).
   */
  lemma UnknownClientNotFound(s: Stores, record: InputRecord)
    requires record.client !in s.clients
    requires record.txType != Deposit
    requires record.txType == Withdrawal ==> record.amount.Some?
    ensures Process(s, record) == Outcome(Err(ClientFailure(ClientErrors.NotFound(record.client))), s)
  {
  }

  /**
   * A deposit for an unknown client creates it and applies the deposit: available and total equal
   * the amount, held is zero, status Active, and the deposit is stored as a confirmed transaction.
   */
  lemma DepositCreatesClient(s: Stores, record: InputRecord)
    requires record.txType == Deposit && record.amount.Some?
    requires record.client !in s.clients
    ensures var a := record.amount.value;
            var c := ClientState(record.client, AvailableAmount(a), HeldAmount(0.0), TotalAmount(a), Active);
            Process(s, record) == Outcome(Ok(c), Stores(s.clients[record.client := c],
              s.transactions[record.tx := Transaction(record.tx, record.client, a, Deposit, Confirmed)]))
  {
  }

  /**
   * A deposit or withdrawal that succeeds stores the returned client under its id and the new
   * transaction, status Confirmed, under its id; a deposit always succeeds once it has an amount.
   */
  lemma NewTransactionRecorded(s: Stores, record: InputRecord)
    requires WellKeyed(s)
    requires record.txType == Deposit || record.txType == Withdrawal
    ensures record.txType == Deposit && record.amount.Some? ==> Process(s, record).result.Ok?
    ensures var o := Process(s, record);
            o.result.Ok? ==>
              && o.stores.clients == s.clients[record.client := o.result.value]
              && o.stores.transactions == s.transactions[record.tx :=
                   Transaction(record.tx, record.client, record.amount.value, record.txType, Confirmed)]
  {
  }

  /**
   * A deposit with an amount for a known client always succeeds: the client becomes AfterDeposit of
   * the stored one, is stored back, and the deposit is stored Confirmed.
   */
  lemma DepositOutcome(s: Stores, record: InputRecord)
    requires WellKeyed(s)
    requires record.txType == Deposit && record.amount.Some?
    requires record.client in s.clients
    ensures var o := Process(s, record);
            && o.result == Ok(AfterDeposit(s.clients[record.client], record.amount.value))
            && o.stores == Stores(s.clients[record.client := o.result.value],
                                  s.transactions[record.tx := Transaction(record.tx, record.client,
                                    record.amount.value, Deposit, Confirmed)])
  {
  }

  /**
   * A withdrawal with an amount for a known client succeeds exactly when available covers the
   * amount: the client becomes AfterWithdraw of the stored one and is stored with the new
   * transaction; otherwise it fails with the funds error and changes nothing.
   */
  lemma WithdrawalOutcome(s: Stores, record: InputRecord)
    requires WellKeyed(s)
    requires record.txType == Withdrawal && record.amount.Some?
    requires record.client in s.clients
    ensures var c := s.clients[record.client];
            var a := record.amount.value;
            var o := Process(s, record);
            && (o.result.Ok? <==> a <= c.available.Get())
            && (o.result.Ok? ==>
                  && o.result.value == AfterWithdraw(c, a).value
                  && o.stores == Stores(s.clients[record.client := o.result.value],
                                        s.transactions[record.tx := Transaction(record.tx, record.client, a,
                                          Withdrawal, Confirmed)]))
            && (o.result.Err? ==>
                  o.result.error == ClientFailure(FundsUpdateError(record.client, "withdraw")) && o.stores == s)
  {
  }

  /**
   * A dispute succeeds exactly when the client and the transaction exist, whatever the transaction's
   * status and whichever client it belongs to, and the client can cover its amount; it then holds
   * the amount on the client and marks the transaction Disputed. An absent transaction fails as not
   * found, an amount the client cannot cover as a funds error, and neither changes the stores.
   */
  lemma DisputeOutcome(s: Stores, record: InputRecord)
    requires WellKeyed(s)
    requires record.txType == Dispute
    ensures var o := Process(s, record);
            o.result.Ok? <==>
              record.client in s.clients && record.tx in s.transactions &&
              s.transactions[record.tx].amount <= s.clients[record.client].available.Get()
    ensures record.client in s.clients && record.tx !in s.transactions ==>
              Process(s, record) == Outcome(Err(TransactionFailure(TransactionErrors.NotFound(record.tx))), s)
    ensures record.client in s.clients && record.tx in s.transactions &&
            s.clients[record.client].available.Get() < s.transactions[record.tx].amount ==>
              Process(s, record) == Outcome(Err(ClientFailure(FundsUpdateError(record.client, "dispute"))), s)
    ensures var o := Process(s, record);
            o.result.Ok? ==>
              var t := s.transactions[record.tx];
              && o.result.value == AfterDispute(s.clients[record.client], t.amount).value
              && o.stores.clients == s.clients[record.client := o.result.value]
              && o.stores.transactions == s.transactions[record.tx := t.(status := Disputed)]
  {
  }

  /**
   * Resolve and chargeback need the transaction to exist (NotFound otherwise) and to be under
   * dispute (NotUnderDispute otherwise), and never change the transaction store: the transaction
   * stays Disputed after either.
   */
  lemma ResolveAndChargebackNeedDispute(s: Stores, record: InputRecord)
    requires record.txType == Resolve || record.txType == Chargeback
    requires record.client in s.clients
    ensures record.tx !in s.transactions ==>
              Process(s, record) == Outcome(Err(TransactionFailure(TransactionErrors.NotFound(record.tx))), s)
    ensures record.tx in s.transactions && !s.transactions[record.tx].IsUnderDispute() ==>
              Process(s, record) == Outcome(Err(TransactionFailure(NotUnderDispute(record.tx))), s)
    ensures Process(s, record).stores.transactions == s.transactions
  {
  }

  /**
   * A resolve of a disputed transaction succeeds exactly when the client's held funds cover its
   * amount, and then releases the amount back to available.
   */
  lemma ResolveOutcome(s: Stores, record: InputRecord)
    requires WellKeyed(s)
    requires record.txType == Resolve
    requires record.client in s.clients && record.tx in s.transactions
    requires s.transactions[record.tx].IsUnderDispute()
    ensures var c := s.clients[record.client];
            var a := s.transactions[record.tx].amount;
            var o := Process(s, record);
            && (o.result.Ok? <==> a <= c.held.Get())
            && (o.result.Ok? ==> o.result.value == AfterResolve(c, a).value &&
                                 o.stores == Stores(s.clients[record.client := o.result.value], s.transactions))
            && (o.result.Err? ==> o.result.error == ClientFailure(FundsUpdateError(record.client, "resolve")))
  {
  }

  /**
   * A chargeback of a disputed transaction always succeeds: the amount comes off held and total,
   * with no funds check, and the client is locked.
   */
  lemma ChargebackOutcome(s: Stores, record: InputRecord)
    requires WellKeyed(s)
    requires record.txType == Chargeback
    requires record.client in s.clients && record.tx in s.transactions
    requires s.transactions[record.tx].IsUnderDispute()
    ensures var c := s.clients[record.client];
            var o := Process(s, record);
            && o.result == Ok(AfterChargeback(c, s.transactions[record.tx].amount))
            && o.result.value.IsLocked()
            && o.stores == Stores(s.clients[record.client := o.result.value], s.transactions)
  {
  }
}
