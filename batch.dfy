/**
 * A whole run: the records of the input, in order, each processed against the stores the previous
 * ones left. A row that could not be decoded, and a record whose processing fails, is reported and
 * skipped; neither stops the run.
 */
module Batch {
  import opened Wrappers
  import opened Ids
  import opened TxTypes
  import opened InputRecords
  import opened ClientErrors
  import opened TransactionErrors
  import opened Amounts
  import opened Transactions
  import opened Clients
  import opened TransactionServices
  import opened ServiceProperties

  /** The stores at start-up: no client, no transaction. */
  const NoStores := Stores(map[], map[])

  /** The rows of the input in order; None stands for a row that could not be decoded. */
  function ProcessStream(s: Stores, rows: seq<Option<InputRecord>>): (r: Stores)
    ensures s.clients.Keys <= r.clients.Keys
    ensures s.transactions.Keys <= r.transactions.Keys
    ensures (forall i | 0 <= i < |rows| :: rows[i].None?) ==> r == s
    decreases |rows|
  {
    if rows == [] then s
    else
      var next := match rows[0] case None => s case Some(record) => Process(s, record).stores;
      ProcessStream(next, rows[1..])
  }

  /** After any run, every stored client still satisfies total == available + held. */
  lemma {:induction false} StreamConserves(s: Stores, rows: seq<Option<InputRecord>>)
    requires AllConserved(s.clients)
    ensures AllConserved(ProcessStream(s, rows).clients)
    decreases |rows|
  {
    if rows != [] {
      if rows[0].Some? {
        ProcessConserves(s, rows[0].value);
      }
      var next := match rows[0] case None => s case Some(record) => Process(s, record).stores;
      StreamConserves(next, rows[1..]);
    }
  }

  /** After any run, the stores are still keyed by id, no client has gone and no lock has cleared. */
  lemma {:induction false} StreamKeepsLocks(s: Stores, rows: seq<Option<InputRecord>>)
    requires WellKeyed(s)
    ensures WellKeyed(ProcessStream(s, rows))
    ensures LocksKept(s, ProcessStream(s, rows))
    decreases |rows|
  {
    if rows != [] {
      var next := match rows[0] case None => s case Some(record) => Process(s, record).stores;
      if rows[0].Some? {
        ProcessKeepsKeys(s, rows[0].value);
        ProcessKeepsLocks(s, rows[0].value);
      }
      StreamKeepsLocks(next, rows[1..]);
    }
  }

  /** From start-up, every client at the end of any run is balanced, and each is stored under its id. */
  lemma RunFromStartUp(rows: seq<Option<InputRecord>>)
    ensures AllConserved(ProcessStream(NoStores, rows).clients)
    ensures WellKeyed(ProcessStream(NoStores, rows))
  {
    StreamConserves(NoStores, rows);
    StreamKeepsLocks(NoStores, rows);
  }

  /**
   * A row that could not be decoded, or a record whose processing fails, has no effect on the run:
   * the rest of the stream is processed exactly as if it were absent.
   */
  lemma SkippedRowsHaveNoEffect(s: Stores, row: Option<InputRecord>, rest: seq<Option<InputRecord>>)
    requires row.None? || Process(s, row.value).result.Err?
    ensures ProcessStream(s, [row] + rest) == ProcessStream(s, rest)
  {
    assert ([row] + rest)[1..] == rest;
  }

  /** The stream processes its first row, then the rest. */
  lemma StreamStep(s: Stores, record: InputRecord, rest: seq<Option<InputRecord>>)
    ensures ProcessStream(s, [Some(record)] + rest) == ProcessStream(Process(s, record).stores, rest)
  {
    assert ([Some(record)] + rest)[1..] == rest;
  }

  function DepositRow(client: ClientId, tx: TxId, amount: real): Option<InputRecord>
  {
    Some(InputRecord(Deposit, client, tx, Some(amount)))
  }

  function WithdrawalRow(client: ClientId, tx: TxId, amount: real): Option<InputRecord>
  {
    Some(InputRecord(Withdrawal, client, tx, Some(amount)))
  }

  /** A dispute, resolve or chargeback row: it names a transaction and carries no amount. */
  function LifecycleRow(txType: TxType, client: ClientId, tx: TxId): Option<InputRecord>
  {
    Some(InputRecord(txType, client, tx, None))
  }

  /** A client value with the given balances. */
  function Balances(id: ClientId, available: real, held: real, total: real, status: ClientStatus): ClientState
  {
    ClientState(id, AvailableAmount(available), HeldAmount(held), TotalAmount(total), status)
  }

  // The stores along the scenarios below: a new client deposits `a` under transaction `tx`,
  // disputes it, then resolves it or charges it back.

  function AfterFirstDeposit(s: Stores, client: ClientId, tx: TxId, a: real): Stores
  {
    Stores(s.clients[client := Balances(client, a, 0.0, a, Active)],
           s.transactions[tx := Transaction(tx, client, a, Deposit, Confirmed)])
  }

  function AfterItsDispute(s: Stores, client: ClientId, tx: TxId, a: real): Stores
  {
    Stores(s.clients[client := Balances(client, 0.0, a, a, Active)],
           s.transactions[tx := Transaction(tx, client, a, Deposit, Disputed)])
  }

  function AfterItsResolve(s: Stores, client: ClientId, tx: TxId, a: real): Stores
  {
    Stores(s.clients[client := Balances(client, a, 0.0, a, Active)],
           s.transactions[tx := Transaction(tx, client, a, Deposit, Disputed)])
  }

  lemma FirstDepositStep(s: Stores, client: ClientId, tx: TxId, a: real)
    requires WellKeyed(s) && client !in s.clients
    ensures Process(s, DepositRow(client, tx, a).value) ==
            Outcome(Ok(Balances(client, a, 0.0, a, Active)), AfterFirstDeposit(s, client, tx, a))
    ensures WellKeyed(AfterFirstDeposit(s, client, tx, a))
  {
    DepositCreatesClient(s, DepositRow(client, tx, a).value);
  }

  lemma DisputeStep(s: Stores, client: ClientId, tx: TxId, a: real)
    requires WellKeyed(s) && client !in s.clients
    ensures Process(AfterFirstDeposit(s, client, tx, a), LifecycleRow(Dispute, client, tx).value).stores ==
            AfterItsDispute(s, client, tx, a)
    ensures WellKeyed(AfterItsDispute(s, client, tx, a))
  {
    var deposited := AfterFirstDeposit(s, client, tx, a);
    FirstDepositStep(s, client, tx, a);
    assert deposited.clients[client] == Balances(client, a, 0.0, a, Active);
    assert deposited.transactions[tx] == Transaction(tx, client, a, Deposit, Confirmed);
    assert AfterDispute(Balances(client, a, 0.0, a, Active), a) == Ok(Balances(client, 0.0, a, a, Active));
    DisputeOutcome(deposited, LifecycleRow(Dispute, client, tx).value);
  }

  lemma ResolveStep(s: Stores, client: ClientId, tx: TxId, a: real)
    requires WellKeyed(s) && client !in s.clients
    ensures Process(AfterItsDispute(s, client, tx, a), LifecycleRow(Resolve, client, tx).value).stores ==
            AfterItsResolve(s, client, tx, a)
    ensures WellKeyed(AfterItsResolve(s, client, tx, a))
  {
    DisputeStep(s, client, tx, a);
    ResolveOutcome(AfterItsDispute(s, client, tx, a), LifecycleRow(Resolve, client, tx).value);
  }

  lemma ChargebackStep(s: Stores, client: ClientId, tx: TxId, a: real)
    requires WellKeyed(s) && client !in s.clients
    ensures Process(AfterItsDispute(s, client, tx, a), LifecycleRow(Chargeback, client, tx).value).stores ==
            Stores(s.clients[client := Balances(client, 0.0, 0.0, 0.0, Locked)],
                   AfterItsDispute(s, client, tx, a).transactions)
  {
    DisputeStep(s, client, tx, a);
    ChargebackOutcome(AfterItsDispute(s, client, tx, a), LifecycleRow(Chargeback, client, tx).value);
  }

  lemma ChargebackAfterResolveStep(s: Stores, client: ClientId, tx: TxId, a: real)
    requires WellKeyed(s) && client !in s.clients
    ensures Process(AfterItsResolve(s, client, tx, a), LifecycleRow(Chargeback, client, tx).value).stores ==
            Stores(s.clients[client := Balances(client, a, -a, 0.0, Locked)],
                   AfterItsResolve(s, client, tx, a).transactions)
  {
    ResolveStep(s, client, tx, a);
    ChargebackOutcome(AfterItsResolve(s, client, tx, a), LifecycleRow(Chargeback, client, tx).value);
  }

  /**
   * A new client deposits, disputes the deposit, resolves it: available is back at the amount,
   * nothing is held, the client is unlocked.
   */
  lemma DisputeThenResolve(s: Stores, client: ClientId, tx: TxId, a: real)
    requires WellKeyed(s) && client !in s.clients
    ensures ProcessStream(s, [DepositRow(client, tx, a), LifecycleRow(Dispute, client, tx),
                              LifecycleRow(Resolve, client, tx)]).clients ==
            s.clients[client := Balances(client, a, 0.0, a, Active)]
  {
    var deposit, dispute, resolve := DepositRow(client, tx, a), LifecycleRow(Dispute, client, tx), LifecycleRow(Resolve, client, tx);
    assert [deposit, dispute, resolve] == [deposit] + [dispute, resolve];
    assert [dispute, resolve] == [dispute] + [resolve];
    assert [resolve] == [resolve] + [];
    FirstDepositStep(s, client, tx, a);
    StreamStep(s, deposit.value, [dispute, resolve]);
    DisputeStep(s, client, tx, a);
    StreamStep(AfterFirstDeposit(s, client, tx, a), dispute.value, [resolve]);
    ResolveStep(s, client, tx, a);
    StreamStep(AfterItsDispute(s, client, tx, a), resolve.value, []);
  }

  /** A new client deposits, disputes the deposit, charges it back: nothing left, client locked. */
  lemma DisputeThenChargeback(s: Stores, client: ClientId, tx: TxId, a: real)
    requires WellKeyed(s) && client !in s.clients
    ensures ProcessStream(s, [DepositRow(client, tx, a), LifecycleRow(Dispute, client, tx),
                              LifecycleRow(Chargeback, client, tx)]).clients ==
            s.clients[client := Balances(client, 0.0, 0.0, 0.0, Locked)]
  {
    var deposit, dispute, chargeback := DepositRow(client, tx, a), LifecycleRow(Dispute, client, tx), LifecycleRow(Chargeback, client, tx);
    assert [deposit, dispute, chargeback] == [deposit] + [dispute, chargeback];
    assert [dispute, chargeback] == [dispute] + [chargeback];
    assert [chargeback] == [chargeback] + [];
    FirstDepositStep(s, client, tx, a);
    StreamStep(s, deposit.value, [dispute, chargeback]);
    DisputeStep(s, client, tx, a);
    StreamStep(AfterFirstDeposit(s, client, tx, a), dispute.value, [chargeback]);
    ChargebackStep(s, client, tx, a);
    StreamStep(AfterItsDispute(s, client, tx, a), chargeback.value, []);
  }

  /**
   * Resolve leaves the transaction Disputed, so a later chargeback of it is still accepted; with no
   * funds check it drives held to minus the amount, total to zero, and locks the client.
   */
  lemma ChargebackAfterResolve(s: Stores, client: ClientId, tx: TxId, a: real)
    requires WellKeyed(s) && client !in s.clients
    ensures var after := ProcessStream(s, [DepositRow(client, tx, a), LifecycleRow(Dispute, client, tx),
                                           LifecycleRow(Resolve, client, tx), LifecycleRow(Chargeback, client, tx)]);
            && tx in after.transactions && after.transactions[tx].IsUnderDispute()
            && after.clients == s.clients[client := Balances(client, a, -a, 0.0, Locked)]
  {
    var deposit, dispute := DepositRow(client, tx, a), LifecycleRow(Dispute, client, tx);
    var resolve, chargeback := LifecycleRow(Resolve, client, tx), LifecycleRow(Chargeback, client, tx);
    assert [deposit, dispute, resolve, chargeback] == [deposit] + [dispute, resolve, chargeback];
    assert [dispute, resolve, chargeback] == [dispute] + [resolve, chargeback];
    assert [resolve, chargeback] == [resolve] + [chargeback];
    assert [chargeback] == [chargeback] + [];
    FirstDepositStep(s, client, tx, a);
    StreamStep(s, deposit.value, [dispute, resolve, chargeback]);
    DisputeStep(s, client, tx, a);
    StreamStep(AfterFirstDeposit(s, client, tx, a), dispute.value, [resolve, chargeback]);
    ResolveStep(s, client, tx, a);
    StreamStep(AfterItsDispute(s, client, tx, a), resolve.value, [chargeback]);
    ChargebackAfterResolveStep(s, client, tx, a);
    StreamStep(AfterItsResolve(s, client, tx, a), chargeback.value, []);
  }

  /**
   * A new client deposits `a`, then withdraws more than `a`: the withdrawal fails for lack of
   * funds and changes nothing, so the run ends as if only the deposit had been read.
   */
  lemma InsufficientFunds(s: Stores, client: ClientId, tx: TxId, tx2: TxId, a: real, b: real)
    requires WellKeyed(s) && client !in s.clients
    requires a < b
    ensures Process(AfterFirstDeposit(s, client, tx, a), WithdrawalRow(client, tx2, b).value) ==
            Outcome(Err(ClientFailure(FundsUpdateError(client, "withdraw"))), AfterFirstDeposit(s, client, tx, a))
    ensures ProcessStream(s, [DepositRow(client, tx, a), WithdrawalRow(client, tx2, b)]) ==
            AfterFirstDeposit(s, client, tx, a)
  {
    var deposit, withdrawal := DepositRow(client, tx, a), WithdrawalRow(client, tx2, b);
    var deposited := AfterFirstDeposit(s, client, tx, a);
    FirstDepositStep(s, client, tx, a);
    assert [deposit, withdrawal] == [deposit] + [withdrawal];
    StreamStep(s, deposit.value, [withdrawal]);
    assert [withdrawal] == [withdrawal] + [];
    SkippedRowsHaveNoEffect(deposited, withdrawal, []);
  }

  /** Resolving, or charging back, a deposit that was never disputed is refused as not under dispute. */
  lemma LifecycleWithoutDispute(s: Stores, client: ClientId, tx: TxId, a: real, kind: TxType)
    requires WellKeyed(s) && client !in s.clients
    requires kind == Resolve || kind == Chargeback
    ensures Process(AfterFirstDeposit(s, client, tx, a), LifecycleRow(kind, client, tx).value) ==
            Outcome(Err(TransactionFailure(NotUnderDispute(tx))), AfterFirstDeposit(s, client, tx, a))
  {
    ResolveAndChargebackNeedDispute(AfterFirstDeposit(s, client, tx, a), LifecycleRow(kind, client, tx).value);
  }

  /** A row that could not be decoded, followed by a valid deposit: the deposit is processed normally. */
  lemma MalformedRowIsIsolated(s: Stores, client: ClientId, tx: TxId, a: real)
    requires WellKeyed(s) && client !in s.clients
    ensures ProcessStream(s, [None, DepositRow(client, tx, a)]) == AfterFirstDeposit(s, client, tx, a)
  {
    var deposit := DepositRow(client, tx, a);
    assert [None, deposit] == [None] + [deposit];
    SkippedRowsHaveNoEffect(s, None, [deposit]);
    assert [deposit] == [deposit] + [];
    FirstDepositStep(s, client, tx, a);
    StreamStep(s, deposit.value, []);
  }
}
