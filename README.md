# Payments engine core: a Dafny model

This project models the transaction-processing core of a small payments engine written in Rust. The engine reads a stream of records. Each record is a deposit, withdrawal, dispute, resolve or chargeback for a client. Each client has three balances (available, held, total) and a status (Active or Locked).

The model covers:

- **Amounts** (`Amounts`). The three balance newtypes, with `new`, `get` and `add`.
- **Transaction kinds** (`TxTypes`). The enum and its string parser.
- **Transactions** (`Transactions`). The entity, its Confirmed/Disputed status, and its construction from an input record.
- **Clients** (`Clients`). The client's value (`ClientState`) and one specification function per balance operation, over that value. The class `Client` has mutable fields, and its five methods are proved against those functions.
- **Repositories** (`ClientRepositories`, `TransactionRepositories`). Two classes, each holding a `map`. Lookups are functions. `create`/`update` are methods that insert into the map.
- **The orchestrator** (`TransactionServices`). `Process` states, on map values, what one record does to both stores. The class `TransactionService` works step by step, in the clone–mutate–persist order of the Rust code: it fetches a copy of the client, mutates it, then writes it back through the repositories. `ProcessTransaction` is proved equal to `Process`.
- **Output rows** (`OutputRecords`). The projection of a client onto an output row.
- **The run** (`Batch`). The main loop is modelled as a fold over the input rows: a failed record is reported and skipped, and so is a row that could not be decoded.

Properties proved:

- Every operation keeps `total == available + held`.
- A locked client stays locked.
- A record that fails leaves both stores exactly as they were.
- The service's "unexpected kind" arms are unreachable.
- The exact outcome of each kind of record for a known client (deposit, withdrawal, dispute, resolve, chargeback), and of a first deposit, including the error cases.
- The repositories' insert/lookup laws.
- The parser accepts exactly the five spellings.
- Whole-run scenarios for a new client:
  - deposit, dispute, resolve restores the balances;
  - deposit, dispute, chargeback empties and locks the client;
  - a chargeback after a resolve is still accepted, because resolve leaves the transaction Disputed;
  - an over-withdrawal is refused;
  - an undecodable row does not affect the next one.

Three behaviours of the code are reproduced as they are written:

- A dispute does not check whether the transaction's status or owner matches the record's client.
- Resolve and chargeback never change the transaction's status.
- Chargeback does no funds check, so held can go negative.

## Model

| member | source | states |
|---|---|---|
| Amounts.AvailableAmount.Add | src/domain/amounts.rs:13-15 | `add(x)` makes `get()` return the old value plus `x` |
| Amounts.HeldAmount.Add | src/domain/amounts.rs:26-28 | `add(x)` makes `get()` return the old value plus `x` |
| Amounts.TotalAmount.Add | src/domain/amounts.rs:43-45 | `add(x)` makes `get()` return the old value plus `x` |
| Amounts.NewGetRoundTrip | src/domain/amounts.rs:5-11 | for each of the three amounts, `new(x).get() == x` |
| Amounts.AddThenSubtractRestores | src/domain/amounts.rs:13-15 | adding `x` then `-x` restores each amount (exact arithmetic) |
| Amounts.AddsCompose | src/domain/amounts.rs:13-15 | two adds equal one add of the sum, for each amount |
| TxTypes.Parse | src/domain/tx_type.rs:16-25 | parsing succeeds iff the string is one of the five lower-case spellings; the variant's spelling is the input; otherwise the error carries the input |
| TxTypes.ParseSpelling | src/domain/tx_type.rs:17-22 | every variant's spelling parses back to that variant |
| TxTypes.ParseInjective | src/domain/tx_type.rs:17-22 | two strings that parse to the same variant are equal |
| TxTypes.ParseRejectsNearMisses | src/domain/tx_type.rs:23 | upper case, a misspelling, a leading or trailing space and the empty string are rejected |
| Transactions.NewTransaction | src/domain/transaction.rs:17-25 | a new transaction copies id, client, amount and kind, and is Confirmed |
| Transactions.UnderDisputeIffDisputed | src/domain/transaction.rs:27-29 | `is_under_dispute` holds iff the status is Disputed |
| Transactions.TryFrom | src/domain/transaction.rs:35-45 | succeeds iff the record has an amount, copying tx, client, amount and kind with status Confirmed; otherwise `InvalidTransaction` with the record's tx id |
| Clients.Initial | src/domain/client.rs:16-24 | a new client has zero balances, status Active, is not locked and is balanced |
| Clients.AfterDeposit | src/domain/client.rs:30-34 | deposit adds the amount to available and total; held, id and status unchanged |
| Clients.AfterWithdraw | src/domain/client.rs:36-47 | fails with `FundsUpdateError(id, "withdraw")` iff available < amount; otherwise subtracts it from available and total only |
| Clients.AfterDispute | src/domain/client.rs:49-60 | fails with `FundsUpdateError(id, "dispute")` iff available < amount; otherwise moves it from available to held, total unchanged |
| Clients.AfterResolve | src/domain/client.rs:62-73 | fails with `FundsUpdateError(id, "resolve")` iff held < amount; otherwise moves it from held to available, total unchanged |
| Clients.AfterChargeback | src/domain/client.rs:75-80 | no funds check: held and total drop by the amount, status becomes Locked |
| Clients.WithdrawUndoesDeposit | src/domain/client.rs:30-47 | from a non-negative available balance, a withdrawal of what was just deposited succeeds and restores the client |
| Clients.ResolveUndoesDispute | src/domain/client.rs:49-73 | from a non-negative held balance, resolving what was just disputed succeeds and restores the client |
| Clients.LockIsPermanent | src/domain/client.rs:26-80 | no operation unlocks a locked client; chargeback locks any client |
| Clients.ClientState.IsLocked | src/domain/client.rs:26-28 | a client is locked exactly when its status is Locked |
| Clients.Client.constructor | src/domain/client.rs:16-24 | the new object's value is the initial client |
| Clients.Client.FromState | src/repository/client_repository.rs:29-32 | the working copy of a stored client: a fresh object whose value is the stored value |
| Clients.Client.Deposit | src/domain/client.rs:30-34 | returns Ok; the new value is `AfterDeposit` of the old |
| Clients.Client.Withdraw | src/domain/client.rs:36-47 | the result and new value follow `AfterWithdraw`; on error nothing changes |
| Clients.Client.Dispute | src/domain/client.rs:49-60 | the result and new value follow `AfterDispute`; on error nothing changes |
| Clients.Client.Resolve | src/domain/client.rs:62-73 | the result and new value follow `AfterResolve`; on error nothing changes |
| Clients.Client.Chargeback | src/domain/client.rs:75-80 | returns Ok; the new value is `AfterChargeback` of the old |
| OutputRecords.FromClient | src/domain/output_record.rs:14-24 | copies id and the three balances; `locked` iff status is Locked; a balanced client gives a balanced row |
| MapFacts.OneValuePerKey | src/repository/client_repository.rs:45-47 | a map whose every value is stored under its own key has as many distinct values as keys |
| ClientRepositories.ClientRepository.constructor | src/repository/client_repository.rs:20-24 | a new client store is empty and valid |
| ClientRepositories.ClientRepository.GetClient | src/repository/client_repository.rs:28-33 | the stored client when the id is present, otherwise `NotFound(id)` |
| ClientRepositories.ClientRepository.CreateClient | src/repository/client_repository.rs:35-38 | returns the input; the map gains or overwrites exactly the entry at its id; lookups of it then return it |
| ClientRepositories.ClientRepository.UpdateClient | src/repository/client_repository.rs:40-43 | the same map effect as create, including for an absent id; other ids unchanged |
| ClientRepositories.ClientRepository.GetAllClients | src/repository/client_repository.rs:45-47 | yields exactly the stored clients |
| ClientRepositories.ClientRepository.AllClientsOnePerId | src/repository/client_repository.rs:45-47 | there is one yielded client per stored id |
| TransactionRepositories.TransactionRepository.constructor | src/repository/transaction_repository.rs:27-31 | a new transaction store is empty and valid |
| TransactionRepositories.TransactionRepository.GetTransaction | src/repository/transaction_repository.rs:35-40 | the stored transaction when the id is present, otherwise `NotFound(id)` |
| TransactionRepositories.TransactionRepository.GetTransactionUnderDispute | src/repository/transaction_repository.rs:42-54 | `NotFound` when absent, `NotUnderDispute` when present but not Disputed, the transaction when Disputed |
| TransactionRepositories.TransactionRepository.CreateTransaction | src/repository/transaction_repository.rs:56-63 | returns the input; inserts or overwrites only the entry at its id |
| TransactionRepositories.TransactionRepository.UpdateTransaction | src/repository/transaction_repository.rs:65-72 | the same map effect as create, including for an absent id |
| TransactionRepositories.UnderDisputeRefinesGet | src/repository/transaction_repository.rs:35-54 | the under-dispute lookup succeeds iff the plain lookup does and the transaction is Disputed, with the same value |
| TransactionServices.GetOrCreate | src/service/transaction_service.rs:118-127 | the returned client is the one stored under the id; every stored client is kept; an unknown id gains a new client with zero balances |
| TransactionServices.ProcessNew | src/service/transaction_service.rs:52-76 | a failure changes no store; success stores the returned client under its id and the new transaction under its id; a deposit always succeeds; a withdrawal succeeds iff the client exists and available covers the amount; no client is removed |
| TransactionServices.ProcessExisting | src/service/transaction_service.rs:78-116 | a failure changes no store; success needs the client and the transaction to exist and stores the returned client under its id; resolve and chargeback leave the transaction store as it was and succeed only on a Disputed transaction |
| TransactionServices.Process | src/service/transaction_service.rs:34-44 | a failure changes no store; success stores the returned client under its id; no client and no transaction is ever removed |
| TransactionServices.TransactionService.constructor | src/service/transaction_service.rs:27-32 | the service holds exactly the two repositories it is given |
| TransactionServices.TransactionService.ProcessTransaction | src/service/transaction_service.rs:34-44 | result and new stores are those of `Process`; a failed record leaves both repositories unchanged |
| TransactionServices.TransactionService.ProcessNewTransaction | src/service/transaction_service.rs:52-76 | result and new stores are those of `ProcessNew` |
| TransactionServices.TransactionService.ProcessExistingTransaction | src/service/transaction_service.rs:78-116 | result and new stores are those of `ProcessExisting` |
| TransactionServices.TransactionService.GetOrCreateClient | src/service/transaction_service.rs:118-127 | always succeeds; returns the stored client, or stores and returns a new one |
| TransactionServices.RowsOnePerClient | src/service/transaction_service.rs:46-50 | clients with distinct ids give as many output rows as clients |
| TransactionServices.TransactionService.GetAllClients | src/service/transaction_service.rs:46-50 | exactly one output row per stored client, each `FromClient` of it |
| TransactionServices.TransactionService.OneRowPerClient | src/service/transaction_service.rs:46-50 | in a valid store there is exactly one output row per stored client |
| ServiceProperties.ProcessConserves | src/service/transaction_service.rs:34-44 | processing a record keeps every stored client balanced |
| ServiceProperties.ProcessKeepsKeys | src/service/transaction_service.rs:70-74 | both stores stay keyed by the entity's own id |
| ServiceProperties.ProcessKeepsLocks | src/service/transaction_service.rs:34-44 | no client is removed and no locked client is unlocked |
| ServiceProperties.FailureChangesNothing | src/service/transaction_service.rs:52-116 | a failed record leaves both stores unchanged |
| ServiceProperties.NeverUnexpectedTxType | src/service/transaction_service.rs:64-67 | the two `bail!` arms (also 108-111) are never reached from `process_transaction` |
| ServiceProperties.MissingAmountIsInvalid | src/service/transaction_service.rs:39-41 | a deposit or withdrawal without an amount fails with `InvalidTransaction` and touches no store |
| ServiceProperties.UnknownClientNotFound | src/service/transaction_service.rs:59-61 | a withdrawal with an amount, a dispute, a resolve or a chargeback for an unknown client fails with `NotFound` (also line 84) and creates no client; a withdrawal without an amount fails earlier, with `InvalidTransaction` (see `MissingAmountIsInvalid`) |
| ServiceProperties.DepositCreatesClient | src/service/transaction_service.rs:54-57 | a deposit for an unknown client creates it and yields available = total = amount, held 0, Active, with the deposit stored Confirmed |
| ServiceProperties.NewTransactionRecorded | src/service/transaction_service.rs:70-75 | a successful deposit or withdrawal stores the client and the new Confirmed transaction; a deposit with an amount always succeeds |
| ServiceProperties.DepositOutcome | src/service/transaction_service.rs:54-57 | a deposit for a known client always succeeds with `AfterDeposit` of the stored client, which is stored back together with the Confirmed deposit (also lines 70-75) |
| ServiceProperties.WithdrawalOutcome | src/service/transaction_service.rs:59-62 | a withdrawal for a known client succeeds iff available covers the amount, giving `AfterWithdraw` of the stored client, stored with the Confirmed withdrawal; otherwise `FundsUpdateError(client, "withdraw")` and no store changes |
| ServiceProperties.DisputeOutcome | src/service/transaction_service.rs:87-95 | succeeds iff the client and transaction exist and available covers the amount, whatever the transaction's status or owner; then holds the amount and marks it Disputed; an absent transaction fails with `NotFound(tx)` (line 88) and an uncovered amount with `FundsUpdateError(client, "dispute")` (line 89), both leaving the stores unchanged |
| ServiceProperties.ResolveAndChargebackNeedDispute | src/service/transaction_service.rs:96-107 | `NotFound` for an absent transaction, `NotUnderDispute` for one not Disputed; the transaction store never changes |
| ServiceProperties.ResolveOutcome | src/service/transaction_service.rs:96-101 | on a disputed transaction, succeeds iff held covers the amount, releasing it; only the client is stored |
| ServiceProperties.ChargebackOutcome | src/service/transaction_service.rs:102-107 | on a disputed transaction, always succeeds and locks the client; only the client is stored |
| Batch.ProcessStream | src/main.rs:23-34 | the run loop: no client and no transaction is ever removed, and a run of undecodable rows changes nothing |
| Batch.StreamConserves | src/main.rs:23-34 | after any run every stored client is balanced |
| Batch.StreamKeepsLocks | src/main.rs:23-34 | after any run the stores are keyed by id, no client has gone and no lock has cleared |
| Batch.RunFromStartUp | src/main.rs:16-34 | a run from empty stores ends with every client balanced and both stores keyed by id |
| Batch.SkippedRowsHaveNoEffect | src/main.rs:23-34 | an undecodable row, or a record that fails, leaves the rest of the run as if it were absent |
| Batch.DisputeThenResolve | src/service/transaction_service.rs:87-101 | deposit, dispute, resolve by a new client leaves available = total = amount, held 0, Active |
| Batch.DisputeThenChargeback | src/service/transaction_service.rs:87-107 | deposit, dispute, chargeback by a new client leaves zero balances and Locked |
| Batch.ChargebackAfterResolve | src/service/transaction_service.rs:96-107 | after deposit, dispute, resolve, a chargeback is still accepted: held becomes minus the amount, total 0, Locked, transaction still Disputed |
| Batch.InsufficientFunds | src/domain/client.rs:36-42 | in a run of a new client's deposit of `a` then a withdrawal of more than `a`, the withdrawal fails with `FundsUpdateError(client, "withdraw")` and the run ends exactly as after the deposit alone |
| Batch.LifecycleWithoutDispute | src/repository/transaction_repository.rs:51-53 | resolving or charging back an undisputed deposit fails with `NotUnderDispute` and changes nothing |
| Batch.MalformedRowIsIsolated | src/main.rs:30-32 | an undecodable row is skipped and the next record is processed as if it were first |

## Left out

- CSV decoding, command-line handling and printing to stdout/stderr (src/main.rs) are I/O. The run is modelled as a fold over already-decoded rows, with `None` for a row that failed to decode.
- Client and transaction ids are bounded integers (`< 65536`, `< 4294967296`). Parsing them from text is the standard library's and is left out.
- Amounts are exact `real` numbers. The `f64` rounding, NaN and infinity are not modelled. Like the source, the model accepts negative and zero amounts.
- Amounts.AvailableAmount.Add: the in-place `add(&mut self)` on these `Copy` values is modelled as returning the new value, and a client's `add` on its field as reassigning that field.
- Repositories store client and transaction values, as the source stores clones. The service's "clone out, mutate, persist" step is a fresh `Client` object built from the stored value, so aliasing between the store and the working copy does not arise.
- `get_all_clients` iterates a `HashMap` in unspecified order. It is modelled as the set of stored values, with a separate proof that there is one value per id.
- `anyhow` error boxing is collapsed into one `ServiceError` sum. The error display strings and the never-produced `UnexpectedError` variants are dropped.
- The test doubles in src/service/stubs.rs and the unit tests are not part of this model. The tests' concrete scenarios are restated as lemmas over arbitrary stores, ids and amounts.
- Clients.WithdrawUndoesDeposit: assumes a non-negative available balance, because a chargeback can leave balances negative and then the round trip fails.
- Clients.ResolveUndoesDispute: assumes a non-negative held balance, for the same reason.
