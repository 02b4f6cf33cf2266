/**
 * The orchestrator: routes each input record to the lookups, the balance operation and the
 * transaction status change its kind calls for, and persists the client (and the transaction) only
 * once the operation has succeeded.
 *
 * `Process` and its helpers state, on plain map values, what one record does to the two stores;
 * the class `TransactionService` does it step by step through the repositories and a mutable copy
 * of the client, and each of its methods is proved to agree with its function.
 */
module TransactionServices {
  import opened Wrappers
  import opened Ids
  import opened TxTypes
  import opened InputRecords
  import opened ClientErrors
  import opened TransactionErrors
  import opened Transactions
  import opened Clients
  import opened OutputRecords
  import opened ClientRepositories
  import opened TransactionRepositories

  /** The single error type of the service: a client error, a transaction error, or a kind of record
    * routed to the wrong path. */
  datatype ServiceError =
    | ClientFailure(clientError: ClientError)
    | TransactionFailure(transactionError: TransactionError)
    | UnexpectedTxType(txType: TxType)

  /** The contents of the two stores. */
  datatype Stores = Stores(clients: map<ClientId, ClientState>, transactions: map<TxId, Transaction>)

  /** What processing one record returns, and the stores it leaves. */
  datatype Outcome = Outcome(result: Result<ClientState, ServiceError>, stores: Stores)

  /** The client under `id` and the client map after the lookup, which stores a new client when
    * there was none. */
  function GetOrCreate(clients: map<ClientId, ClientState>, id: ClientId): (r: (ClientState, map<ClientId, ClientState>))
    ensures id in r.1 && r.1[id] == r.0
    ensures r.1.Keys == clients.Keys + {id}
    ensures forall k :: k in clients ==> r.1[k] == clients[k]
    ensures id !in clients ==> r.0 == Initial(id)
  {
    if id in clients then (clients[id], clients)
    else (Initial(id), clients[id := Initial(id)])
  }

  function Fail(s: Stores, e: ServiceError): Outcome
  {
    Outcome(Err(e), s)
  }

  /** Deposit or withdrawal: the new transaction is stored, with the updated client, on success only. */
  function ProcessNew(s: Stores, t: Transaction): (o: Outcome)
    ensures o.result.Err? ==> o.stores == s
    ensures o.result.Ok? ==> o.stores.transactions == s.transactions[t.id := t]
    ensures o.result.Ok? ==> o.result.value.id in o.stores.clients &&
                             o.stores.clients[o.result.value.id] == o.result.value
    ensures s.clients.Keys <= o.stores.clients.Keys
    ensures t.txType == Deposit ==> o.result.Ok?
    ensures t.txType == Withdrawal ==>
              (o.result.Ok? <==> t.clientId in s.clients && t.amount <= s.clients[t.clientId].available.Get())
  {
    match t.txType
    case Deposit =>
      var got := GetOrCreate(s.clients, t.clientId);
      var c := AfterDeposit(got.0, t.amount);
      Outcome(Ok(c), Stores(got.1[c.id := c], s.transactions[t.id := t]))
    case Withdrawal =>
      if t.clientId !in s.clients then Fail(s, ClientFailure(ClientErrors.NotFound(t.clientId)))
      else (match AfterWithdraw(s.clients[t.clientId], t.amount)
        case Err(e) => Fail(s, ClientFailure(e))
        case Ok(c) => Outcome(Ok(c), Stores(s.clients[c.id := c], s.transactions[t.id := t])))
    case _ => Fail(s, UnexpectedTxType(t.txType))
  }

  /** Dispute, resolve or chargeback of the stored transaction `txId` on the stored client `clientId`. */
  function ProcessExisting(s: Stores, txType: TxType, txId: TxId, clientId: ClientId): (o: Outcome)
    ensures o.result.Err? ==> o.stores == s
    ensures o.result.Ok? ==> clientId in s.clients && txId in s.transactions
    ensures o.result.Ok? ==> o.result.value.id in o.stores.clients &&
                             o.stores.clients[o.result.value.id] == o.result.value
    ensures s.clients.Keys <= o.stores.clients.Keys
    ensures s.transactions.Keys <= o.stores.transactions.Keys
    ensures txType != Dispute ==> o.stores.transactions == s.transactions
    ensures txType != Dispute && o.result.Ok? ==> s.transactions[txId].IsUnderDispute()
  {
    if clientId !in s.clients then Fail(s, ClientFailure(ClientErrors.NotFound(clientId)))
    else
      var client := s.clients[clientId];
      match txType
      case Dispute =>
        if txId !in s.transactions then Fail(s, TransactionFailure(TransactionErrors.NotFound(txId)))
        else
          var tx := s.transactions[txId];
          (match AfterDispute(client, tx.amount)
           case Err(e) => Fail(s, ClientFailure(e))
           case Ok(c) =>
             Outcome(Ok(c), Stores(s.clients[c.id := c], s.transactions[tx.id := tx.(status := Disputed)])))
      case Resolve =>
        if txId !in s.transactions then Fail(s, TransactionFailure(TransactionErrors.NotFound(txId)))
        else if !s.transactions[txId].IsUnderDispute() then Fail(s, TransactionFailure(NotUnderDispute(txId)))
        else
          (match AfterResolve(client, s.transactions[txId].amount)
           case Err(e) => Fail(s, ClientFailure(e))
           case Ok(c) => Outcome(Ok(c), Stores(s.clients[c.id := c], s.transactions)))
      case Chargeback =>
        if txId !in s.transactions then Fail(s, TransactionFailure(TransactionErrors.NotFound(txId)))
        else if !s.transactions[txId].IsUnderDispute() then Fail(s, TransactionFailure(NotUnderDispute(txId)))
        else
          var c := AfterChargeback(client, s.transactions[txId].amount);
          Outcome(Ok(c), Stores(s.clients[c.id := c], s.transactions))
      case _ => Fail(s, UnexpectedTxType(txType))
  }

  /** One input record processed against the stores. */
  function Process(s: Stores, record: InputRecord): (o: Outcome)
    ensures o.result.Err? ==> o.stores == s
    ensures o.result.Ok? ==> o.result.value.id in o.stores.clients &&
                             o.stores.clients[o.result.value.id] == o.result.value
    ensures s.clients.Keys <= o.stores.clients.Keys
    ensures s.transactions.Keys <= o.stores.transactions.Keys
  {
    match record.txType
    case Dispute | Resolve | Chargeback => ProcessExisting(s, record.txType, record.tx, record.client)
    case Deposit | Withdrawal =>
      match TryFrom(record)
      case Err(e) => Fail(s, TransactionFailure(e))
      case Ok(t) => ProcessNew(s, t)
  }

  /** Clients with distinct ids give distinct output rows, so there are as many rows as clients. */
  lemma {:induction false} RowsOnePerClient(clients: set<ClientState>)
    requires forall c1, c2 :: c1 in clients && c2 in clients && c1.id == c2.id ==> c1 == c2
    ensures |set c | c in clients :: FromClient(c)| == |clients|
  {
    if clients != {} {
      var c :| c in clients;
      var rest := clients - {c};
      RowsOnePerClient(rest);
      var rows, restRows := set d | d in clients :: FromClient(d), set d | d in rest :: FromClient(d);
      assert FromClient(c) !in restRows;
      assert rows == restRows + {FromClient(c)};
    }
  }

  class TransactionService {
    const clientRepository: ClientRepository
    const transactionRepository: TransactionRepository

    ghost predicate Valid()
      reads clientRepository, transactionRepository
    {
      clientRepository.Valid() && transactionRepository.Valid()
    }

    /** The contents of both stores. */
    function State(): Stores
      reads clientRepository, transactionRepository
    {
      Stores(clientRepository.clients, transactionRepository.transactions)
    }

    constructor (clientRepository: ClientRepository, transactionRepository: TransactionRepository)
      ensures this.clientRepository == clientRepository
      ensures this.transactionRepository == transactionRepository
    {
      this.clientRepository := clientRepository;
      this.transactionRepository := transactionRepository;
    }

    /** Processes one record; on failure the stores are as they were. */
    method ProcessTransaction(record: InputRecord) returns (r: Result<ClientState, ServiceError>)
      requires Valid()
      modifies clientRepository, transactionRepository
      ensures Valid()
      ensures Outcome(r, State()) == Process(old(State()), record)
      ensures r.Err? ==> State() == old(State())
    {
      match record.txType {
        case Dispute | Resolve | Chargeback =>
          r := ProcessExistingTransaction(record.txType, record.tx, record.client);
        case Deposit | Withdrawal =>
          var transaction := TryFrom(record);
          if transaction.Err? {
            return Err(TransactionFailure(transaction.error));
          }
          r := ProcessNewTransaction(transaction.value);
      }
    }

    /** One output row per stored client, in no particular order. */
    function GetAllClients(): (r: set<OutputRecord>)
      reads clientRepository
      ensures forall id :: id in clientRepository.clients ==> FromClient(clientRepository.clients[id]) in r
      ensures forall o :: o in r ==>
                exists id :: id in clientRepository.clients && o == FromClient(clientRepository.clients[id])
    {
      set c | c in clientRepository.GetAllClients() :: FromClient(c)
    }

    /** In a valid store there is exactly one output row per stored client. */
    lemma OneRowPerClient()
      requires clientRepository.Valid()
      ensures |GetAllClients()| == |clientRepository.clients|
    {
      var stored := clientRepository.GetAllClients();
      forall c1, c2 | c1 in stored && c2 in stored && c1.id == c2.id ensures c1 == c2 {
        assert c1 == clientRepository.clients[c1.id];
        assert c2 == clientRepository.clients[c2.id];
      }
      RowsOnePerClient(stored);
      clientRepository.AllClientsOnePerId();
    }

    method ProcessNewTransaction(transaction: Transaction) returns (r: Result<ClientState, ServiceError>)
      requires Valid()
      modifies clientRepository, transactionRepository
      ensures Valid()
      ensures Outcome(r, State()) == ProcessNew(old(State()), transaction)
    {
      var client: Client;
      if transaction.txType.Deposit? {
        var got := GetOrCreateClient(transaction.clientId);
        client := new Client.FromState(got.value);
        var deposited := client.Deposit(transaction.amount);
      } else if transaction.txType.Withdrawal? {
        var got := clientRepository.GetClient(transaction.clientId);
        if got.Err? {
          return Err(ClientFailure(got.error));
        }
        client := new Client.FromState(got.value);
        var withdrawn := client.Withdraw(transaction.amount);
        if withdrawn.Err? {
          return Err(ClientFailure(withdrawn.error));
        }
      } else {
        return Err(UnexpectedTxType(transaction.txType));
      }
      var saved := clientRepository.UpdateClient(client.State());
      var created := transactionRepository.CreateTransaction(transaction);
      r := Ok(client.State());
    }

    method ProcessExistingTransaction(txType: TxType, txId: TxId, clientId: ClientId)
      returns (r: Result<ClientState, ServiceError>)
      requires Valid()
      modifies clientRepository, transactionRepository
      ensures Valid()
      ensures Outcome(r, State()) == ProcessExisting(old(State()), txType, txId, clientId)
    {
      var got := clientRepository.GetClient(clientId);
      if got.Err? {
        return Err(ClientFailure(got.error));
      }
      var client := new Client.FromState(got.value);
      match txType {
        case Dispute =>
          var found := transactionRepository.GetTransaction(txId);
          if found.Err? {
            return Err(TransactionFailure(found.error));
          }
          var transaction := found.value;
          var disputed := client.Dispute(transaction.amount);
          if disputed.Err? {
            return Err(ClientFailure(disputed.error));
          }
          var updatedTx := transaction.(status := Disputed);
          var updated := transactionRepository.UpdateTransaction(updatedTx);
        case Resolve =>
          var found := transactionRepository.GetTransactionUnderDispute(txId);
          if found.Err? {
            return Err(TransactionFailure(found.error));
          }
          var resolved := client.Resolve(found.value.amount);
          if resolved.Err? {
            return Err(ClientFailure(resolved.error));
          }
        case Chargeback =>
          var found := transactionRepository.GetTransactionUnderDispute(txId);
          if found.Err? {
            return Err(TransactionFailure(found.error));
          }
          var charged := client.Chargeback(found.value.amount);
        case _ =>
          return Err(UnexpectedTxType(txType));
      }
      var saved := clientRepository.UpdateClient(client.State());
      r := Ok(client.State());
    }

    /** The stored client, or a new one with zero balances, stored first. */
    method GetOrCreateClient(id: ClientId) returns (r: Result<ClientState, ClientError>)
      requires Valid()
      modifies clientRepository
      ensures Valid()
      ensures r.Ok? && (r.value, clientRepository.clients) == GetOrCreate(old(clientRepository.clients), id)
    {
      var got := clientRepository.GetClient(id);
      if got.Ok? {
        r := got;
      } else if got.error.NotFound? {
        var client := new Client(id);
        r := clientRepository.CreateClient(client.State());
      } else {
        // any other lookup error is passed on; the in-memory store reports none
        r := got;
      }
    }
  }
}
