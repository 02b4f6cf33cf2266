/** The in-memory transaction store: a map from transaction id to transaction. */
module TransactionRepositories {
  import opened Wrappers
  import opened Ids
  import opened TransactionErrors
  import opened Transactions
  import opened MapFacts

  /** Every stored transaction is stored under its own id. */
  ghost predicate KeyedById(transactions: map<TxId, Transaction>)
  {
    KeyedBy(transactions, (t: Transaction) => t.id)
  }

  class TransactionRepository {
    var transactions: map<TxId, Transaction>

    ghost predicate Valid()
      reads this
    {
      KeyedById(transactions)
    }

    constructor ()
      ensures Valid() && transactions == map[]
    {
      transactions := map[];
    }

    /** The transaction stored under `id`, whatever its status, or NotFound. */
    function GetTransaction(id: TxId): (r: Result<Transaction, TransactionError>)
      reads this
      ensures r.Ok? <==> id in transactions
      ensures r.Ok? ==> r.value == transactions[id]
      ensures r.Err? ==> r.error == NotFound(id)
    {
      if id in transactions then Ok(transactions[id]) else Err(NotFound(id))
    }

    /**
     * The transaction stored under `id` when it is under dispute; NotFound when there is none, and
     * NotUnderDispute when there is one with another status.
     */
    function GetTransactionUnderDispute(id: TxId): (r: Result<Transaction, TransactionError>)
      reads this
      ensures r.Ok? <==> id in transactions && transactions[id].IsUnderDispute()
      ensures r.Ok? ==> r.value == transactions[id]
      ensures r.Err? && id !in transactions ==> r.error == NotFound(id)
      ensures r.Err? && id in transactions ==> r.error == NotUnderDispute(id)
    {
      if id !in transactions then Err(NotFound(id))
      else if transactions[id].IsUnderDispute() then Ok(transactions[id])
      else Err(NotUnderDispute(id))
    }

    /** Stores `tx` under its id, inserting or overwriting; never fails. */
    method CreateTransaction(tx: Transaction) returns (r: Result<Transaction, TransactionError>)
      requires Valid()
      modifies this
      ensures Valid()
      ensures r == Ok(tx)
      ensures transactions == old(transactions)[tx.id := tx]
      ensures GetTransaction(tx.id) == Ok(tx)
      ensures forall id :: id != tx.id ==> GetTransaction(id) == old(GetTransaction(id))
    {
      transactions := transactions[tx.id := tx];
      r := Ok(tx);
    }

    /** Same store effect as CreateTransaction, including for an id not yet stored. */
    method UpdateTransaction(tx: Transaction) returns (r: Result<Transaction, TransactionError>)
      requires Valid()
      modifies this
      ensures Valid()
      ensures r == Ok(tx)
      ensures transactions == old(transactions)[tx.id := tx]
      ensures GetTransaction(tx.id) == Ok(tx)
      ensures forall id :: id != tx.id ==> GetTransaction(id) == old(GetTransaction(id))
    {
      transactions := transactions[tx.id := tx];
      r := Ok(tx);
    }
  }

  /** The dispute-filtered lookup agrees with the plain one exactly on disputed transactions. */
  lemma UnderDisputeRefinesGet(repo: TransactionRepository, id: TxId)
    ensures repo.GetTransactionUnderDispute(id).Ok? <==>
            repo.GetTransaction(id).Ok? && repo.GetTransaction(id).value.IsUnderDispute()
    ensures repo.GetTransactionUnderDispute(id).Ok? ==>
            repo.GetTransactionUnderDispute(id) == repo.GetTransaction(id)
    ensures repo.GetTransaction(id).Err? ==> repo.GetTransactionUnderDispute(id) == repo.GetTransaction(id)
  {
  }
}
