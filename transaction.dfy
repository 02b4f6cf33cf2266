/** A deposit or withdrawal as stored, with its dispute status. */
module Transactions {
  import opened Wrappers
  import opened Ids
  import opened TxTypes
  import opened InputRecords
  import opened TransactionErrors

  datatype TransactionStatus = Confirmed | Disputed

  /** The stored transaction. Only its status ever changes, and only the service changes it. */
  datatype Transaction = Transaction(
    id: TxId,
    clientId: ClientId,
    amount: real,
    txType: TxType,
    status: TransactionStatus)
  {
    predicate IsUnderDispute() { status == Disputed }
  }

  /** A new transaction: the given attributes, status Confirmed. */
  function NewTransaction(id: TxId, clientId: ClientId, amount: real, txType: TxType): (t: Transaction)
    ensures t.id == id && t.clientId == clientId && t.amount == amount && t.txType == txType
    ensures !t.IsUnderDispute()
  {
    Transaction(id, clientId, amount, txType, Confirmed)
  }

  /**
   * The transaction an input record describes. It exists exactly when the record carries an amount;
   * otherwise the record is an invalid transaction, reported with the record's transaction id.
   */
  function TryFrom(record: InputRecord): (r: Result<Transaction, TransactionError>)
    ensures r.Ok? <==> record.amount.Some?
    ensures r.Ok? ==> r.value.id == record.tx && r.value.clientId == record.client
    ensures r.Ok? ==> r.value.amount == record.amount.value && r.value.txType == record.txType
    ensures r.Ok? ==> r.value.status == Confirmed
    ensures r.Err? ==> r.error == InvalidTransaction(record.tx)
  {
    match record.amount
    case Some(amount) => Ok(NewTransaction(record.tx, record.client, amount, record.txType))
    case None => Err(InvalidTransaction(record.tx))
  }

  /** A transaction is under dispute exactly when its status is Disputed; a new one never is. */
  lemma UnderDisputeIffDisputed(t: Transaction)
    ensures t.IsUnderDispute() <==> t.status == Disputed
    ensures t.(status := Disputed).IsUnderDispute()
    ensures !t.(status := Confirmed).IsUnderDispute()
  {
  }
}
