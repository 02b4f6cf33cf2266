/** The failures a transaction lookup or construction reports. */
module TransactionErrors {
  import opened Ids

  datatype TransactionError =
    | NotFound(id: TxId)
    | NotUnderDispute(id: TxId)
      /** A deposit or withdrawal record without an amount. */
    | InvalidTransaction(id: TxId)
}
