/** One decoded row of the input stream; the CSV decoding itself is not modelled. */
module InputRecords {
  import opened Wrappers
  import opened Ids
  import opened TxTypes

  datatype InputRecord = InputRecord(txType: TxType, client: ClientId, tx: TxId, amount: Option<real>)
}
