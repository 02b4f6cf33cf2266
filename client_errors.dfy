/** The failures a client lookup or a balance operation reports. */
module ClientErrors {
  import opened Ids

  datatype ClientError =
    | NotFound(id: ClientId)
      /** A withdraw, dispute or resolve whose funds check failed; txType names the operation. */
    | FundsUpdateError(id: ClientId, txType: string)
}
