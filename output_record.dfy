/** The row reported for each client at the end of a run. */
module OutputRecords {
  import opened Ids
  import opened Amounts
  import opened Clients

  datatype OutputRecord = OutputRecord(
    client: ClientId,
    available: AvailableAmount,
    held: HeldAmount,
    total: TotalAmount,
    locked: bool)

  /**
   * The row for a client: its id and balances unchanged, `locked` true exactly when the client is
   * locked. A balanced client gives a balanced row.
   */
  function FromClient(c: ClientState): (o: OutputRecord)
    ensures o.client == c.id
    ensures o.available == c.available && o.held == c.held && o.total == c.total
    ensures o.locked <==> c.status == Locked
    ensures c.Conserved() ==> o.total.Get() == o.available.Get() + o.held.Get()
  {
    OutputRecord(c.id, c.available, c.held, c.total, c.IsLocked())
  }
}
