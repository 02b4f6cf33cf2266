/**
 * A client account: three balance counters and an Active/Locked status. The five balance operations
 * are each a guarded pair of additions, so that total == available + held is kept, and none of them
 * ever unlocks the client.
 */
module Clients {
  import opened Wrappers
  import opened Ids
  import opened Amounts
  import opened ClientErrors

  datatype ClientStatus = Active | Locked

  /** The value of a client: what the client store holds and what the service hands back. */
  datatype ClientState = ClientState(
    id: ClientId,
    available: AvailableAmount,
    held: HeldAmount,
    total: TotalAmount,
    status: ClientStatus)
  {
    predicate IsLocked()
      ensures IsLocked() <==> status == Locked
    {
      status == Locked
    }

    /** The balance invariant: total is the sum of available and held. */
    predicate Conserved() { total.Get() == available.Get() + held.Get() }
  }

  /** A new client: zero balances, status Active. */
  function Initial(id: ClientId): (c: ClientState)
    ensures c.id == id && !c.IsLocked() && c.Conserved()
    ensures c.available.Get() == 0.0 && c.held.Get() == 0.0 && c.total.Get() == 0.0
  {
    ClientState(id, AvailableAmount(0.0), HeldAmount(0.0), TotalAmount(0.0), Active)
  }

  /** What `deposit` leaves: amount added to available and total; never fails. */
  function AfterDeposit(c: ClientState, amount: real): (r: ClientState)
    ensures r.id == c.id && r.status == c.status && r.held == c.held
    ensures r.available.Get() == c.available.Get() + amount
    ensures r.total.Get() == c.total.Get() + amount
    ensures c.Conserved() ==> r.Conserved()
  {
    c.(available := c.available.Add(amount), total := c.total.Add(amount))
  }

  /**
   * What `withdraw` leaves: fails when available is below the amount, otherwise takes the amount
   * off available and total.
   */
  function AfterWithdraw(c: ClientState, amount: real): (r: Result<ClientState, ClientError>)
    ensures r.Ok? <==> amount <= c.available.Get()
    ensures r.Err? ==> r.error == FundsUpdateError(c.id, "withdraw")
    ensures r.Ok? ==> r.value.id == c.id && r.value.status == c.status && r.value.held == c.held
    ensures r.Ok? ==> r.value.available.Get() == c.available.Get() - amount
    ensures r.Ok? ==> r.value.total.Get() == c.total.Get() - amount
    ensures r.Ok? && c.Conserved() ==> r.value.Conserved()
  {
    if c.available.Get() < amount then Err(FundsUpdateError(c.id, "withdraw"))
    else Ok(c.(available := c.available.Add(-amount), total := c.total.Add(-amount)))
  }

  /**
   * What `dispute` leaves: fails when available is below the amount, otherwise moves the amount from
   * available to held; total does not change.
   */
  function AfterDispute(c: ClientState, amount: real): (r: Result<ClientState, ClientError>)
    ensures r.Ok? <==> amount <= c.available.Get()
    ensures r.Err? ==> r.error == FundsUpdateError(c.id, "dispute")
    ensures r.Ok? ==> r.value.id == c.id && r.value.status == c.status && r.value.total == c.total
    ensures r.Ok? ==> r.value.available.Get() == c.available.Get() - amount
    ensures r.Ok? ==> r.value.held.Get() == c.held.Get() + amount
    ensures r.Ok? && c.Conserved() ==> r.value.Conserved()
  {
    if c.available.Get() < amount then Err(FundsUpdateError(c.id, "dispute"))
    else Ok(c.(available := c.available.Add(-amount), held := c.held.Add(amount)))
  }

  /**
   * What `resolve` leaves: fails when held is below the amount, otherwise moves the amount from held
   * back to available; total does not change.
   */
  function AfterResolve(c: ClientState, amount: real): (r: Result<ClientState, ClientError>)
    ensures r.Ok? <==> amount <= c.held.Get()
    ensures r.Err? ==> r.error == FundsUpdateError(c.id, "resolve")
    ensures r.Ok? ==> r.value.id == c.id && r.value.status == c.status && r.value.total == c.total
    ensures r.Ok? ==> r.value.held.Get() == c.held.Get() - amount
    ensures r.Ok? ==> r.value.available.Get() == c.available.Get() + amount
    ensures r.Ok? && c.Conserved() ==> r.value.Conserved()
  {
    if c.held.Get() < amount then Err(FundsUpdateError(c.id, "resolve"))
    else Ok(c.(held := c.held.Add(-amount), available := c.available.Add(amount)))
  }

  /**
   * What `chargeback` leaves: with no funds check at all, the amount comes off held and total and the
   * client is locked; held may become negative.
   */
  function AfterChargeback(c: ClientState, amount: real): (r: ClientState)
    ensures r.id == c.id && r.IsLocked() && r.available == c.available
    ensures r.held.Get() == c.held.Get() - amount
    ensures r.total.Get() == c.total.Get() - amount
    ensures c.Conserved() ==> r.Conserved()
  {
    c.(held := c.held.Add(-amount), total := c.total.Add(-amount), status := Locked)
  }

  /**
   * A withdrawal of what was just deposited succeeds and restores the client exactly, provided
   * available was not negative (otherwise the funds check can refuse it).
   */
  lemma WithdrawUndoesDeposit(c: ClientState, amount: real)
    requires 0.0 <= c.available.Get()
    ensures AfterWithdraw(AfterDeposit(c, amount), amount) == Ok(c)
  {
    var d := AfterDeposit(c, amount);
    AddThenSubtractRestores(c.available, c.held, c.total, amount);
    assert !(d.available.Get() < amount);
    assert d.(available := d.available.Add(-amount), total := d.total.Add(-amount)) == c;
  }

  /**
   * A resolve of what was just disputed succeeds and restores the client exactly, provided held was
   * not negative (a chargeback can make it so).
   */
  lemma ResolveUndoesDispute(c: ClientState, amount: real)
    requires 0.0 <= c.held.Get()
    requires AfterDispute(c, amount).Ok?
    ensures AfterResolve(AfterDispute(c, amount).value, amount) == Ok(c)
  {
    var d := AfterDispute(c, amount).value;
    AddThenSubtractRestores(c.available, c.held, c.total, -amount);
    AddThenSubtractRestores(c.available, c.held, c.total, amount);
    assert !(d.held.Get() < amount);
    assert d.(held := d.held.Add(-amount), available := d.available.Add(amount)) == c;
  }

  /** Once locked, a client stays locked whatever operation succeeds on it. */
  lemma LockIsPermanent(c: ClientState, amount: real)
    requires c.IsLocked()
    ensures AfterDeposit(c, amount).IsLocked()
    ensures AfterWithdraw(c, amount).Ok? ==> AfterWithdraw(c, amount).value.IsLocked()
    ensures AfterDispute(c, amount).Ok? ==> AfterDispute(c, amount).value.IsLocked()
    ensures AfterResolve(c, amount).Ok? ==> AfterResolve(c, amount).value.IsLocked()
    ensures AfterChargeback(c, amount).IsLocked()
  {
  }

  /**
   * The mutable client. Its methods change its fields in place exactly as the functions above
   * describe; a failed operation changes nothing.
   */
  class Client {
    const id: ClientId
    var available: AvailableAmount
    var held: HeldAmount
    var total: TotalAmount
    var status: ClientStatus

    /** The current value of this client. */
    function State(): ClientState
      reads this
    {
      ClientState(id, available, held, total, status)
    }

    /** A new client with zero balances, status Active. */
    constructor (id: ClientId)
      ensures State() == Initial(id)
    {
      this.id := id;
      available := AvailableAmount(0.0);
      held := HeldAmount(0.0);
      total := TotalAmount(0.0);
      status := Active;
    }

    /** An independent copy of a stored client value. */
    constructor FromState(s: ClientState)
      ensures State() == s
    {
      id := s.id;
      available := s.available;
      held := s.held;
      total := s.total;
      status := s.status;
    }

    method Deposit(amount: real) returns (r: Result<(), ClientError>)
      modifies this
      ensures r.Ok? && State() == AfterDeposit(old(State()), amount)
    {
      available := available.Add(amount);
      total := total.Add(amount);
      r := Ok(());
    }

    method Withdraw(amount: real) returns (r: Result<(), ClientError>)
      modifies this
      ensures r.Ok? <==> AfterWithdraw(old(State()), amount).Ok?
      ensures r.Ok? ==> State() == AfterWithdraw(old(State()), amount).value
      ensures r.Err? ==> r.error == AfterWithdraw(old(State()), amount).error && State() == old(State())
    {
      if available.Get() < amount {
        return Err(FundsUpdateError(id, "withdraw"));
      }
      available := available.Add(-amount);
      total := total.Add(-amount);
      r := Ok(());
    }

    method Dispute(amount: real) returns (r: Result<(), ClientError>)
      modifies this
      ensures r.Ok? <==> AfterDispute(old(State()), amount).Ok?
      ensures r.Ok? ==> State() == AfterDispute(old(State()), amount).value
      ensures r.Err? ==> r.error == AfterDispute(old(State()), amount).error && State() == old(State())
    {
      if available.Get() < amount {
        return Err(FundsUpdateError(id, "dispute"));
      }
      available := available.Add(-amount);
      held := held.Add(amount);
      r := Ok(());
    }

    method Resolve(amount: real) returns (r: Result<(), ClientError>)
      modifies this
      ensures r.Ok? <==> AfterResolve(old(State()), amount).Ok?
      ensures r.Ok? ==> State() == AfterResolve(old(State()), amount).value
      ensures r.Err? ==> r.error == AfterResolve(old(State()), amount).error && State() == old(State())
    {
      if held.Get() < amount {
        return Err(FundsUpdateError(id, "resolve"));
      }
      held := held.Add(-amount);
      available := available.Add(amount);
      r := Ok(());
    }

    method Chargeback(amount: real) returns (r: Result<(), ClientError>)
      modifies this
      ensures r.Ok? && State() == AfterChargeback(old(State()), amount)
    {
      held := held.Add(-amount);
      total := total.Add(-amount);
      status := Locked;
      r := Ok(());
    }
  }
}
