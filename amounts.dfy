/**
 * The three balance counters of a client. Each wraps one amount and is changed only by adding to it;
 * amounts are exact reals here.
 */
module Amounts {

  /** Funds the client may withdraw or dispute against. */
  datatype AvailableAmount = AvailableAmount(value: real) {
    function Get(): real { value }

    /** The counter after adding `amount` (negative to subtract). */
    function Add(amount: real): (r: AvailableAmount)
      ensures r.Get() - Get() == amount
    {
      AvailableAmount(value + amount)
    }
  }

  /** Funds frozen by open disputes. */
  datatype HeldAmount = HeldAmount(value: real) {
    function Get(): real { value }

    function Add(amount: real): (r: HeldAmount)
      ensures r.Get() - Get() == amount
    {
      HeldAmount(value + amount)
    }
  }

  /** Everything the client holds, available or not. */
  datatype TotalAmount = TotalAmount(value: real) {
    function Get(): real { value }

    function Add(amount: real): (r: TotalAmount)
      ensures r.Get() - Get() == amount
    {
      TotalAmount(value + amount)
    }
  }

  /** Building a counter from a value and reading it back gives that value, for all three counters. */
  lemma NewGetRoundTrip(x: real)
    ensures AvailableAmount(x).Get() == x
    ensures HeldAmount(x).Get() == x
    ensures TotalAmount(x).Get() == x
  {
  }

  /** Adding an amount and then its negation restores each counter exactly. */
  lemma AddThenSubtractRestores(a: AvailableAmount, h: HeldAmount, t: TotalAmount, x: real)
    ensures a.Add(x).Add(-x) == a
    ensures h.Add(x).Add(-x) == h
    ensures t.Add(x).Add(-x) == t
  {
  }

  /** Two additions compose into one addition of the sum. */
  lemma AddsCompose(a: AvailableAmount, h: HeldAmount, t: TotalAmount, x: real, y: real)
    ensures a.Add(x).Add(y) == a.Add(x + y)
    ensures h.Add(x).Add(y) == h.Add(x + y)
    ensures t.Add(x).Add(y) == t.Add(x + y)
  {
  }
}
