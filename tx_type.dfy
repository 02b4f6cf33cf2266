/** The five kinds of event and the parser from the text of the `type` column. */
module TxTypes {
  import opened Wrappers

  datatype TxType = Deposit | Withdrawal | Dispute | Resolve | Chargeback

  /** The parser's failure: the text that named no kind of event. */
  datatype ParseError = InvalidTransactionType(input: string)

  /** The one spelling the parser accepts for each kind. */
  function Spelling(t: TxType): string
  {
    match t
    case Deposit => "deposit"
    case Withdrawal => "withdrawal"
    case Dispute => "dispute"
    case Resolve => "resolve"
    case Chargeback => "chargeback"
  }

  /**
   * Parses the text of the `type` column. Matching is exact: no trimming, no case folding.
   * A text is accepted exactly when it is the spelling of some kind, and then that kind is returned.
   */
  function Parse(s: string): (r: Result<TxType, ParseError>)
    ensures r.Ok? <==> s in {"deposit", "withdrawal", "dispute", "resolve", "chargeback"}
    ensures r.Ok? ==> Spelling(r.value) == s
    ensures r.Err? ==> r.error == InvalidTransactionType(s)
  {
    if s == "deposit" then Ok(Deposit)
    else if s == "withdrawal" then Ok(Withdrawal)
    else if s == "dispute" then Ok(Dispute)
    else if s == "resolve" then Ok(Resolve)
    else if s == "chargeback" then Ok(Chargeback)
    else Err(InvalidTransactionType(s))
  }

  /** Every kind's spelling parses back to that kind. */
  lemma ParseSpelling(t: TxType)
    ensures Parse(Spelling(t)) == Ok(t)
  {
  }

  /** Parsing is injective: two accepted texts naming the same kind are the same text. */
  lemma ParseInjective(s1: string, s2: string)
    requires Parse(s1).Ok? && Parse(s2).Ok?
    requires Parse(s1).value == Parse(s2).value
    ensures s1 == s2
  {
    assert Spelling(Parse(s1).value) == s1;
  }

  /** Different case, a misspelling and surrounding blanks are all rejected. */
  lemma ParseRejectsNearMisses()
    ensures Parse("Deposit").Err?
    ensures Parse("withdrawalll").Err?
    ensures Parse(" deposit").Err?
    ensures Parse("deposit ").Err?
    ensures Parse("").Err?
  {
  }
}
