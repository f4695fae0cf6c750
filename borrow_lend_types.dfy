/** The state of a borrow-lend market and its PascalCase wire table. */
module BorrowLendTypes {
  import opened Wrappers

  datatype BorrowLendMarketState = Open | Closed | RepayOnly

  function BorrowLendMarketStateToWire(s: BorrowLendMarketState): string {
    match s
    case Open => "Open"
    case Closed => "Closed"
    case RepayOnly => "RepayOnly"
  }

  /** Case-sensitive; a string outside the table is rejected, never defaulted. */
  function BorrowLendMarketStateFromWire(w: string): (r: Option<BorrowLendMarketState>)
    ensures forall s :: r == Some(s) <==> BorrowLendMarketStateToWire(s) == w
  {
    if w == "Open" then Some(Open)
    else if w == "Closed" then Some(Closed)
    else if w == "RepayOnly" then Some(RepayOnly)
    else None
  }

  lemma BorrowLendMarketStateRoundTrip(s: BorrowLendMarketState)
    ensures BorrowLendMarketStateFromWire(BorrowLendMarketStateToWire(s)) == Some(s)
  {
  }

  lemma BorrowLendMarketStateInjective(a: BorrowLendMarketState, b: BorrowLendMarketState)
    requires BorrowLendMarketStateToWire(a) == BorrowLendMarketStateToWire(b)
    ensures a == b
  {
    assert BorrowLendMarketStateFromWire(BorrowLendMarketStateToWire(a)) == Some(b);
  }

  /** The camelCase and lower-case spellings are not in the table. */
  lemma BorrowLendMarketStateRejectsOtherCase()
    ensures BorrowLendMarketStateFromWire("repayOnly") == None
    ensures BorrowLendMarketStateFromWire("open") == None
  {
  }
}
