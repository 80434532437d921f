/** The contract both engines read: a customer, the cash received at signing,
    the payment date and the ordered service periods with their stated
    (undiscounted) amounts. Dates are only carried from input to output. */
module Contracts {

  /** A calendar date as the input gives it ("2025-12-31"). Parsing and date
      arithmetic are not part of this model. */
  datatype Date = Date(iso: string)

  datatype Period = Period(start: Date, end: Date, statedAmount: real)

  datatype Contract = Contract(
    customer: string,
    cashReceived: real,
    paymentDate: Date,
    periods: seq<Period>)

  /** The stated amounts, in period order. */
  function StatedAmounts(periods: seq<Period>): (xs: seq<real>)
    ensures |xs| == |periods|
    ensures forall i :: 0 <= i < |periods| ==> xs[i] == periods[i].statedAmount
  {
    seq(|periods|, i requires 0 <= i < |periods| => periods[i].statedAmount)
  }
}
