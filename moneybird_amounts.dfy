/** The sign rules applied to amounts before they are sent to the ledger. */
module MoneybirdAmounts {
  import opened Common

  const Payout: string := "PAYOUT"
  const CardPaymentFee: string := "CARD_PAYMENT_FEE"

  /** The amount booked for a transaction: a payout and a card payment fee
      enter the statement with their sign flipped, once; any other
      transaction code keeps its amount. */
  function SignedAmount(transactionCode: string, amount: real): (r: real)
    ensures transactionCode == Payout || transactionCode == CardPaymentFee ==> r == -amount
    ensures transactionCode != Payout && transactionCode != CardPaymentFee ==> r == amount
    ensures Abs(r) == Abs(amount)
  {
    var flipped := if transactionCode == Payout then 0.0 - amount else amount;
    if transactionCode == CardPaymentFee then 0.0 - flipped else flipped
  }

  lemma SignConventionExamples()
    ensures SignedAmount("PAYOUT", 500.0) == -500.0
    ensures SignedAmount("CARD_PAYMENT_FEE", 12.5) == -12.5
    ensures SignedAmount("CARD_PAYMENT", 100.0) == 100.0
  {
    assert "CARD_PAYMENT" != Payout && "CARD_PAYMENT" != CardPaymentFee by {
      assert |"CARD_PAYMENT"| != |Payout| && |"CARD_PAYMENT"| != |CardPaymentFee|;
    }
  }

  /** `MakeNegative`: the non-positive amount of the same size. */
  function MakeNegative(number: real): (r: real)
    ensures r <= 0.0
    ensures Abs(r) == Abs(number)
    ensures number <= 0.0 ==> r == number
  {
    if number > 0.0 then 0.0 - number else number
  }

  /** `MakePositive`: the non-negative amount of the same size. */
  function MakePositive(number: real): (r: real)
    ensures r >= 0.0
    ensures Abs(r) == Abs(number)
    ensures number >= 0.0 ==> r == number
  {
    if number < 0.0 then 0.0 - number else number
  }

  lemma MakeNegativeIdempotent(number: real)
    ensures MakeNegative(MakeNegative(number)) == MakeNegative(number)
  {
  }

  lemma MakePositiveIdempotent(number: real)
    ensures MakePositive(MakePositive(number)) == MakePositive(number)
  {
  }

  /** Each undoes the other up to sign: together they give the absolute value
      and its negation. */
  lemma SignHelpersAgree(number: real)
    ensures MakePositive(MakeNegative(number)) == MakePositive(number) == Abs(number)
    ensures MakeNegative(MakePositive(number)) == MakeNegative(number) == -Abs(number)
  {
  }
}
