/** Shared vocabulary of both halves of the tool: failure results and the
    epsilon comparison of currency amounts. */
module Common {

  datatype Option<T> = None | Some(value: T)

  /** Why a run stops. The source ends the process (an `exit(1)` after a
      failed lookup, or an uncaught KeyError); here the failure is a value. */
  datatype Error =
    | NotFound(kind: string, key: string)   // a lookup found no record and called exit(1)
    | MissingTicket(receipt: string)         // no ticket shares the receipt's id: the sale has no products
    | MissingTaxRate(reference: string)      // a product line carries no tax rate

  datatype Result<T> = Ok(value: T) | Err(error: Error) {
    predicate IsFailure() { Err? }

    function PropagateFailure<U>(): Result<U>
      requires Err?
    {
      Err(error)
    }

    function Extract(): T
      requires Ok?
    {
      value
    }
  }

  /** The default tolerance of `numericEqual`: 1 * 10 ** (-8). */
  const Epsilon: real := 0.00000001

  function Abs(x: real): (r: real)
    ensures r >= 0.0
    ensures r == x || r == -x
  {
    if x < 0.0 then -x else x
  }

  /** `numericEqual(x, y)`: the two amounts are within Epsilon of each other,
      on either side. */
  function NumericEqual(x: real, y: real): (b: bool)
    ensures b <==> y - Epsilon <= x <= y + Epsilon
  {
    Abs(x - y) <= Epsilon
  }

  lemma NumericEqualReflexive(x: real)
    ensures NumericEqual(x, x)
  {
  }

  lemma NumericEqualSymmetric(x: real, y: real)
    ensures NumericEqual(x, y) <==> NumericEqual(y, x)
  {
  }

  /** The comparison is a tolerance, not an equivalence: it is not transitive. */
  lemma NumericEqualNotTransitive()
    ensures NumericEqual(0.0, Epsilon) && NumericEqual(Epsilon, 2.0 * Epsilon)
    ensures !NumericEqual(0.0, 2.0 * Epsilon)
  {
  }

  /** The two cases the tolerance is meant to separate. */
  lemma NumericEqualExamples()
    ensures NumericEqual(10.000000005, 10.0)
    ensures !NumericEqual(10.1, 10.0)
  {
  }
}
