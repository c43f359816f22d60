/** The slice of JavaScript's value semantics that the dashboard code relies on:
    numbers that may be NaN, truthiness, and the `value || 0` idiom.
    Numbers are exact integers here (amounts are counted in cents). */
module JsValues {

  datatype Option<+T> = None | Some(value: T)

  /** A JavaScript number as the aggregation code sees it: an exact integer
      or NaN (what `parseFloat` gives for a string that has no number in it). */
  datatype Num = Finite(v: int) | NaN

  /** `x + y` on numbers: NaN absorbs everything. */
  function Add(x: Num, y: Num): (r: Num)
    ensures r.NaN? <==> x.NaN? || y.NaN?
    ensures r.Finite? ==> r.v == x.v + y.v
  {
    if x.Finite? && y.Finite? then Finite(x.v + y.v) else NaN
  }

  /** A number is truthy unless it is 0 or NaN. */
  predicate Truthy(x: Num) {
    x.Finite? && x.v != 0
  }

  /** `value || 0`: the value when it is truthy, otherwise 0. */
  function OrZero(x: Num): (r: int)
    ensures x.Finite? ==> r == x.v
    ensures x.NaN? ==> r == 0
  {
    if Truthy(x) then x.v else 0
  }

  lemma AddAssociative(x: Num, y: Num, z: Num)
    ensures Add(Add(x, y), z) == Add(x, Add(y, z))
  {
  }

  lemma AddCommutative(x: Num, y: Num)
    ensures Add(x, y) == Add(y, x)
  {
  }
}
