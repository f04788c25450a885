/** The numeric helpers of src/util/number.ts, over an abstract JavaScript number. */
module Number {
  import opened Wrappers

  /** A JavaScript number: a finite value, `NaN`, or one of the two infinities.
      Finite values are exact reals: the rounding of IEEE-754 doubles is not modelled. */
  datatype Num = Finite(v: real) | NaN | Infinity(negative: bool)

  /** The error `convertToNumber` throws for a value that is not a number. */
  datatype ConversionError = CannotConvert(value: Num)

  /** `Number.isInteger`: finite and without a fractional part. */
  predicate IsInteger(x: Num) {
    x.Finite? && x.v.Floor as real == x.v
  }

  /** `isPositiveNumber`: the comparison `value >= 0`, so zero passes and `NaN` fails. */
  predicate IsPositiveNumber(x: Num) {
    match x
    case Finite(v) => v >= 0.0
    case NaN => false
    case Infinity(negative) => !negative
  }

  /** `Math.round`: the nearest integer, halves rounded upwards; `NaN` and the
      infinities come back as they are. */
  function Round(x: Num): (r: Num)
    ensures x.Finite? ==> IsInteger(r) && x.v - 0.5 < r.v <= x.v + 0.5
    ensures IsInteger(x) ==> r == x
    ensures !x.Finite? ==> r == x
  {
    if x.Finite? then
      var n := (x.v + 0.5).Floor;
      FloorOfIntegral(n);
      assert IsInteger(x) ==> n == x.v.Floor by {
        if IsInteger(x) { FloorOfIntegral(x.v.Floor); }
      }
      Finite(n as real)
    else x
  }

  /** The floor of an integral real is that integer. */
  lemma FloorOfIntegral(n: int)
    ensures (n as real).Floor == n
  {
  }

  /** `convertToInteger`: `convertToNumber` throws on `NaN`, otherwise the value is rounded. */
  function ConvertToInteger(x: Num): (r: Result<Num, ConversionError>)
    ensures r.Failure? <==> x.NaN?
    ensures r.Failure? ==> r.error == CannotConvert(x)
    ensures IsInteger(x) ==> r == Success(x)
  {
    if x.NaN? then Failure(CannotConvert(x)) else Success(Round(x))
  }
}
