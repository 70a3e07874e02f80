/** JavaScript numbers as the fee forms see them after `parseFloat`. */
module JsNumbers {

  /** A JavaScript number: NaN, one of the two infinities, or a finite value. */
  datatype JsNumber = NaN | PositiveInfinity | NegativeInfinity | Finite(value: real)

  /** The relational comparison `n < 0`; every comparison with NaN is false. */
  predicate LessThanZero(n: JsNumber) {
    n.NegativeInfinity? || (n.Finite? && n.value < 0.0)
  }

  /** `parseFloat`, which is not part of this model: the forms receive it as a parameter. */
  type ParseFloat = string -> JsNumber

  /** `Number.prototype.toString` on a finite number, likewise a parameter. */
  type NumberToString = real -> string

  /** The fee forms' test `!text || parseFloat(text) < 0`: a fee is refused when its field is
      empty or reads as a negative number. A text that reads as NaN passes. */
  predicate InvalidFee(text: string, parse: ParseFloat) {
    text == "" || LessThanZero(parse(text))
  }
}
