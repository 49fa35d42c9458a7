/** The few JavaScript value semantics the scanner's decision logic depends on:
    the kinds of value a feature record can hold, the numeric conversion done by
    the relational operators, truthiness and `typeof x === "number"`. */
module JsValues {

  /** A present-or-absent value (a missing verdict, a missing benchmark series). */
  datatype Option<+T> = None | Some(value: T)

  /** A JavaScript value as it appears in a feature record: a finite number, NaN,
      `null` (an indicator the builder set to null) or `undefined` (a property
      the record does not have, or `at(-1)` of an empty array). Numbers are exact
      reals: IEEE rounding and the infinities are not modelled. */
  datatype Value = Num(v: real) | NaN | Null | Undefined

  /** The ToNumber conversion applied by `<` and `>`: null becomes 0,
      undefined becomes NaN. */
  function ToNumber(x: Value): (r: Value)
    ensures r.Num? || r.NaN?
  {
    match x
    case Num(_) => x
    case Null => Num(0.0)
    case _ => NaN
  }

  /** `a > b`: false whenever either side converts to NaN. */
  predicate Greater(a: Value, b: Value)
  {
    var x, y := ToNumber(a), ToNumber(b);
    x.Num? && y.Num? && x.v > y.v
  }

  /** Truthiness of a number-or-absent value: 0, NaN, null and undefined are falsy. */
  predicate Truthy(x: Value)
  {
    x.Num? && x.v != 0.0
  }

  /** `typeof x === "number"`: NaN is a number, null and undefined are not. */
  predicate IsNumber(x: Value)
  {
    x.Num? || x.NaN?
  }

  /** NaN and undefined never compare greater, in either position. */
  lemma NotANumberNeverGreater(x: Value, b: Value)
    requires x.NaN? || x.Undefined?
    ensures !Greater(x, b) && !Greater(b, x)
  {
  }

  /** null compares like 0: it is greater than exactly the negative numbers. */
  lemma NullComparesAsZero(b: real)
    ensures Greater(Null, Num(b)) <==> b < 0.0
    ensures Greater(Num(b), Null) <==> b > 0.0
  {
  }
}
