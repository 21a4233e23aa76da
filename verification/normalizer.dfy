/** The value normalizer: turns a state value of any JavaScript type into the
    number that is recorded on a gauge, or into null when there is none. */
module Normalizer {
  import opened Wrappers

  /** A JavaScript number. Only the distinction between NaN and the other
      numbers matters to the normalizer; the finite ones are kept as reals. */
  datatype Num = Finite(value: real) | NaN | Infinity(negative: bool)

  /** A state value, distinguished the way `typeof` distinguishes it. */
  datatype JsValue =
    | JsNumber(n: Num)
    | JsString(s: string)
    | JsBoolean(b: bool)
    | JsNull
    | JsUndefined
    | JsObject   // objects, arrays and every other type

  /** JavaScript's `parseFloat`, left uninterpreted: the model is stated for
      every parsing function, which may return NaN. */
  type ParseFloat = string -> Num

  /** parseNumberWithNull: numbers pass through, strings are parsed (NaN
      becomes null), booleans become 1 or 0, everything else is null. */
  function ParseNumberWithNull(value: JsValue, parseFloat: ParseFloat): (r: Option<Num>)
    ensures r.None? <==>
              || (value.JsString? && parseFloat(value.s).NaN?)
              || value.JsNull? || value.JsUndefined? || value.JsObject?
    ensures value.JsNumber? ==> r == Some(value.n)
    ensures value.JsString? && r.Some? ==> r.value == parseFloat(value.s)
    ensures value.JsBoolean? ==> r == Some(Finite(if value.b then 1.0 else 0.0))
    // a parsed string never yields NaN: NaN only passes through as a number
    ensures r == Some(NaN) ==> value == JsNumber(NaN)
  {
    match value
    case JsNumber(n) => Some(n)
    case JsString(s) =>
      var v := parseFloat(s);
      if v.NaN? then None else Some(v)
    case JsBoolean(b) => Some(Finite(if b then 1.0 else 0.0))
    case _ => None
  }

  /** Normalizing is idempotent: feeding a normalized value back in as a
      number gives the same value. */
  lemma NormalizeIdempotent(value: JsValue, parseFloat: ParseFloat, other: ParseFloat)
    requires ParseNumberWithNull(value, parseFloat).Some?
    ensures ParseNumberWithNull(JsNumber(ParseNumberWithNull(value, parseFloat).value), other)
            == ParseNumberWithNull(value, parseFloat)
  {
  }
}
