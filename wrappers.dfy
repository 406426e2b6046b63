/** Shared value wrappers. */
module Wrappers {

  /** An optional value: a JavaScript `null`/`undefined`, or a value. */
  datatype Option<+T> = None | Some(value: T)
}

/** Arithmetic helpers that mirror the JavaScript `Math` calls and `/` operator the source uses. */
module Numbers {

  function Min(a: real, b: real): (r: real)
    ensures r <= a && r <= b && (r == a || r == b)
  {
    if a <= b then a else b
  }

  function Max(a: real, b: real): (r: real)
    ensures r >= a && r >= b && (r == a || r == b)
  {
    if a >= b then a else b
  }

  /** An amount at a rate. Every product of money and a rate in the model goes through this
      function, so that two such products are equal as soon as their amounts and rates are. */
  function Tax(amount: real, rate: real): real
  {
    amount * rate
  }

  /** At a non-negative rate, a larger amount bears at least as much. */
  lemma TaxMonotone(amount1: real, amount2: real, rate: real)
    requires amount1 <= amount2 && rate >= 0.0
    ensures Tax(amount1, rate) <= Tax(amount2, rate)
  {
    assert (amount2 - amount1) * rate >= 0.0;
  }

  /** The result of a JavaScript division: a finite number, or (after a division by zero)
      one of Infinity, -Infinity and NaN, which the model does not tell apart. */
  datatype Quotient = Finite(value: real) | NonFinite

  function Divide(a: real, b: real): (q: Quotient)
    ensures q.Finite? <==> b != 0.0
    ensures q.Finite? ==> q.value * b == a
  {
    if b == 0.0 then NonFinite else Finite(a / b)
  }
}

/** The JavaScript values the input handlers see. */
module JsValues {

  /** A number read from text: a finite value, or `NaN` when the text does not parse. */
  datatype JsNumber = NaN | Num(value: real)

  /** What a text handler receives: `undefined` or the empty string (both falsy), or a text
      together with what `parseFloat` makes of it. */
  datatype TextInput = Blank | Text(parsed: JsNumber)

  /** JavaScript truthiness of a number: neither `NaN` nor 0. */
  predicate Truthy(n: JsNumber)
  {
    n.Num? && n.value != 0.0
  }
}
