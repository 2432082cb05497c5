/**
 * The JavaScript coercions the engine and the form rely on: truthiness (`!!v`),
 * nullish coalescing (`v ?? d`), `String(v)` and `Number(v)`.
 * An answer read from a record is `None` when the key is absent (`undefined`).
 */
module JsCoerce {
  import opened Wrappers
  import opened MecTypes

  /** `answers[id]`: `None` stands for `undefined`. */
  function Get(answers: Answers, id: string): Option<AnswerValue> {
    if id in answers then Some(answers[id]) else None
  }

  /** `!!v`: false, 0, NaN, "", null and undefined are falsy; everything else is truthy. */
  predicate Truthy(v: Option<AnswerValue>)
    ensures Truthy(v) ==> v.Some? && !v.value.Null?
    ensures v.Some? && v.value.Str? && v.value.s != "" ==> Truthy(v)
  {
    match v
    case None => false
    case Some(Bool(b)) => b
    case Some(Number(n)) => n.Int? && n.v != 0
    case Some(Str(s)) => s != ""
    case Some(Null) => false
  }

  /** `v ?? d`: the default replaces both undefined and null. */
  function Coalesce(v: Option<AnswerValue>, d: AnswerValue): (r: AnswerValue)
    ensures r == d || (v.Some? && r == v.value)
    ensures d != Null ==> r != Null
  {
    match v
    case None => d
    case Some(Null) => d
    case Some(a) => a
  }

  function DigitChar(d: int): char
    requires 0 <= d < 10
  {
    "0123456789"[d]
  }

  predicate IsDigit(c: char) {
    '0' <= c <= '9'
  }

  predicate AllDigits(s: string) {
    forall i :: 0 <= i < |s| ==> IsDigit(s[i])
  }

  /** The decimal digits of a natural number, most significant first, without leading zeros. */
  function Digits(n: nat): (r: string)
    ensures |r| > 0 && AllDigits(r)
  {
    if n < 10 then [DigitChar(n)] else Digits(n / 10) + [DigitChar(n % 10)]
  }

  /** The value of a string of decimal digits. */
  function DigitsValue(s: string): nat
    requires AllDigits(s)
  {
    if s == [] then 0
    else DigitsValue(s[..|s| - 1]) * 10 + (s[|s| - 1] as int - '0' as int)
  }

  /**
   * `String(n)` for an integral number written out in plain decimal. Numbers are
   * unbounded integers here: the exponent form `String()` uses from 1e21 on is
   * not modelled.
   */
  function DecimalString(n: int): (r: string)
    ensures |r| > 0 && (r[0] == '-' <==> n < 0)
    ensures n >= 0 ==> AllDigits(r)
    ensures n < 0 ==> AllDigits(r[1..])
  {
    if n < 0 then "-" + Digits(-n) else Digits(n)
  }

  /**
   * `Number(s)` for the strings this model gives a value: the empty string is 0,
   * an optional sign followed by decimal digits is that integer, anything else NaN.
   * The value is exact: the rounding of doubles above 2^53 is not modelled.
   */
  function ParseNumber(s: string): (r: Num)
    ensures s == "" ==> r == Int(0)
    ensures s != "" && !IsDigit(s[|s| - 1]) ==> r == NaN
    ensures AllDigits(s) ==> r.Int? && r.v >= 0
  {
    if s == "" then Int(0)
    else if AllDigits(s) then Int(DigitsValue(s))
    else if |s| > 1 && s[0] == '-' && AllDigits(s[1..]) then Int(-(DigitsValue(s[1..]) as int))
    else if |s| > 1 && s[0] == '+' && AllDigits(s[1..]) then Int(DigitsValue(s[1..]))
    else NaN
  }

  /** `Number(v)` of an answer value (null is 0, booleans are 0 and 1). */
  function ToNumber(v: AnswerValue): Num {
    match v
    case Bool(b) => Int(if b then 1 else 0)
    case Number(n) => n
    case Str(s) => ParseNumber(s)
    case Null => Int(0)
  }

  /** `String(v)` of a possibly undefined answer. */
  function ToStr(v: Option<AnswerValue>): (r: string)
    ensures v.Some? && v.value.Str? ==> r == v.value.s
    ensures r == "undefined" <==> v == None || v == Some(Str("undefined"))
  {
    match v
    case None => "undefined"
    case Some(Bool(b)) => if b then "true" else "false"
    case Some(Number(Int(n))) => DecimalString(n)
    case Some(Number(NaN)) => "NaN"
    case Some(Str(s)) => s
    case Some(Null) => "null"
  }

  lemma {:induction false} DigitsValueOfDigits(n: nat)
    ensures DigitsValue(Digits(n)) == n
  {
    var d := Digits(n);
    if n < 10 {
      assert d[..|d| - 1] == [];
    } else {
      DigitsValueOfDigits(n / 10);
      assert d[..|d| - 1] == Digits(n / 10);
    }
  }

  /** `Number(String(n)) === n` for every integer: the two coercions are inverse. */
  lemma {:induction false} ParseNumberDecimalString(n: int)
    ensures ParseNumber(DecimalString(n)) == Int(n)
  {
    if n < 0 {
      var s := DecimalString(n);
      assert s[1..] == Digits(-n);
      assert !IsDigit(s[0]);
      DigitsValueOfDigits(-n);
    } else {
      DigitsValueOfDigits(n);
    }
  }
}
