/**
 * The slice of JavaScript's dynamic values that both front-end scripts
 * inspect: JSON results from the backend, fields read from local storage,
 * the user's input.  The scripts branch on JavaScript truthiness (`x || d`,
 * `if (!x)`), on `!== undefined`, and turn values into strings through
 * template literals and object property keys; those three conversions are
 * defined here once.
 */
module JsValues {

  datatype Option<T> = None | Some(value: T)

  /** A JavaScript value as these scripts see it.  `Undefined` is also what
   *  reading a missing property yields.  Numbers are unbounded integers here,
   *  which match JavaScript's numbers for magnitudes up to 2^53 (see the
   *  README); `Obj` is any plain object. */
  datatype JsValue =
    | Undefined
    | Null
    | Bool(b: bool)
    | Num(n: int)
    | Str(s: string)
    | Obj

  /** JavaScript's ToBoolean: the falsy values are undefined, null, false, 0
   *  and the empty string. */
  predicate Truthy(v: JsValue)
  {
    match v
    case Undefined => false
    case Null => false
    case Bool(b) => b
    case Num(n) => n != 0
    case Str(s) => s != ""
    case Obj => true
  }

  /** `a || b`: the left operand itself when it is truthy, otherwise the right one. */
  function Or(a: JsValue, b: JsValue): (r: JsValue)
    ensures Truthy(a) ==> r == a
    ensures !Truthy(a) ==> r == b
  {
    if Truthy(a) then a else b
  }

  /** `a !== undefined ? a : b`. */
  function DefinedOr(a: JsValue, b: JsValue): (r: JsValue)
    ensures a != Undefined ==> r == a
    ensures a == Undefined ==> r == b
  {
    if a != Undefined then a else b
  }

  function DigitChar(d: nat): (c: char)
    requires d < 10
  {
    "0123456789"[d]
  }

  function DigitValue(c: char): nat
  {
    if '0' <= c <= '9' then (c as int - '0' as int) else 0
  }

  predicate IsDigit(c: char)
  {
    '0' <= c <= '9'
  }

  /** The decimal numeral of a natural number, as JavaScript prints the
   *  integers below 10^21 that it represents exactly. */
  function NatDecimal(n: nat): (r: string)
    ensures |r| > 0
    ensures forall i | 0 <= i < |r| :: IsDigit(r[i])
    ensures n > 0 ==> r[0] != '0'
    decreases n
  {
    if n < 10 then [DigitChar(n)] else NatDecimal(n / 10) + [DigitChar(n % 10)]
  }

  /** Reads a string of digits back as a number. */
  function DecimalValue(s: string): nat
  {
    if s == [] then 0 else DecimalValue(s[..|s| - 1]) * 10 + DigitValue(s[|s| - 1])
  }

  /** Number-to-string conversion for integers: an optional '-' and the numeral. */
  function IntDecimal(n: int): (r: string)
  {
    if n < 0 then "-" + NatDecimal(-n) else NatDecimal(n)
  }

  /** JavaScript's ToString, used by template literals (`${v}`) and by
   *  property keys (`obj[v]`). */
  function ToJsString(v: JsValue): string
  {
    match v
    case Undefined => "undefined"
    case Null => "null"
    case Bool(b) => if b then "true" else "false"
    case Num(n) => IntDecimal(n)
    case Str(s) => s
    case Obj => "[object Object]"
  }

  /** Printing a number and reading it back gives the number. */
  lemma {:induction false} NatDecimalRoundTrip(n: nat)
    ensures DecimalValue(NatDecimal(n)) == n
    decreases n
  {
    if n >= 10 {
      var r := NatDecimal(n);
      NatDecimalRoundTrip(n / 10);
      assert r[..|r| - 1] == NatDecimal(n / 10);
    }
  }

  /** Reads an optionally negative numeral back as a number. */
  function IntDecimalValue(s: string): int
  {
    if s != [] && s[0] == '-' then 0 - DecimalValue(s[1..]) else DecimalValue(s)
  }

  /** Printing an integer and reading it back gives the integer. */
  lemma IntDecimalRoundTrip(n: int)
    ensures IntDecimalValue(IntDecimal(n)) == n
  {
    if n < 0 {
      var d := NatDecimal(-n);
      assert ("-" + d)[0] == '-' && ("-" + d)[1..] == d;
      NatDecimalRoundTrip(-n);
    } else {
      var d := NatDecimal(n);
      assert d[0] != '-' by { assert IsDigit(d[0]); }
      NatDecimalRoundTrip(n);
    }
  }

  /** Distinct numbers print differently, so distinct numeric ids never share
   *  a property key. */
  lemma NumKeysDistinct(a: int, b: int)
    requires a != b
    ensures ToJsString(Num(a)) != ToJsString(Num(b))
  {
    IntDecimalRoundTrip(a);
    IntDecimalRoundTrip(b);
  }

  /** JavaScript's WhiteSpace and LineTerminator characters, the set that
   *  `String.prototype.trim` removes. */
  predicate JsWhitespace(c: char)
  {
    || c == '\t' || c == '\n' || c == '\U{000B}' || c == '\U{000C}' || c == '\r'
    || c == ' ' || c == '\U{00A0}' || c == '\U{1680}'
    || ('\U{2000}' <= c <= '\U{200A}')
    || c == '\U{2028}' || c == '\U{2029}' || c == '\U{202F}' || c == '\U{205F}'
    || c == '\U{3000}' || c == '\U{FEFF}'
  }
}
