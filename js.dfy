/** JavaScript values as the modelled code sees them: JSON-shaped data,
    truthiness, `a || b`, property access and `String(v)` conversion. */
module Js {

  datatype Option<T> = None | Some(value: T)

  /** A JavaScript value. Numbers are integers in this model. */
  datatype JsVal =
    | Undefined
    | Null
    | Bool(b: bool)
    | Num(n: int)
    | Str(s: string)
    | Arr(items: seq<JsVal>)
    | Obj(props: map<string, JsVal>)

  /** JavaScript truthiness: `false`, `0`, `""`, `null` and `undefined` are falsy. */
  predicate Truthy(v: JsVal) {
    match v
    case Undefined => false
    case Null => false
    case Bool(b) => b
    case Num(n) => n != 0
    case Str(s) => s != ""
    case Arr(_) => true
    case Obj(_) => true
  }

  /** `a || b`: the first operand when it is truthy, otherwise the second. */
  function Or(a: JsVal, b: JsVal): JsVal {
    if Truthy(a) then a else b
  }

  /** Property access `v.key` is a TypeError exactly on `null` and `undefined`. */
  predicate Accessible(v: JsVal) {
    !v.Null? && !v.Undefined?
  }

  /** `v.key` on a value that can be accessed; missing properties read as `undefined`. */
  function Prop(v: JsVal, key: string): JsVal
    requires Accessible(v)
  {
    match v
    case Obj(props) => if key in props then props[key] else Undefined
    case Str(s) => if key == "length" then Num(|s|) else Undefined
    case Arr(items) => if key == "length" then Num(|items|) else Undefined
    case _ => Undefined
  }

  /** Decimal digits of a natural number, most significant first. */
  function NatToDecimal(n: nat): string
    decreases n
  {
    if n < 10 then [DigitChar(n)] else NatToDecimal(n / 10) + [DigitChar(n % 10)]
  }

  function DigitChar(d: nat): char
    requires d < 10
  {
    ('0' as int + d) as char
  }

  predicate IsDigit(c: char) {
    '0' <= c <= '9'
  }

  function DigitValue(c: char): nat
    requires IsDigit(c)
  {
    (c as int - '0' as int) as nat
  }

  /** The value a string of decimal digits denotes (the partner of NatToDecimal). */
  function DecimalValue(s: string): nat
    requires forall i :: 0 <= i < |s| ==> IsDigit(s[i])
  {
    if s == [] then 0 else DecimalValue(s[..|s| - 1]) * 10 + DigitValue(s[|s| - 1])
  }

  /** `String(n)` for an integer: an optional minus sign and the digits of |n|. */
  function IntToDecimal(n: int): string {
    if n < 0 then "-" + NatToDecimal(-n) else NatToDecimal(n)
  }

  /** The decimal form of a natural number is a non-empty string of digits. */
  lemma {:induction false} NatToDecimalDigits(n: nat)
    ensures |NatToDecimal(n)| >= 1
    ensures forall i :: 0 <= i < |NatToDecimal(n)| ==> IsDigit(NatToDecimal(n)[i])
    decreases n
  {
    if n >= 10 {
      NatToDecimalDigits(n / 10);
    }
  }

  /** Reading the decimal form back gives the number, and only zero starts with '0'. */
  lemma {:induction false} NatToDecimalRoundTrip(n: nat)
    ensures |NatToDecimal(n)| >= 1
    ensures forall i :: 0 <= i < |NatToDecimal(n)| ==> IsDigit(NatToDecimal(n)[i])
    ensures DecimalValue(NatToDecimal(n)) == n
    ensures NatToDecimal(n)[0] == '0' ==> n == 0
    decreases n
  {
    NatToDecimalDigits(n);
    if n >= 10 {
      NatToDecimalRoundTrip(n / 10);
      var s := NatToDecimal(n);
      assert s[..|s| - 1] == NatToDecimal(n / 10);
      assert s[0] == NatToDecimal(n / 10)[0];
    }
  }

  /** Two different integers never print the same. */
  lemma IntToDecimalInjective(a: int, b: int)
    requires IntToDecimal(a) == IntToDecimal(b)
    ensures a == b
  {
    var x := if a < 0 then -a else a;
    var y := if b < 0 then -b else b;
    NatToDecimalRoundTrip(x);
    NatToDecimalRoundTrip(y);
    if a < 0 && b < 0 {
      assert NatToDecimal(x) == IntToDecimal(a)[1..] == IntToDecimal(b)[1..] == NatToDecimal(y);
    }
  }

  /** `String(v)`, which is also what a template literal `${v}` inserts. */
  function ToText(v: JsVal): string {
    match v
    case Undefined => "undefined"
    case Null => "null"
    case Bool(b) => if b then "true" else "false"
    case Num(n) => IntToDecimal(n)
    case Str(s) => s
    case Arr(items) => JoinElements(items)
    case Obj(_) => "[object Object]"
  }

  /** `Array.prototype.join(",")`, where `null` and `undefined` elements print as "". */
  function JoinElements(items: seq<JsVal>): string
    decreases items
  {
    if items == [] then ""
    else
      var last := items[|items| - 1];
      var text := if last.Null? || last.Undefined? then "" else ToText(last);
      if |items| == 1 then text else JoinElements(items[..|items| - 1]) + "," + text
  }
}
