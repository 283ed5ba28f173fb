/**
 * The JavaScript values the widgets read out of a parsed JSON body or an
 * options object, with the three operations the widgets apply to them:
 * truthiness (`if (x)`, `x || y`), property access (`data.city`) and
 * conversion to text inside a template string (`${city}`).
 *
 * Numbers are integers here: the widgets only ask whether a number is
 * zero and, in a template string, print it.
 */
module JsValues {

  datatype Value =
    | Undefined
    | Null
    | Bool(b: bool)
    | Num(n: int)
    | Str(s: string)
    | Obj(fields: map<string, Value>)

  /** JavaScript truthiness: `undefined`, `null`, `false`, `0` and `""` are falsy. */
  predicate Truthy(v: Value) {
    match v
    case Undefined => false
    case Null => false
    case Bool(b) => b
    case Num(n) => n != 0
    case Str(s) => s != ""
    case Obj(_) => true
  }

  /** `v.key` on a value that is neither `null` nor `undefined`. */
  function Get(v: Value, key: string): (r: Value)
    ensures !v.Obj? ==> r == Undefined
    ensures v.Obj? && key !in v.fields ==> r == Undefined
  {
    if v.Obj? && key in v.fields then v.fields[key] else Undefined
  }

  /** Whether `v.key` throws a TypeError (property access on `null` or `undefined`). */
  predicate Nullish(v: Value) {
    v.Undefined? || v.Null?
  }

  /** `a || b`: the first operand when it is truthy, the second otherwise. */
  function Or(a: Value, b: Value): (r: Value)
    ensures Truthy(a) ==> r == a
    ensures !Truthy(a) ==> r == b
    ensures Truthy(r) <==> Truthy(a) || Truthy(b)
  {
    if Truthy(a) then a else b
  }

  /** The decimal text of a natural number. */
  function NatText(n: nat): (r: string)
    ensures |r| > 0
    ensures forall i :: 0 <= i < |r| ==> '0' <= r[i] <= '9'
    decreases n
  {
    var d := ['0' + (n % 10) as char];
    if n < 10 then d else NatText(n / 10) + d
  }

  /** The number a string of decimal digits denotes. */
  function DigitsValue(s: string): nat
    requires forall i :: 0 <= i < |s| ==> '0' <= s[i] <= '9'
    decreases |s|
  {
    if s == [] then 0 else DigitsValue(s[..|s| - 1]) * 10 + (s[|s| - 1] - '0') as nat
  }

  /** The decimal text of a natural number reads back as that number. */
  lemma {:induction false} NatTextValue(n: nat)
    ensures DigitsValue(NatText(n)) == n
    decreases n
  {
    var d := ['0' + (n % 10) as char];
    if n >= 10 {
      NatTextValue(n / 10);
      var t := NatText(n / 10) + d;
      assert t[..|t| - 1] == NatText(n / 10);
    }
  }

  /**
   * `String(v)`, which is what `${v}` in a template string produces for
   * every value this model has; an object is taken to carry no own
   * `toString` or `valueOf` key, so it prints as `[object Object]`.
   */
  function Display(v: Value): string {
    match v
    case Undefined => "undefined"
    case Null => "null"
    case Bool(b) => if b then "true" else "false"
    case Num(n) => if n < 0 then "-" + NatText(-n) else NatText(n)
    case Str(s) => s
    case Obj(_) => "[object Object]"
  }

  /** Upper case of one character; only the letters a to z change. */
  function UpperChar(c: char): (d: char)
    ensures 'a' <= c <= 'z' ==> 'A' <= d <= 'Z' && d as int == c as int - 32
    ensures !('a' <= c <= 'z') ==> d == c
  {
    if 'a' <= c <= 'z' then (c as int - 32) as char else c
  }

  /** `s.toUpperCase()` on text whose letters are a to z. */
  function Upper(s: string): (r: string)
    ensures |r| == |s|
    ensures forall i :: 0 <= i < |s| ==> r[i] == UpperChar(s[i])
  {
    seq(|s|, i requires 0 <= i < |s| => UpperChar(s[i]))
  }

  /**
   * `Intl.DateTimeFormat().resolvedOptions().timeZone || 'UTC'`, the
   * browser's zone being given as text ("" when it resolves none).
   */
  function LocalZone(localTz: string): (z: string)
    ensures z != ""
    ensures localTz != "" ==> z == localTz
    ensures localTz == "" ==> z == "UTC"
  {
    if localTz == "" then "UTC" else localTz
  }
}
