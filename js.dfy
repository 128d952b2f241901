/**
 * The slice of JavaScript's value semantics that the facade's argument checks depend on:
 * truthiness (`!x`, `x || y`), `typeof`, and reading a property of a plain object.
 * Numbers are integers here (no NaN, no fractions).
 */
module Js {
  import opened Wrappers

  datatype JsValue =
    | Undefined
    | Null
    | Bool(b: bool)
    | Num(n: int)
    | Str(s: string)
    | Arr(items: seq<JsValue>)
    | Obj(props: map<string, JsValue>)
    | Func

  /** JavaScript truthiness: `undefined`, `null`, `false`, `0` and `""` are falsy. */
  predicate Truthy(v: JsValue) {
    match v
    case Undefined => false
    case Null => false
    case Bool(b) => b
    case Num(n) => n != 0
    case Str(s) => s != ""
    case _ => true
  }

  /** The string that `typeof v` evaluates to (note `typeof null === "object"`). */
  function TypeOf(v: JsValue): string {
    match v
    case Undefined => "undefined"
    case Null => "object"
    case Bool(_) => "boolean"
    case Num(_) => "number"
    case Str(_) => "string"
    case Arr(_) => "object"
    case Obj(_) => "object"
    case Func => "function"
  }

  /** `v[name]` for the property names the facade reads; only plain objects carry them. */
  function Prop(v: JsValue, name: string): JsValue {
    if v.Obj? && name in v.props then v.props[name] else Undefined
  }

  /** `a || b`. */
  function Or(a: JsValue, b: JsValue): JsValue {
    if Truthy(a) then a else b
  }

  /** `!v || typeof v !== "string"` fails exactly when `v` is a non-empty string. */
  predicate IsNonEmptyString(v: JsValue) {
    v.Str? && v.s != ""
  }

  /** From this magnitude on, `String(n)` writes a number in exponent form (`1e+21`). */
  const EXPONENT_FROM: int := Pow10(21)

  /** `String(b)` for a boolean. */
  function BoolText(b: bool): string {
    if b then "true" else "false"
  }

  /** The decimal digits of `n`, as `String(n)` writes an integer below `EXPONENT_FROM`. */
  function DigitsText(n: nat): (t: string)
    ensures |t| > 0 && forall i :: 0 <= i < |t| ==> '0' <= t[i] <= '9'
  {
    var last := ['0' + (n % 10) as char];
    if n < 10 then last else DigitsText(n / 10) + last
  }

  /** 10^k. */
  function Pow10(k: nat): nat {
    if k == 0 then 1 else 10 * Pow10(k - 1)
  }

  /** A number below 10^k has at most k digits (zero has one). */
  lemma {:induction false} DigitsTextShort(n: nat, k: nat)
    requires 0 < k && n < Pow10(k)
    ensures |DigitsText(n)| <= k
  {
    if n >= 10 {
      assert k > 0 && n == 10 * (n / 10) + n % 10;
      DigitsTextShort(n / 10, k - 1);
    }
  }

  /**
   * `String(v)`: the text a value is coerced to when it is used as a property key. Array elements
   * are joined with commas, `undefined` and `null` elements giving the empty text. A function's
   * text is its source code and a number from `EXPONENT_FROM` on is written in exponent form;
   * neither is modelled (`None`).
   */
  function ToText(v: JsValue): (t: Option<string>)
    ensures v.Str? ==> t == Some(v.s)
    ensures v.Arr? && |v.items| == 1 && v.items[0].Str? ==> t == Some(v.items[0].s)
    ensures v.Num? && -EXPONENT_FROM < v.n < EXPONENT_FROM ==> t.Some? && |t.value| <= 22
    ensures t.None? ==> v.Func? || v.Arr? || (v.Num? && !(-EXPONENT_FROM < v.n < EXPONENT_FROM))
    decreases v, 1, 0
  {
    match v
    case Undefined => Some("undefined")
    case Null => Some("null")
    case Bool(b) => Some(BoolText(b))
    case Num(n) =>
      if n <= -EXPONENT_FROM || EXPONENT_FROM <= n then None
      else
        DigitsTextShort(if n < 0 then -n else n, 21);
        Some(if n < 0 then "-" + DigitsText(-n) else DigitsText(n))
    case Str(s) => Some(s)
    case Arr(items) => JoinText(items, 0)
    case Obj(_) => Some("[object Object]")
    case Func => None
  }

  /** `items.slice(i).join(",")`, with `undefined` and `null` elements joined as empty text. */
  function JoinText(items: seq<JsValue>, i: nat): (t: Option<string>)
    requires i <= |items|
    ensures i == |items| - 1 && items[i].Str? ==> t == Some(items[i].s)
    decreases Arr(items), 0, |items| - i
  {
    if i == |items| then Some("")
    else
      assert items[i] in items;
      var head := if items[i].Undefined? || items[i].Null? then Some("") else ToText(items[i]);
      var rest := JoinText(items, i + 1);
      if head.None? || rest.None? then None
      else if i == |items| - 1 then head
      else Some(head.value + "," + rest.value)
  }

  /** True when `word` occurs in `text` starting at position `i`. */
  predicate OccursAt(text: string, word: string, i: int) {
    0 <= i <= |text| - |word| && text[i..i + |word|] == word
  }

  lemma OccursBetween(before: string, word: string, after: string)
    ensures OccursAt(before + word + after, word, |before|)
  {
    assert (before + word + after)[|before|..|before| + |word|] == word;
  }

  /** True when `word` occurs somewhere inside `text`. */
  ghost predicate Mentions(text: string, word: string) {
    exists i :: OccursAt(text, word, i)
  }
}
