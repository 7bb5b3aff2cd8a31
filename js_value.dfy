/**
 * JavaScript values as the dashboard sees them: numbers with their non-finite
 * cases made explicit, JSON documents, and the language's truthiness rules.
 */
module JsValue {
  import opened Wrappers

  /** A JavaScript number. Finite numbers are reals; NaN and the infinities are cases of their own. */
  datatype Num = Finite(value: real) | NaN | PosInf | NegInf {
    predicate IsFinite() { Finite? }

    /** `this < b` for a finite bound: false for NaN, true for -Infinity. */
    predicate Below(b: real) {
      match this
      case Finite(v) => v < b
      case NegInf => true
      case _ => false
    }
  }

  /** `Number(x)` of an optional number: `undefined` becomes NaN. */
  function NumOf(x: Option<real>): (n: Num)
    ensures n.IsFinite() <==> x.Some?
    ensures x.Some? ==> n.value == x.value
  {
    match x
    case Some(v) => Finite(v)
    case None => NaN
  }

  /** A JSON document (numbers are kept integral; their rendering is not part of the model). */
  datatype Json =
    | Null
    | Bool(b: bool)
    | Number(n: int)
    | Str(s: string)
    | Arr(items: seq<Json>)
    | Obj(fields: map<string, Json>)

  /** JavaScript truthiness of a JSON value: null, false, 0 and "" are falsy; arrays and objects are truthy. */
  predicate Truthy(j: Json) {
    match j
    case Null => false
    case Bool(b) => b
    case Number(n) => n != 0
    case Str(s) => s != ""
    case Arr(_) => true
    case Obj(_) => true
  }

  /** Truthiness of an optional string: `undefined`, `null` and "" are falsy. */
  predicate TruthyText(o: Option<string>) {
    o.Some? && o.value != ""
  }

  /** `a || b` on optional strings. */
  function OrText(a: Option<string>, b: Option<string>): (r: Option<string>)
    ensures TruthyText(a) ==> r == a
    ensures !TruthyText(a) ==> r == b
  {
    if TruthyText(a) then a else b
  }

  /** `a || fallback` where the fallback is a string literal. */
  function TextOr(a: Option<string>, fallback: string): (r: string)
    ensures TruthyText(a) ==> r == a.value
    ensures !TruthyText(a) ==> r == fallback
  {
    if TruthyText(a) then a.value else fallback
  }

  /** `Math.max(...xs)`: the largest element, or none (`-Infinity`) for an empty array. */
  function Largest(xs: seq<real>): (r: Option<real>)
    ensures r.None? <==> |xs| == 0
    ensures r.Some? ==> r.value in xs && forall i :: 0 <= i < |xs| ==> xs[i] <= r.value
  {
    if |xs| == 0 then None
    else
      var last := xs[|xs| - 1];
      match Largest(xs[..|xs| - 1])
      case None => Some(last)
      case Some(m) => Some(if last > m then last else m)
  }

  /** `m[k]` on a plain object: `undefined` when the key is absent. */
  function Get(m: map<string, string>, k: string): (r: Option<string>)
    ensures r.Some? <==> k in m
    ensures r.Some? ==> r.value == m[k]
  {
    if k in m then Some(m[k]) else None
  }
}
