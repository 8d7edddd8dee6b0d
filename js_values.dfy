/**
 * JavaScript values as the proxy and the dashboard see them: parsed JSON
 * bodies, session fields and query values, with the truthiness, `??` and `||`
 * rules the source relies on.
 */
module JsValues {

  datatype Option<+T> = None | Some(value: T)

  /** A JSON-shaped JavaScript value. Numbers are exact reals (NaN is not modelled). */
  datatype Js =
    | Undefined
    | Null
    | Bool(b: bool)
    | Num(n: real)
    | Str(s: string)
    | Arr(elems: seq<Js>)
    | Obj(props: map<string, Js>)

  /** JavaScript's truthiness: `if (v)`. */
  predicate Truthy(v: Js) {
    match v
    case Undefined => false
    case Null => false
    case Bool(b) => b
    case Num(n) => n != 0.0
    case Str(s) => s != ""
    case Arr(_) => true
    case Obj(_) => true
  }

  /** `v == null`, i.e. null or undefined. */
  predicate Nullish(v: Js) {
    v.Undefined? || v.Null?
  }

  /**
   * Optional property read `v?.k`. A primitive or an array has none of the
   * keys the core reads, so only an object yields something other than undefined.
   */
  function Get(v: Js, k: string): (r: Js)
    ensures !v.Obj? ==> r == Undefined
    ensures v.Obj? && k !in v.props ==> r == Undefined
  {
    if v.Obj? && k in v.props then v.props[k] else Undefined
  }

  /** `a || b` */
  function Or(a: Js, b: Js): (r: Js)
    ensures Truthy(r) <==> Truthy(a) || Truthy(b)
    ensures r == a || r == b
  {
    if Truthy(a) then a else b
  }

  /** `a && b` */
  function And(a: Js, b: Js): (r: Js)
    ensures Truthy(r) <==> Truthy(a) && Truthy(b)
    ensures r == a || r == b
  {
    if Truthy(a) then b else a
  }

  /** `a ?? b` */
  function Coalesce(a: Js, b: Js): (r: Js)
    ensures Nullish(r) <==> Nullish(a) && Nullish(b)
    ensures r == a || r == b
  {
    if Nullish(a) then b else a
  }

  /**
   * Text that the source builds with template strings, `String(v)` and
   * `JSON.stringify(v)`. The conversions of non-string values are kept
   * symbolic: `Json(v)` stands for the JSON text of `v`, `Display(v)` for `String(v)`.
   */
  datatype Piece = Lit(s: string) | Json(v: Js) | Display(v: Js)

  type Text = seq<Piece>

  /** `${v}` in a template string. */
  function DisplayText(v: Js): (t: Text)
    ensures |t| == 1
    ensures v.Str? ==> t == [Lit(v.s)]
  {
    if v.Str? then [Lit(v.s)] else [Display(v)]
  }

  /** A text that renders as the empty string, hence is falsy. */
  predicate Blank(t: Text) {
    forall i | 0 <= i < |t| :: t[i].Lit? && t[i].s == ""
  }
}
