/**
 * The JavaScript values that the generator's configuration object holds, and
 * the loose operators the components apply to them: truthiness, `a || b`,
 * property reads on a plain object and numeric coercion.
 */
module JsValues {
  import opened Wrappers

  /**
   * The two generator kinds. Their string values live in a constants file
   * that is not part of this model, so they are kept as distinct tags.
   */
  datatype GeneratorKind = QRCODE | BARCODE

  /** A JavaScript primitive; `Not-a-Number` is not a `Num` (see `ToNumber`). */
  datatype JsValue =
    | Undefined
    | Null
    | Bool(b: bool)
    | Num(n: real)
    | Str(s: string)
    | GeneratorType(kind: GeneratorKind)

  /** A plain object with string keys; a missing key reads as `undefined`. */
  type JsObject = map<string, JsValue>

  /** JavaScript truthiness. */
  predicate Truthy(v: JsValue)
    ensures !Truthy(v) <==> v == Undefined || v == Null || v == Bool(false) || v == Num(0.0) || v == Str("")
  {
    match v
    case Undefined => false
    case Null => false
    case Bool(b) => b
    case Num(n) => n != 0.0
    case Str(s) => s != ""
    case GeneratorType(_) => true
  }

  /** `a || b`: the left operand when it is truthy, the right one otherwise. */
  function Or(a: JsValue, b: JsValue): (r: JsValue)
    ensures Truthy(b) ==> Truthy(r)
    ensures r == a || r == b
    ensures Truthy(a) <==> r == a && Truthy(r)
    ensures !Truthy(a) ==> r == b
  {
    if Truthy(a) then a else b
  }

  /** `o[key]` (or `o.key`). */
  function Get(o: JsObject, key: string): (v: JsValue)
    ensures key in o ==> v == o[key]
    ensures key !in o ==> v == Undefined
  {
    if key in o then o[key] else Undefined
  }

  /** `v.length` compared as a number: the length of a string, `undefined` for the other primitives here. */
  function Length(v: JsValue): (n: Option<nat>)
    ensures n.Some? <==> v.Str?
  {
    if v.Str? then Some(|v.s|) else None
  }

  /**
   * The numeric coercion that `*` applies (`ToNumber`), with `None` for NaN.
   * Strings other than the empty string are taken to be non-numeric.
   */
  function ToNumber(v: JsValue): (r: Option<real>)
    ensures v.Num? ==> r == Some(v.n)
    ensures v == Undefined ==> r == None
  {
    match v
    case Undefined => None
    case Null => Some(0.0)
    case Bool(b) => Some(if b then 1.0 else 0.0)
    case Num(n) => Some(n)
    case Str(s) => if s == "" then Some(0.0) else None
    case GeneratorType(_) => None
  }

  /** `a * b` on coerced numbers; NaN propagates. */
  function Times(a: Option<real>, b: Option<real>): (r: Option<real>)
    ensures r.Some? <==> a.Some? && b.Some?
    ensures r.Some? ==> r.value == a.value * b.value
    ensures b == Some(1.0) ==> r == a
    ensures a == Some(0.0) && b.Some? ==> r == Some(0.0)
  {
    if a.Some? && b.Some? then Some(a.value * b.value) else None
  }

  /** The operands of `*` may be swapped, NaN included. */
  lemma TimesCommutes(a: Option<real>, b: Option<real>)
    ensures Times(a, b) == Times(b, a)
  {
    if a.Some? && b.Some? {
      assert a.value * b.value == b.value * a.value;
    }
  }

  /** `a / d` for a non-zero constant divisor; NaN propagates. */
  function DividedBy(a: Option<real>, d: real): (r: Option<real>)
    requires d != 0.0
    ensures r.Some? <==> a.Some?
    ensures r.Some? ==> r.value * d == a.value
  {
    if a.Some? then Some(a.value / d) else None
  }

  /** `Math.min(a, b)`; NaN propagates. */
  function Min(a: Option<real>, b: Option<real>): (r: Option<real>)
    ensures r.Some? <==> a.Some? && b.Some?
    ensures r.Some? ==> r.value <= a.value && r.value <= b.value
    ensures r.Some? ==> r.value == a.value || r.value == b.value
  {
    if a.Some? && b.Some? then Some(if a.value <= b.value then a.value else b.value) else None
  }

}
