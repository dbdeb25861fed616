/**
  JavaScript values as the worker sees them: whatever `request.json()` yields
  (null, booleans, numbers, strings, arrays, objects), plus `undefined`, which
  is what reading an absent property gives. Alongside them, the JavaScript
  semantics the formatter leans on: truthiness (for `||`), nullishness (for
  `??`), property access, template-literal interpolation and `toFixed(2)`.
 */
module JsValue {

  /** An IEEE-754 double, kept abstract: finite values as reals, plus the three special values. */
  datatype Number = Finite(value: real) | PosInfinity | NegInfinity | NaN

  datatype JsVal =
    | Undefined
    | Null
    | Bool(b: bool)
    | Num(n: Number)
    | Str(s: string)
    | Arr(elems: seq<JsVal>)
    | Obj(props: map<string, JsVal>)

  /** The exceptions the handler can raise and does not catch. */
  datatype Fault =
    | TypeError    // property read on null/undefined, calling a non-function, no primitive value
    | SyntaxError  // `request.json()` on a body that is not JSON

  datatype Result<T> = Ok(value: T) | Err(fault: Fault)

  /**
    Decimal rendering of numbers is floating-point formatting and stays
    uninterpreted: `show` is `String(n)` (also what `${n}` uses) and `fixed2`
    is `n.toFixed(2)`.
   */
  datatype NumberText = NumberText(show: Number -> string, fixed2: Number -> string)

  /** The falsy values of JavaScript (no BigInt here). `-0` is the real 0. */
  predicate Falsy(v: JsVal) {
    match v
    case Undefined => true
    case Null => true
    case Bool(b) => !b
    case Num(n) => n == Finite(0.0) || n == NaN
    case Str(s) => s == ""
    case Arr(_) => false
    case Obj(_) => false
  }

  /** The values `??` falls through on. */
  predicate Nullish(v: JsVal) {
    v == Undefined || v == Null
  }

  /** `a || b`: `a` unless it is falsy. */
  function Or(a: JsVal, b: JsVal): JsVal {
    if Falsy(a) then b else a
  }

  /** `a ?? b`: `a` unless it is null or undefined. */
  function Coalesce(a: JsVal, b: JsVal): JsVal {
    if Nullish(a) then b else a
  }

  /** `{}` */
  const EmptyObject: JsVal := Obj(map[])

  /**
    `v.key` for a key that is neither a numeric index nor a property that
    strings, arrays or Object.prototype define (all keys the worker reads are
    of this kind): an object's own property if present, `undefined` on every
    other non-nullish value, and a TypeError on null and undefined.
   */
  function Get(v: JsVal, key: string): (r: Result<JsVal>)
    ensures r.Err? <==> Nullish(v)
    ensures r.Ok? && r.value != Undefined ==> v.Obj? && key in v.props && r.value == v.props[key]
    ensures v.Obj? && key in v.props ==> r == Ok(v.props[key])
  {
    match v
    case Undefined => Err(TypeError)
    case Null => Err(TypeError)
    case Obj(p) => Ok(if key in p then p[key] else Undefined)
    case _ => Ok(Undefined)
  }

  /**
    `${v}` in a template literal, i.e. ToString(v). A plain object renders as
    "[object Object]" unless it has an own `toString` property: JSON cannot
    make that callable, so OrdinaryToPrimitive finds no primitive and throws.
    An array renders as its elements joined by ",", null and undefined
    elements as "".
   */
  function Interpolate(nt: NumberText, v: JsVal): (r: Result<string>)
    decreases v, 1
  {
    match v
    case Undefined => Ok("undefined")
    case Null => Ok("null")
    case Bool(b) => Ok(if b then "true" else "false")
    case Num(n) => Ok(nt.show(n))
    case Str(s) => Ok(s)
    case Obj(p) => if "toString" in p then Err(TypeError) else Ok("[object Object]")
    case Arr(es) => JoinElements(nt, es, v)
  }

  /** `Array.prototype.join(",")` over `es`, the elements of `whole`. */
  function JoinElements(nt: NumberText, es: seq<JsVal>, ghost whole: JsVal): (r: Result<string>)
    requires forall i :: 0 <= i < |es| ==> es[i] < whole
    decreases whole, 0, |es|
  {
    if es == [] then Ok("")
    else
      var head := if Nullish(es[0]) then Ok("") else Interpolate(nt, es[0]);
      if head.Err? then head
      else if |es| == 1 then head
      else
        var tail := JoinElements(nt, es[1..], whole);
        if tail.Err? then tail else Ok(head.value + "," + tail.value)
  }

  /** Whether `${v}` succeeds. */
  predicate Printable(v: JsVal)
    decreases v
  {
    match v
    case Obj(p) => "toString" !in p
    case Arr(es) => forall i :: 0 <= i < |es| ==> Printable(es[i])
    case _ => true
  }

  /** Interpolation throws exactly on the values `Printable` rejects, whatever the number rendering. */
  lemma {:induction false} InterpolateOkIff(nt: NumberText, v: JsVal)
    ensures Interpolate(nt, v).Ok? <==> Printable(v)
    decreases v, 1
  {
    match v
    case Arr(es) => JoinElementsOkIff(nt, es, v);
    case _ =>
  }

  lemma {:induction false} JoinElementsOkIff(nt: NumberText, es: seq<JsVal>, whole: JsVal)
    requires forall i :: 0 <= i < |es| ==> es[i] < whole
    ensures JoinElements(nt, es, whole).Ok? <==> forall i :: 0 <= i < |es| ==> Printable(es[i])
    decreases whole, 0, |es|
  {
    if es != [] {
      InterpolateOkIff(nt, es[0]);
      if |es| > 1 {
        JoinElementsOkIff(nt, es[1..], whole);
        assert forall i :: 1 <= i < |es| ==> es[i] == es[1..][i - 1];
      }
    }
  }

  /**
    `(v).toFixed(2)`: numbers have it; on strings, booleans, arrays and objects
    the property is undefined or a non-function, and calling it throws, as
    reading it from null or undefined does.
   */
  function ToFixed2(nt: NumberText, v: JsVal): (r: Result<string>)
    ensures r.Ok? <==> v.Num?
    ensures v.Num? ==> r == Ok(nt.fixed2(v.n))
  {
    match v
    case Num(n) => Ok(nt.fixed2(n))
    case _ => Err(TypeError)
  }

  /** The values on which `||` and `??` differ are exactly the falsy non-nullish ones. */
  lemma OrDiffersFromCoalesce(a: JsVal, b: JsVal)
    ensures Or(a, b) != Coalesce(a, b) <==>
              a != b && a in {Bool(false), Num(Finite(0.0)), Num(NaN), Str("")}
  {
  }
}
