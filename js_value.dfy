/**
 * The JavaScript values the adapter reads from provider responses, and the
 * three ways the TypeScript code reads them: truthiness tests (`if (x)`),
 * optional chaining (`a?.b?.c`) and plain property access (`a.b`), which
 * throws a TypeError on `null` and `undefined`.
 */
module JsValue {
  import opened Wrappers

  /** A parsed JSON value. Numbers are exact reals: JSON has no NaN or Infinity. */
  datatype Json =
    | JNull
    | JBool(b: bool)
    | JNum(n: real)
    | JStr(s: string)
    | JArr(elems: seq<Json>)
    | JObj(fields: map<string, Json>)

  /** A JavaScript value as the code sees it: `None` is `undefined`. */
  type Value = Option<Json>

  /** What a failed property read or a `.map` on a non-array throws. */
  datatype JsError = TypeError

  /** `out` holds the text parameter `src` exactly when `src` is present and non-empty. */
  predicate KeptWhenTruthy(out: Option<string>, src: Option<string>) {
    && (out.Some? <==> src.Some? && src.value != "")
    && (out.Some? ==> out == src)
  }

  /** A text parameter under `if (x)`: kept when present and non-empty. */
  function TruthyText(o: Option<string>): (r: Option<string>)
    ensures KeptWhenTruthy(r, o)
  {
    if o.Some? && o.value != "" then o else None
  }

  /** `null` or `undefined`: the values `?.` and `??` react to. */
  predicate Nullish(v: Value) {
    v.None? || v.value.JNull?
  }

  /** JavaScript truthiness: `undefined`, `null`, `false`, `0` and `""` are falsy. */
  predicate Truthy(v: Value)
    ensures Truthy(v) ==> !Nullish(v)
  {
    match v
    case None => false
    case Some(j) =>
      match j
      case JNull => false
      case JBool(b) => b
      case JNum(n) => n != 0.0
      case JStr(s) => s != ""
      case JArr(_) => true
      case JObj(_) => true
  }

  /**
   * Reading `key` of a value that is neither null nor undefined: an own
   * property of an object, `undefined` otherwise. The keys this adapter reads
   * are never array indices, `length` or prototype members.
   */
  function Get(x: Json, key: string): (r: Value)
    ensures r.Some? <==> x.JObj? && key in x.fields
  {
    if x.JObj? && key in x.fields then Some(x.fields[key]) else None
  }

  /** `v?.key`: `undefined` when `v` is null or undefined. */
  function OptMember(v: Value, key: string): (r: Value)
    ensures Nullish(v) ==> r.None?
    ensures !Nullish(v) ==> r == Get(v.value, key)
  {
    if Nullish(v) then None else Get(v.value, key)
  }

  /** `v?.k0?.k1?....`: the chain stops at the first null or undefined. */
  function Path(v: Value, keys: seq<string>): (r: Value)
    ensures keys == [] ==> r == v
    ensures Nullish(v) && keys != [] ==> r.None?
    decreases keys
  {
    if keys == [] then v else Path(OptMember(v, keys[0]), keys[1..])
  }

  /**
   * The guard `if (x) out.f = x.map(g)` runs `.map` only on a truthy value, and
   * `.map` throws unless that value is an array whose elements are not null
   * (every callback in this adapter reads a property of its argument).
   */
  predicate MappableIfPresent(v: Value) {
    !Truthy(v) || (v.value.JArr? && JNull !in v.value.elems)
  }

  /** The elements `.map` visits, in order, when `MappableIfPresent(v)` and `v` is truthy. */
  function ElementsOf(v: Value): seq<Json> {
    if v.Some? && v.value.JArr? then v.value.elems else []
  }

  /** The guard `x ?? []` before `.map`: nullish or an array (any other value has no `.map`). */
  predicate ArrayOrNullish(v: Value) {
    Nullish(v) || v.value.JArr?
  }

  /**
   * `xs.map(f)` for a callback that may throw: the first throw propagates,
   * otherwise every element is mapped, in order.
   */
  function MapAll<T>(xs: seq<Json>, f: Json -> Result<T, JsError>): (r: Result<seq<T>, JsError>)
    ensures r.Success? <==> forall i :: 0 <= i < |xs| ==> f(xs[i]).Success?
    ensures r.Success? ==> |r.value| == |xs| && forall i :: 0 <= i < |xs| ==> r.value[i] == f(xs[i]).value
  {
    if xs == [] then Success([])
    else
      match f(xs[0])
      case Failure(e) => Failure(e)
      case Success(y) =>
        match MapAll(xs[1..], f)
        case Failure(e) => Failure(e)
        case Success(ys) =>
          assert forall i :: 1 <= i < |xs| ==> xs[i] == xs[1..][i - 1];
          Success([y] + ys)
  }
}
