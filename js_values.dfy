/**
 * The JSON values the backend sends, and JavaScript truthiness on them.
 * An absent property (`undefined`) is `None` of an `Option<Value>`.
 */
module JsValues {
  import opened Wrappers

  /**
   * A JSON value. Numbers are kept as reals, with NaN apart; an object or
   * an array is known only by an identity, and its contents are not read.
   */
  datatype Value = Null | Bool(b: bool) | Num(x: real) | NaN | Str(s: string) | Obj(id: nat)

  /** JavaScript truthiness of a present value: null, false, 0, NaN and "" are falsy. */
  predicate Truthy(v: Value)
  {
    match v
    case Null => false
    case Bool(b) => b
    case Num(x) => x != 0.0
    case NaN => false
    case Str(s) => s != ""
    case Obj(_) => true
  }

  /** Truthiness of a property read: an absent property reads as `undefined`, which is falsy. */
  predicate Present(o: Option<Value>)
  {
    o.Some? && Truthy(o.value)
  }

  /** Exactly null, false, 0, NaN and the empty string are falsy. */
  lemma FalsyExactly(v: Value)
    ensures !Truthy(v) <==> v == Null || v == Bool(false) || v == Num(0.0) || v == NaN || v == Str("")
  {
  }

  /** The expression `o || d`: the read itself when truthy, the default otherwise. */
  function Or(o: Option<Value>, d: Value): (r: Value)
    ensures Present(o) ==> r == o.value
    ensures r == d || (o.Some? && r == o.value)
    ensures Truthy(r) <==> Present(o) || Truthy(d)
  {
    if Present(o) then o.value else d
  }
}
