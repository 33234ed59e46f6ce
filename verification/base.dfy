/**
 Values shared by every part of the driver model: an optional value and the
 small slice of JSON that the driver inspects when it reads a request.
 */
module Base {

  /** Python's `None` versus a present value. */
  datatype Option<+T> = None | Some(value: T)

  /** The value an operation computed, or the reason it raised. */
  datatype Result<+T, +E> = Ok(value: T) | Err(error: E)

  /** A JSON value as far as the driver looks into it. Numbers that are
      integers keep their value (the driver writes `max_tokens: 1000`);
      every other value (floats, booleans, lists, objects) is opaque and only
      its Python truthiness is recorded. */
  datatype Json = Null | Str(text: string) | Int(number: int) | Opaque(truthy: bool)

  /** Python's truthiness of a JSON value (`if not x:`). */
  predicate Truthy(j: Json) {
    match j
    case Null => false
    case Str(s) => s != ""
    case Int(n) => n != 0
    case Opaque(t) => t
  }

  /** `d.get(key)` on a JSON object: an absent key reads as `None`. */
  function Get(d: map<string, Json>, key: string): Json
  {
    if key in d then d[key] else Null
  }

  /** `a` is `b` with some elements deleted, the rest kept in order. */
  ghost predicate SubsequenceOf<T>(a: seq<T>, b: seq<T>)
    decreases |b|
  {
    if a == [] then true
    else if b == [] then false
    else (a[0] == b[0] && SubsequenceOf(a[1..], b[1..])) || SubsequenceOf(a, b[1..])
  }
}
