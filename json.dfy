/** The small optional-value datatype used throughout the model. */
module Wrappers {

  datatype Option<+T> = None | Some(value: T)
}

/**
 * JavaScript values as they travel through `JSON.parse` and
 * `JSON.stringify`, JavaScript truthiness (`!!v`), and the browser's JSON
 * codec, which the model does not implement and takes as a parameter.
 */
module Json {
  import opened Wrappers

  /** A JSON value. Numbers are integers: the values this code stores are
      strings, and a countable carrier is what lets a codec write every
      value as distinct text (see `Sound`). */
  datatype Json =
    | Null
    | Bool(b: bool)
    | Num(n: int)
    | Str(s: string)
    | Arr(items: seq<Json>)
    | Obj(fields: map<string, Json>)

  /** A plain JavaScript object with JSON-valued own properties. */
  type Object = map<string, Json>

  /** `!!v`: null, false, 0 and the empty string are falsy, everything else is truthy. */
  predicate Truthy(v: Json) {
    match v
    case Null => false
    case Bool(b) => b
    case Num(n) => n != 0
    case Str(s) => s != ""
    case Arr(_) => true
    case Obj(_) => true
  }

  /** `JSON.parse` (None where it throws) and `JSON.stringify`, restricted
      to the objects that this code writes into storage. */
  datatype Codec = Codec(parse: string -> Option<Object>, stringify: Object -> string)

  /** What the code relies on of the browser's JSON: the empty object is
      written as `{}`, no object is written as the empty string, and
      parsing what was written gives the object back. Every value here is
      built from integers, characters, finite sequences and finite maps, so
      distinct objects can be written as distinct texts and a codec with
      these three properties exists. */
  ghost predicate Sound(c: Codec) {
    && c.stringify(map[]) == "{}"
    && (forall m :: c.stringify(m) != "")
    && (forall m :: c.parse(c.stringify(m)) == Some(m))
  }
}
