/** Decoded JSON values as the webhook receives them from the upstream API,
    with the two pieces of Python semantics the link normalizer relies on:
    truthiness (what `or` and `if` test) and set membership (what the
    de-duplication set tests). */
module Json {

  /** A decoded JSON value: Python's None, bool, int, str, list and dict. */
  datatype Json =
    | Null
    | Bool(b: bool)
    | Int(n: int)
    | Str(s: string)
    | Arr(items: seq<Json>)
    | Obj(fields: map<string, Json>)

  /** Python truthiness: None and False are falsy, a number is truthy when it
      is not zero, a string or container when it is not empty. */
  predicate Truthy(j: Json) {
    match j
    case Null => false
    case Bool(b) => b
    case Int(n) => n != 0
    case Str(s) => |s| > 0
    case Arr(items) => |items| > 0
    case Obj(fields) => |fields| > 0
  }

  /** `d.get(key)` on a dict: a missing key reads as None. */
  function Get(m: map<string, Json>, key: string): Json {
    if key in m then m[key] else Null
  }

  /** Python's `a or b`: `a` when it is truthy, otherwise `b`. A chain
      `a or b or c` is `Or(Or(a, b), c)`. */
  function Or(a: Json, b: Json): (r: Json)
    ensures Truthy(r) <==> Truthy(a) || Truthy(b)
    ensures Truthy(a) ==> r == a
    ensures !Truthy(a) ==> r == b
  {
    if Truthy(a) then a else b
  }

  /** Values Python can put in a set: everything but lists and dicts (testing
      `x in s` for a list or dict raises TypeError). */
  predicate Hashable(j: Json) {
    !j.Arr? && !j.Obj?
  }

  /** The set element a hashable value stands for. Python's True and 1 (and
      False and 0) hash and compare equal, so they are one element. */
  function HashKey(j: Json): (k: Json)
    ensures Hashable(j) ==> Hashable(k) && (Truthy(k) <==> Truthy(j))
    ensures !j.Bool? ==> k == j
    ensures j.Bool? ==> k == Int(if j.b then 1 else 0)
    ensures !k.Bool?
  {
    match j
    case Bool(b) => Int(if b then 1 else 0)
    case _ => j
  }
}
