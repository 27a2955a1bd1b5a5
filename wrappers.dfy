/** Option and Result, the two failure-carrying shapes the model uses for
    JavaScript's `undefined` and for rejected promises / thrown errors. */
module Wrappers {

  datatype Option<+T> = None | Some(value: T) {
    function GetOr(default: T): T {
      match this
      case Some(v) => v
      case None => default
    }
  }

  datatype Result<+T, +E> = Success(value: T) | Failure(error: E)
}

/** The few JavaScript value rules the Guard code relies on: truthiness of
    strings, `a || b` on optional strings and indexing past the end
    of an array. */
module JsValues {
  import opened Wrappers

  /** An opaque JavaScript value, as stored in a configuration object or
      returned by an event listener. */
  datatype Value = Str(s: string) | Bool(b: bool) | Num(n: int) | Opaque(id: nat)

  /** Key `k` is present in `a` exactly when it is present in `b`, with the
      same value: the entry a dictionary update leaves alone. */
  predicate SameEntry<K, V(==)>(a: map<K, V>, b: map<K, V>, k: K) {
    (k in a <==> k in b) && (k in a ==> a[k] == b[k])
  }

  /** A string is truthy exactly when it is not empty. */
  predicate Truthy(s: Option<string>) {
    s.Some? && s.value != ""
  }

  /** `a || b` where both sides are optional strings: the first truthy one,
      otherwise the right-hand side as it is. */
  function OrElse(a: Option<string>, b: Option<string>): (r: Option<string>)
    ensures Truthy(a) ==> r == a
    ensures !Truthy(a) ==> r == b
  {
    if Truthy(a) then a else b
  }

  /** `s || d` for an optional string and a string default: `s` when it is
      truthy, otherwise the default. */
  function OrDefault(s: Option<string>, d: string): (r: string)
    ensures Truthy(s) ==> r == s.value
    ensures !Truthy(s) ==> r == d
  {
    if Truthy(s) then s.value else d
  }

  /** `xs[i]` in JavaScript: `undefined` past the end. */
  function Nth<T>(xs: seq<T>, i: nat): (r: Option<T>)
    ensures r.Some? <==> i < |xs|
    ensures r.Some? ==> r.value == xs[i]
  {
    if i < |xs| then Some(xs[i]) else None
  }
}
