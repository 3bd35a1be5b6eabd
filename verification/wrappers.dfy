/** The optional-value datatype used across the model: a JavaScript value
    that may be `null`/`undefined`, or a parse that may yield `NaN`. */
module Wrappers {

  datatype Option<+T> = None | Some(value: T) {

    /** Returns the value inside `Some`, or `default` for `None`. */
    function GetOr(default: T): T {
      match this
      case Some(v) => v
      case None => default
    }
  }

  /** Looks a key up in a map, `None` when it is absent. */
  function Get<K, V>(m: map<K, V>, k: K): (r: Option<V>)
    ensures r.Some? <==> k in m
    ensures r.Some? ==> r.value == m[k]
  {
    if k in m then Some(m[k]) else None
  }
}
