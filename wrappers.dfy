/** Optional values: JavaScript's `undefined`/`null` for a field or a prop. */
module Wrappers {

  datatype Option<+T> = None | Some(value: T) {

    /** The value, or `default` when absent (the `x ?? default` idiom). */
    function GetOr(default: T): T {
      match this
      case Some(v) => v
      case None => default
    }
  }

  /** JavaScript truthiness of an optional string: absent and "" are both falsy. */
  predicate Truthy(s: Option<string>) {
    s.Some? && s.value != ""
  }

  /** `a || b` on strings: `a` when it is non-empty, otherwise `b`. */
  function OrElse(a: string, b: string): (r: string)
    ensures r == a || r == b
    ensures r == a <==> a != "" || a == b
  {
    if a != "" then a else b
  }

  /** `table[key] || fallback` for an object literal used as a lookup table. */
  function LookupOr(table: map<string, string>, key: string, fallback: string): (r: string)
    ensures key in table && table[key] != "" ==> r == table[key]
    ensures key !in table ==> r == fallback
    ensures key in table && table[key] == "" ==> r == fallback
    ensures r == fallback || (key in table && r == table[key])
  {
    if key in table then OrElse(table[key], fallback) else fallback
  }

  /** `{ ...e, [k]: m }` when there is a message `m`; otherwise `e` unchanged. */
  function Put<K, V>(e: map<K, V>, k: K, m: Option<V>): (r: map<K, V>)
    ensures r.Keys == if m.Some? then e.Keys + {k} else e.Keys
    ensures m.Some? ==> r[k] == m.value
    ensures forall j :: j != k && j in e ==> r[j] == e[j]
  {
    if m.Some? then e[k := m.value] else e
  }
}
