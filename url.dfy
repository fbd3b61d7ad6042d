/**
 * `url.Values` from Go's standard library: a map from a query key to the
 * list of its values. Only `Set` and `Add` are used by the handler; the
 * encoding of the map into a query string is not modelled.
 */
module Url {

  type Values = map<string, seq<string>>

  /** `q.Set(k, v)`: replaces every value of `k` by the single value `v`. */
  function Set(q: Values, k: string, v: string): (r: Values)
    ensures r.Keys == q.Keys + {k}
    ensures r[k] == [v]
    ensures forall j :: j in q && j != k ==> r[j] == q[j]
  {
    q[k := [v]]
  }

  /** `q.Add(k, v)`: appends `v` to the values of `k`, creating the key if absent. */
  function Add(q: Values, k: string, v: string): (r: Values)
    ensures r.Keys == q.Keys + {k}
    ensures r[k] == (if k in q then q[k] else []) + [v]
    ensures forall j :: j in q && j != k ==> r[j] == q[j]
  {
    q[k := (if k in q then q[k] else []) + [v]]
  }
}
