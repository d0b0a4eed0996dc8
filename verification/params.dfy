/** Request query strings: `URLSearchParams` after percent-decoding, one value
    per key, as `get` sees them. */
module Params {
  import opened Options

  type Params = map<string, string>

  /** `searchParams.get(key)`: the value, or `None` (JavaScript `null`). */
  function Get(p: Params, key: string): Option<string> {
    if key in p then Some(p[key]) else None
  }

  /** JavaScript truthiness of a `get` result: present and not `''`. */
  predicate Truthy(v: Option<string>) {
    v.Some? && v.value != ""
  }

  /** `searchParams.get(key) || fallback`. */
  function GetOr(p: Params, key: string, fallback: string): (r: string)
    ensures Truthy(Get(p, key)) ==> r == p[key]
    ensures !Truthy(Get(p, key)) ==> r == fallback
  {
    if Truthy(Get(p, key)) then p[key] else fallback
  }
}
