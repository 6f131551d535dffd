/** Small shared wrappers used by every module of the model. */
module Common {

  /** An optional value: a missing header, an absent key, a field left out of a request body. */
  datatype Option<T> = None | Some(value: T)

  /** JavaScript truthiness of an optional text: present and not empty. */
  predicate Present(s: Option<string>)
  {
    s.Some? && s.value != ""
  }

  /** `s || fallback` on an optional text: a missing or empty text gives the fallback. */
  function OrElse(s: Option<string>, fallback: string): (r: string)
    ensures Present(s) ==> r == s.value
    ensures !Present(s) ==> r == fallback
  {
    if Present(s) then s.value else fallback
  }

  /** Lookup in a map keyed by text: `None` when the key is absent. */
  function Lookup<V>(m: map<string, V>, key: string): (r: Option<V>)
    ensures r.Some? <==> key in m
    ensures r.Some? ==> r.value == m[key]
  {
    if key in m then Some(m[key]) else None
  }
}
