/**
 * The net/http and net/url value types the core works on. A header and a
 * url.Values are both maps from a key to a list of values; key
 * canonicalisation (textproto.CanonicalMIMEHeaderKey) is not part of this
 * model, keys are compared as given.
 */
module Http {

  newtype Byte = x: int | 0 <= x < 256

  /** http.Header and url.Values. */
  type Header = map<string, seq<string>>

  /** All values stored under `key` (none when the key is absent). */
  function Values(h: Header, key: string): seq<string> {
    if key in h then h[key] else []
  }

  /** Header.Get: the first value of `key`, or "" when there is none. */
  function Get(h: Header, key: string): (v: string)
    ensures v == (if Values(h, key) == [] then "" else Values(h, key)[0])
  {
    if key in h && |h[key]| > 0 then h[key][0] else ""
  }

  /** Header.Set / Values.Set: `key` now holds exactly `value`. */
  function Set(h: Header, key: string, value: string): (r: Header)
    ensures Values(r, key) == [value] && Get(r, key) == value
  {
    h[key := [value]]
  }

  /** Header.Add / Values.Add: `value` follows the values already under `key`, and Get still returns the first one. */
  function Add(h: Header, key: string, value: string): (r: Header)
    ensures Values(r, key) == Values(h, key) + [value]
    ensures Get(r, key) == (if Values(h, key) == [] then value else Get(h, key))
  {
    h[key := Values(h, key) + [value]]
  }

  /** Set adds only `key` and leaves every other key as it was. */
  lemma SetKeepsOthers(h: Header, key: string, value: string, other: string)
    ensures Set(h, key, value).Keys == h.Keys + {key}
    ensures other != key ==> Values(Set(h, key, value), other) == Values(h, other)
  {
  }

  /** Add adds only `key` and leaves every other key as it was. */
  lemma AddKeepsOthers(h: Header, key: string, value: string, other: string)
    ensures Add(h, key, value).Keys == h.Keys + {key}
    ensures other != key ==> Values(Add(h, key, value), other) == Values(h, other)
  {
  }
}
