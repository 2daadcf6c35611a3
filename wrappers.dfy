/** Option and Result values and bytes, shared by every module of the model. */
module Wrappers {
  datatype Option<T> = None | Some(value: T)

  /** A computation that either yields a value or fails with a message
      (a raised exception or an error return of the source). */
  datatype Result<T> = Ok(value: T) | Err(message: string)

  /** An HTTP reply of the servers: 200 with a body, or an error status
      with its message. */
  datatype Reply<T> = Success(body: T) | Failure(status: nat, message: string)

  newtype byte = b: int | 0 <= b < 256

  /** Python truthiness of an optional string: absent and empty are false. */
  predicate Truthy(s: Option<string>) { s.Some? && s.value != "" }

  /** Python `a or b` on optional strings. */
  function Or(a: Option<string>, b: Option<string>): (r: Option<string>)
    ensures Truthy(r) <==> Truthy(a) || Truthy(b)
    ensures Truthy(a) ==> r == a
  {
    if Truthy(a) then a else b
  }

  /** `d.get(key, default)` on a key that may be absent. */
  function GetOr<T>(o: Option<T>, default: T): (r: T)
    ensures o.Some? ==> r == o.value
    ensures o.None? ==> r == default
  {
    if o.Some? then o.value else default
  }

  /** `os.getenv(key)`: the environment is a map from names to values. */
  function Get(env: map<string, string>, key: string): (r: Option<string>)
    ensures r.Some? <==> key in env
    ensures r.Some? ==> r.value == env[key]
  {
    if key in env then Some(env[key]) else None
  }

  /** `os.getenv(key, default)`. */
  function GetEnvOr(env: map<string, string>, key: string, default: string): (r: string)
    ensures key in env ==> r == env[key]
    ensures key !in env ==> r == default
  {
    if key in env then env[key] else default
  }
}
