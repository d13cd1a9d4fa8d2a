/** Option and Result, and JavaScript truthiness of optional strings. */
module Wrappers {

  /** A value that may be absent: a missing field, `null` or `undefined`. */
  datatype Option<+T> = None | Some(value: T)

  /** The outcome of an operation that may throw; `Err` carries the error message. */
  datatype Result<+T> = Ok(value: T) | Err(message: string)

  /** JavaScript truthiness of a string-valued field: absent and "" are falsy. */
  predicate Truthy(s: Option<string>) {
    s.Some? && s.value != ""
  }

  /** Field-wise `Object.assign` on one field: a present value in `b` wins over `a`. */
  function Override<T>(a: Option<T>, b: Option<T>): (r: Option<T>)
    ensures b.Some? ==> r == b
    ensures b.None? ==> r == a
  {
    if b.Some? then b else a
  }

  /** JavaScript `a || b` on optional strings: the first truthy one, else `b`. */
  function StrOr(a: Option<string>, b: Option<string>): (r: Option<string>)
    ensures Truthy(r) <==> Truthy(a) || Truthy(b)
    ensures Truthy(a) ==> r == a
  {
    if Truthy(a) then a else b
  }

  /** JavaScript `s || fallback` for an optional string, as a string. */
  function OrElse(a: Option<string>, fallback: string): (r: string)
    ensures Truthy(a) ==> r == a.value
    ensures !Truthy(a) ==> r == fallback
  {
    if Truthy(a) then a.value else fallback
  }

  /** A destructuring default `{ x = d } = obj`: `d` applies only when the field is left out. */
  function GetOr<T>(a: Option<T>, d: T): (r: T)
    ensures a.Some? ==> r == a.value
    ensures a.None? ==> r == d
  {
    if a.Some? then a.value else d
  }

  /** The message of the error Node's `fs.readFileSync` throws for a path that does not exist. */
  function NotFound(path: string): string {
    "ENOENT: no such file or directory, open '" + path + "'"
  }
}
