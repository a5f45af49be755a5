/**
 * The shared vocabulary of the authentication layer: the normalised user
 * record, JavaScript-style optional values and the outcomes that the
 * asynchronous service calls resolve or reject with.
 */
module AuthTypes {

  /** A value that may be `null`/`undefined` (both collapse to None). */
  datatype Option<+T> = None | Some(value: T)

  /** `AuthUser`: `{ uid: string, email: string | null }`. */
  datatype AuthUser = AuthUser(uid: string, email: Option<string>)

  /**
   * Whatever a JavaScript `throw` carries, seen through `e?.code` and
   * `e?.message`: either may be missing (a thrown string, `null`, a
   * plain object without the property, ...).
   */
  datatype ThrownError = ThrownError(code: Option<string>, message: Option<string>)

  /** A promise that resolves with a value or rejects with a thrown error. */
  datatype Outcome<+T> = Ok(value: T) | Fail(err: ThrownError)

  /** A `Promise<void>`: it completes or rejects. */
  datatype Completion = Completed | Threw(err: ThrownError)

  /** The `() => void` disposer an `onAuthStateChanged` registration returns. */
  datatype Disposer = Disposer(id: nat)

  /** JavaScript truthiness of an optional string: `undefined`, `null` and `""` are falsy. */
  predicate Truthy(s: Option<string>)
  {
    s.Some? && s.value != ""
  }

  /** The `??` operator: the left operand unless it is `null`/`undefined` (an empty string is kept). */
  function Coalesce<T>(left: Option<T>, right: Option<T>): Option<T>
  {
    if left.Some? then left else right
  }

  /** `s.startsWith(prefix)` */
  predicate StartsWith(s: string, prefix: string)
  {
    |prefix| <= |s| && s[..|prefix|] == prefix
  }

  /** `s.endsWith(suffix)` */
  predicate EndsWith(s: string, suffix: string)
  {
    |suffix| <= |s| && s[|s| - |suffix|..] == suffix
  }
}
