/**
 Small wrappers shared by every module: an optional value, a success/error
 result, and PHP's notion of an "empty" form or settings value.
 */
module Common {

  /** A value that may be absent: PHP's `null`, an unset array key or a missing form field. */
  datatype Option<+T> = None | Some(value: T) {
    function GetOr(default: T): T {
      match this
      case Some(v) => v
      case None => default
    }
  }

  /** The outcome of an operation that returns either data or an error array. */
  datatype Result<+T, +E> = Ok(value: T) | Err(error: E)

  /** PHP's `empty()` on a text value: an absent value, `""` and `"0"` are empty. */
  predicate IsEmpty(v: Option<string>) {
    v.None? || v.value == "" || v.value == "0"
  }

  /** PHP's `empty()` on a text value that is known to be present. */
  predicate IsEmptyText(s: string) {
    IsEmpty(Some(s))
  }
}
