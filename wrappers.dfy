/** Optional values, and the truthiness tests that the Python and TypeScript
    sources apply to them (`if x:`, `x or default`). */
module Wrappers {

  datatype Option<+T> = None | Some(value: T) {
    function GetOr(default: T): T {
      match this
      case Some(v) => v
      case None => default
    }
  }

  /** Python truthiness of an optional string: present and non-empty. */
  predicate StrTruthy(o: Option<string>) {
    o.Some? && o.value != ""
  }

  /** Python truthiness of an optional float: present and non-zero. */
  predicate RealTruthy(o: Option<real>) {
    o.Some? && o.value != 0.0
  }

  /** Python truthiness of an optional int: present and non-zero. */
  predicate IntTruthy(o: Option<int>) {
    o.Some? && o.value != 0
  }

  /** Python truthiness of an optional boolean. */
  predicate BoolTruthy(o: Option<bool>) {
    o == Some(true)
  }

  /** `value or default` for an optional string. */
  function StrOr(o: Option<string>, default: string): string {
    if StrTruthy(o) then o.value else default
  }

  /** `value or 0` for an optional float. */
  function RealOrZero(o: Option<real>): real {
    if o.Some? then o.value else 0.0
  }

  /** `value or 0` for an optional int. */
  function IntOrZero(o: Option<int>): int {
    if o.Some? then o.value else 0
  }
}
