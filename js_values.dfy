/** JavaScript values as the client code uses them: nullable references and
    the truthiness tests `if (!x)` apply to numbers and strings. */
module JsValues {

  /** `null` (None) or a present value (Some). */
  datatype Option<+T> = None | Some(value: T) {
    /** `x ?? d`: the value when present, otherwise the default. */
    function GetOr(default: T): T {
      match this
      case Some(v) => v
      case None => default
    }
  }

  /** Truthiness of a number-or-null: `null` and `0` are falsy. */
  predicate TruthyNumber(x: Option<int>) {
    x.Some? && x.value != 0
  }

  /** Truthiness of a string-or-null: `null` and `""` are falsy. */
  predicate TruthyString(s: Option<string>) {
    s.Some? && s.value != ""
  }
}
