/**
 * JavaScript value conventions the runtime relies on: optional properties
 * (`undefined` when absent) and the truthiness tests `a || b` and
 * `x !== false` used to apply defaults.
 */
module Js {

  /** An optional property: `None` stands for an absent (undefined) field. */
  datatype Option<+T> = None | Some(value: T) {
    function GetOr(default: T): T {
      match this
      case Some(v) => v
      case None => default
    }
  }

  /** Success or a thrown error. */
  datatype Result<+T, +E> = Ok(value: T) | Err(error: E)

  /** A number property is truthy when present and non-zero (NaN is not modelled). */
  predicate TruthyNumber(o: Option<int>) {
    o.Some? && o.value != 0
  }

  /** `field || fallback` on a number property: an absent field and an explicit 0 both fall back. */
  function OrNumber(field: Option<int>, fallback: int): (r: int)
    ensures TruthyNumber(field) ==> r == field.value
    ensures !TruthyNumber(field) ==> r == fallback
  {
    if TruthyNumber(field) then field.value else fallback
  }

  /** `!!flag` on an optional boolean property. */
  predicate Truthy(flag: Option<bool>) {
    flag == Some(true)
  }

  /** `flag !== false`: only an explicit `false` switches the default off. */
  predicate NotFalse(flag: Option<bool>) {
    flag != Some(false)
  }

  /** A string property is truthy when present and non-empty. */
  predicate TruthyString(s: Option<string>) {
    s.Some? && s.value != ""
  }
}
