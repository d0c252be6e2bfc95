/** Validation of a numeric header value against an optional range,
    replacing it with a default when it is missing, NaN or out of
    range.  Both translation engines use the same rule. */
module Validation {
  import opened Wrappers
  import opened Values

  /** A number lies outside the optional range. */
  predicate OutOfRange(x: real, minimum: Option<real>, maximum: Option<real>) {
    (minimum.Some? && x < minimum.value) || (maximum.Some? && x > maximum.value)
  }

  /** The value replaced by `default` when it is None or NaN, below a
      given minimum, or above a given maximum; otherwise unchanged, so
      the result is always the value or the default and is never clamped
      to a bound.  A text value cannot be tested for NaN and raises
      TypeError. */
  function ValidateValue(v: Value, default: Value, minimum: Option<real>, maximum: Option<real>): (r: Result<Value>)
    ensures v.Null? || v.NaN? ==> r == Ok(default)
    ensures v.Str? ==> r.Err? && r.error.TypeError?
    ensures !v.Str? ==> r.Ok? && (r.value == v || r.value == default)
    ensures Numeric(v).Some? && OutOfRange(Numeric(v).value, minimum, maximum) ==> r == Ok(default)
    ensures Numeric(v).Some? && !OutOfRange(Numeric(v).value, minimum, maximum) ==> r == Ok(v)
  {
    if v.Null? || v.NaN? then Ok(default)
    else if v.Str? then Err(TypeError("must be real number, not str"))
    else
      var x := Numeric(v).value;
      if minimum.Some? && x < minimum.value then Ok(default)
      else if maximum.Some? && x > maximum.value then Ok(default)
      else Ok(v)
  }

  /** Validating twice with the same default and bounds changes nothing
      more, provided the default itself is acceptable. */
  lemma ValidateIdempotent(v: Value, default: Value, minimum: Option<real>, maximum: Option<real>)
    requires !v.Str?
    requires Numeric(default).Some?
    requires !OutOfRange(Numeric(default).value, minimum, maximum)
    ensures ValidateValue(v, default, minimum, maximum).Ok?
    ensures var w := ValidateValue(v, default, minimum, maximum).value;
      ValidateValue(w, default, minimum, maximum) == Ok(w)
  {
  }
}
