/**
 * The request-body validation the routes do with zod object schemas, field by field:
 * required and optional strings with a minimum length, optional non-negative numbers,
 * optional records, and enums with defaults. A schema accepts only an object body.
 *
 * zod's e-mail pattern is not modelled; it is the `EmailCheck` parameter.
 */
module Schema {

  import opened Wrappers
  import opened Json

  /** `z.string().email()`'s pattern test. */
  type EmailCheck = string -> bool

  /** `z.string().min(n)`: the key holds a string of at least `n` characters. */
  function RequiredString(body: Json, key: string, min: nat): (r: Option<string>)
    ensures r.Some? <==> Field(body, key).Some? && Field(body, key).value.JStr? && |Field(body, key).value.s| >= min
    ensures r.Some? ==> Field(body, key) == Some(JStr(r.value))
  {
    match Field(body, key)
    case Some(JStr(s)) => if |s| >= min then Some(s) else None
    case _ => None
  }

  /**
   * `z.string().min(n).optional()`: None when the field fails, `Some(None)` when it is
   * absent, `Some(Some(s))` for an accepted string.
   */
  function OptionalString(body: Json, key: string, min: nat): (r: Option<Option<string>>)
    ensures Field(body, key).None? ==> r == Some(None)
    ensures r.Some? && r.value.Some? ==> Field(body, key) == Some(JStr(r.value.value)) && |r.value.value| >= min
    ensures Field(body, key).Some? ==> (r.Some? <==> Field(body, key).value.JStr? && |Field(body, key).value.s| >= min)
  {
    match Field(body, key)
    case None => Some(None)
    case Some(JStr(s)) => if |s| >= min then Some(Some(s)) else None
    case Some(_) => None
  }

  /** `z.number().min(0).optional()`. */
  function OptionalNonNegative(body: Json, key: string): (r: Option<Option<real>>)
    ensures Field(body, key).None? ==> r == Some(None)
    ensures r.Some? && r.value.Some? ==> Field(body, key) == Some(JNum(r.value.value)) && r.value.value >= 0.0
    ensures Field(body, key).Some? ==> (r.Some? <==> Field(body, key).value.JNum? && Field(body, key).value.n >= 0.0)
  {
    match Field(body, key)
    case None => Some(None)
    case Some(JNum(n)) => if n >= 0.0 then Some(Some(n)) else None
    case Some(_) => None
  }

  /** `z.record(z.any()).optional()`: an object, or absent. */
  function OptionalRecord(body: Json, key: string): (r: Option<Option<map<string, Json>>>)
    ensures Field(body, key).None? ==> r == Some(None)
    ensures Field(body, key).Some? ==> (r.Some? <==> Field(body, key).value.JObj?)
  {
    match Field(body, key)
    case None => Some(None)
    case Some(JObj(m)) => Some(Some(m))
    case Some(_) => None
  }

  /** `z.enum(values).default(d)`: the default when absent, the value when it is one of `values`. */
  function EnumOrDefault(body: Json, key: string, values: seq<string>, default: string): (r: Option<string>)
    ensures Field(body, key).None? ==> r == Some(default)
    ensures Field(body, key).Some? ==> (r.Some? <==> Field(body, key).value.JStr? && Field(body, key).value.s in values)
    ensures Field(body, key).Some? && r.Some? ==> Field(body, key) == Some(JStr(r.value))
  {
    match Field(body, key)
    case None => Some(default)
    case Some(JStr(s)) => if s in values then Some(s) else None
    case Some(_) => None
  }

  /** A well-formed e-mail address, as the schemas require. */
  function Email(body: Json, key: string, isEmail: EmailCheck): (r: Option<string>)
    ensures r.Some? <==> RequiredString(body, key, 0).Some? && isEmail(RequiredString(body, key, 0).value)
    ensures r.Some? ==> r == RequiredString(body, key, 0)
  {
    match RequiredString(body, key, 0)
    case Some(s) => if isEmail(s) then Some(s) else None
    case None => None
  }
}
