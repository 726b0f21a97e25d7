/**
 * The field rules the request schemas under validations/ are built from, as Joi
 * applies them with `abortEarly: false` and `stripUnknown: true`: a missing field is
 * `any.required` (with the schema's custom message, if any) or takes its default; a
 * string is trimmed first when the rule says `trim()`, and an empty string is
 * `string.empty`; then the size, sign and format rules run in the order declared.
 * Each field contributes its first failing rule; a passing field contributes its
 * sanitised value.
 */
module Rules {
  import opened Wrappers
  import opened Text

  /** The Joi error type of a failing field. */
  datatype Rule =
    | Required(message: string)
    | Empty
    | TooShort(min: nat)
    | TooLong(max: nat)
    | NotHex
    | WrongLength(length: nat)
    | NotAllowed
    | NotEmail
    | NotPositive
    | BelowMin(least: int)
    | AboveMax(most: int)
    | TooFewKeys(min: nat)

  datatype Issue = Issue(field: string, rule: Rule)

  /** One field's outcome: its sanitised value, absent (optional, no default), or an issue. */
  datatype Checked<T> = Present(value: T) | Absent | Invalid(issue: Issue)
  {
    function Issues(): (r: seq<Issue>)
      ensures |r| <= 1 && (r == [] <==> !this.Invalid?)
    {
      if this.Invalid? then [issue] else []
    }

    function Value(): Option<T> {
      if this.Present? then Some(value) else None
    }
  }

  /** Joi's `any.required` text: the custom message, or `"<field>" is required`. */
  function RequiredMessage(field: string, custom: Option<string>): (m: string)
    ensures custom.Some? ==> m == custom.value
    ensures custom.None? ==> m == "\"" + field + "\" is required"
  {
    custom.GetOr("\"" + field + "\" is required")
  }

  function Missing<T>(field: string, required: bool, custom: Option<string>): (r: Checked<T>)
    ensures required <==> r.Invalid?
    ensures !required ==> r.Absent?
    ensures required ==> r.issue == Issue(field, Required(RequiredMessage(field, custom)))
  {
    if required then Invalid(Issue(field, Required(RequiredMessage(field, custom)))) else Absent
  }

  /** The value the string rules see: trimmed when the rule says `trim()`. */
  function Prepared(s: string, trim: bool): string {
    if trim then Trim(s) else s
  }

  /**
   * `Joi.string()[.trim()][.min(min)][.max(max)]`; the bounds count UTF-16 code units,
   * as JavaScript's `length` does.
   */
  function TextRule(field: string, v: Option<string>, trim: bool, min: nat, max: Option<nat>,
                    required: bool, custom: Option<string>): (r: Checked<string>)
    ensures r.Present? <==>
      v.Some? && var t := Prepared(v.value, trim);
        t != "" && min <= Utf16Length(t) && (max.None? || Utf16Length(t) <= max.value)
    ensures r.Present? ==> r.value == Prepared(v.value, trim) && (trim ==> IsTrimmed(r.value))
    ensures r.Absent? <==> v.None? && !required
    ensures v.None? && required ==> r == Invalid(Issue(field, Required(RequiredMessage(field, custom))))
    ensures r.Invalid? ==> r.issue.field == field
  {
    match v
    case None => Missing(field, required, custom)
    case Some(s) =>
      var t := Prepared(s, trim);
      if t == "" then Invalid(Issue(field, Empty))
      else if Utf16Length(t) < min then Invalid(Issue(field, TooShort(min)))
      else if max.Some? && Utf16Length(t) > max.value then Invalid(Issue(field, TooLong(max.value)))
      else Present(t)
  }

  /** `Joi.string().hex().length(24)`: the text form of an ObjectId. */
  function HexIdRule(field: string, v: Option<string>, custom: Option<string>): (r: Checked<string>)
    ensures r.Present? <==> v.Some? && IsObjectIdText(v.value)
    ensures r.Present? ==> r.value == v.value
    ensures !r.Absent?
    ensures v.None? ==> r == Invalid(Issue(field, Required(RequiredMessage(field, custom))))
    ensures r.Invalid? ==> r.issue.field == field
  {
    match v
    case None => Missing(field, true, custom)
    case Some(s) =>
      if s == "" then Invalid(Issue(field, Empty))
      else if !IsHex(s) then Invalid(Issue(field, NotHex))
      else if |s| != 24 then Invalid(Issue(field, WrongLength(24)))
      else Present(s)
  }

  /** `Joi.string().valid(...allowed)`: exact equality with one of the allowed values. */
  function OneOfRule(field: string, v: Option<string>, allowed: seq<string>, custom: Option<string>): (r: Checked<string>)
    ensures r.Present? <==> v.Some? && v.value in allowed
    ensures r.Present? ==> r.value == v.value
    ensures !r.Absent?
    ensures v.None? ==> r == Invalid(Issue(field, Required(RequiredMessage(field, custom))))
  {
    match v
    case None => Missing(field, true, custom)
    case Some(s) => if s in allowed then Present(s) else Invalid(Issue(field, NotAllowed))
  }

  /** `Joi.string().email()`, the address syntax being the predicate `isEmail`. */
  function EmailRule(field: string, v: Option<string>, isEmail: string -> bool, custom: Option<string>): (r: Checked<string>)
    ensures r.Present? <==> v.Some? && v.value != "" && isEmail(v.value)
    ensures r.Present? ==> r.value == v.value
    ensures !r.Absent?
    ensures v.None? ==> r == Invalid(Issue(field, Required(RequiredMessage(field, custom))))
  {
    match v
    case None => Missing(field, true, custom)
    case Some(s) =>
      if s == "" then Invalid(Issue(field, Empty))
      else if !isEmail(s) then Invalid(Issue(field, NotEmail))
      else Present(s)
  }

  /**
   * `Joi.number()[.integer()][.positive()][.min(min)][.max(max)][.default(d)]` over
   * integers: a missing value takes the default when there is one.
   */
  function NumberRule(field: string, v: Option<int>, positive: bool, min: Option<int>, max: Option<int>,
                      required: bool, custom: Option<string>, default: Option<int>): (r: Checked<int>)
    requires !(required && default.Some?)
    ensures v.Some? ==> (r.Present? <==>
      (!positive || v.value > 0) && (min.None? || v.value >= min.value) && (max.None? || v.value <= max.value))
    ensures v.Some? && r.Present? ==> r.value == v.value
    ensures v.None? && default.Some? ==> r == Present(default.value)
    ensures v.None? && default.None? ==> r == Missing(field, required, custom)
  {
    match v
    case None => if default.Some? then Present(default.value) else Missing(field, required, custom)
    case Some(n) =>
      if positive && n <= 0 then Invalid(Issue(field, NotPositive))
      else if min.Some? && n < min.value then Invalid(Issue(field, BelowMin(min.value)))
      else if max.Some? && n > max.value then Invalid(Issue(field, AboveMax(max.value)))
      else Present(n)
  }

  /** A text rule accepts the value it produced: validating sanitised input changes nothing. */
  lemma TextRuleStable(field: string, s: string, trim: bool, min: nat, max: Option<nat>, required: bool, custom: Option<string>)
    requires TextRule(field, Some(s), trim, min, max, required, custom).Present?
    ensures var t := TextRule(field, Some(s), trim, min, max, required, custom).value;
      TextRule(field, Some(t), trim, min, max, required, custom) == Present(t)
  {
    if trim {
      TrimTrimmed(Trim(s));
    }
  }
}
