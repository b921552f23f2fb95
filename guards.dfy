/** Validation primitives: src/mcp/tools/helpers.ts, src/mcp/validation.ts and
    the inline copies at the top of every api/mcp/tools file.

    The copies differ only in whether a guard on numbers also rejects
    `Infinity` (`!Number.isFinite(value)`); that difference is the `policy`
    parameter, and every builder passes the policy of its own file. Each guard
    takes the argument as read from the argument bag (`None` is `undefined`). */
module Guards {
  import opened Json
  import opened Text
  import opened Requests

  datatype InfinityPolicy = AcceptInfinity | RejectInfinity

  /** A number that passes `typeof === 'number' && !isNaN` and, under
      `RejectInfinity`, `Number.isFinite`. */
  predicate AdmittedNumber(v: JValue, policy: InfinityPolicy) {
    v.JNum? || (v.JInf? && policy == AcceptInfinity)
  }

  /** A strictly positive admitted number (`-Infinity <= 0` is rejected too). */
  predicate PositiveNumber(v: JValue, policy: InfinityPolicy) {
    (v.JNum? && v.n > 0.0) || (v == JInf(false) && policy == AcceptInfinity)
  }

  /** `ensureObject`: absent stays absent, arrays and non-objects fail, any
      other object passes unchanged. */
  function EnsureObject(v: Option<JValue>, message: string): (r: Guarded<Obj>)
    ensures r.Absent? <==> Missing(v)
    ensures r.Bad? <==> !Missing(v) && !v.value.JObj?
    ensures r.Bad? ==> r.message == message
    ensures r.Value? ==> v == Some(JObj(r.value))
  {
    if Missing(v) then Absent
    else if v.value.JObj? then Value(v.value.fields)
    else Bad(message)
  }

  /** `ensureString`: absent stays absent; a non-string or a blank string
      fails; otherwise the trimmed string, which is never empty. */
  function EnsureString(v: Option<JValue>, message: string): (r: Guarded<string>)
    ensures r.Absent? <==> Missing(v)
    ensures r.Bad? <==> !Missing(v) && (!v.value.JStr? || AllWhitespace(v.value.s))
    ensures r.Bad? ==> r.message == message
    ensures r.Value? ==> v.Some? && v.value.JStr? && r.value == Trim(v.value.s)
    ensures r.Value? ==> r.value != [] && !IsJsWhitespace(r.value[0]) && !IsJsWhitespace(r.value[|r.value| - 1])
  {
    if Missing(v) then Absent
    else if !v.value.JStr? then Bad(message)
    else
      var t := Trim(v.value.s);
      TrimEmptyIffBlank(v.value.s);
      TrimIsSlice(v.value.s);
      if |t| == 0 then Bad(message) else Value(t)
  }

  /** A string argument that `ensureString` accepts. */
  predicate NonBlank(v: JValue) {
    v.JStr? && !AllWhitespace(v.s)
  }

  /** An optional string argument that `ensureString` accepts. */
  predicate Acceptable(args: Obj, key: string) {
    Missing(Get(args, key)) || NonBlank(args[key])
  }

  /** The trimmed string argument, `None` when missing. */
  function TrimmedArg(args: Obj, key: string): (r: Option<string>)
    requires Acceptable(args, key)
    ensures r.None? <==> Missing(Get(args, key))
    ensures r.Some? ==> r.value == Trim(args[key].s)
  {
    if Missing(Get(args, key)) then None else Some(Trim(args[key].s))
  }

  /** `ensureString(args[key], message)` in the terms above. */
  function StringArg(args: Obj, key: string, message: string): (r: Guarded<string>)
    ensures r.Bad? <==> !Acceptable(args, key)
    ensures r.Bad? ==> r.message == message
    ensures !r.Bad? ==> r.Extract() == TrimmedArg(args, key)
  {
    EnsureString(Get(args, key), message)
  }

  /** An optional object argument that `ensureObject` accepts. */
  predicate ObjectOrMissing(args: Obj, key: string) {
    Missing(Get(args, key)) || args[key].JObj?
  }

  /** The object argument, `{}` when missing. */
  function ObjectOr(args: Obj, key: string): Obj
    requires ObjectOrMissing(args, key)
  {
    if Missing(Get(args, key)) then map[] else args[key].fields
  }

  /** `ensurePositiveNumber`: there is no absent case; anything but a number
      greater than zero fails, and the number itself is returned. */
  function EnsurePositiveNumber(v: Option<JValue>, message: string, policy: InfinityPolicy): (r: Checked<JValue>)
    ensures r.Pass? <==> v.Some? && PositiveNumber(v.value, policy)
    ensures r.Pass? ==> Some(r.value) == v
    ensures r.Fail? ==> r.message == message
  {
    if v.None? then Fail(message)
    else
      match v.value
      case JNum(n) => if n <= 0.0 then Fail(message) else Pass(v.value)
      case JInf(negative) =>
        if policy == RejectInfinity || negative then Fail(message) else Pass(v.value)
      case _ => Fail(message)
  }

  /** `ensureNonNegativeNumber` (helpers.ts): like the positive guard but
      zero passes. */
  function EnsureNonNegativeNumber(v: Option<JValue>, message: string): (r: Checked<JValue>)
    ensures r.Pass? <==> v.Some? && ((v.value.JNum? && v.value.n >= 0.0) || v.value == JInf(false))
    ensures r.Pass? ==> Some(r.value) == v
    ensures r.Fail? ==> r.message == message
  {
    if v.None? then Fail(message)
    else
      match v.value
      case JNum(n) => if n < 0.0 then Fail(message) else Pass(v.value)
      case JInf(negative) => if negative then Fail(message) else Pass(v.value)
      case _ => Fail(message)
  }

  /** `getOptionalNumber`: never fails; any non-NaN number (infinities
      included) is kept, anything else gives the default. */
  function GetOptionalNumber(v: Option<JValue>, default: real): (r: JValue)
    ensures v.Some? && (v.value.JNum? || v.value.JInf?) ==> r == v.value
    ensures !(v.Some? && (v.value.JNum? || v.value.JInf?)) ==> r == JNum(default)
  {
    if Missing(v) then JNum(default)
    else if v.value.JNum? || v.value.JInf? then v.value
    else JNum(default)
  }

  /** `getOptionalPositiveNumber`: never fails; keeps exactly the numbers
      greater than zero (`Infinity` included), else the default. */
  function GetOptionalPositiveNumber(v: Option<JValue>, default: real): (r: JValue)
    ensures v.Some? && PositiveNumber(v.value, AcceptInfinity) ==> r == v.value
    ensures !(v.Some? && PositiveNumber(v.value, AcceptInfinity)) ==> r == JNum(default)
  {
    if Missing(v) then JNum(default)
    else
      match v.value
      case JNum(n) => if n <= 0.0 then JNum(default) else v.value
      case JInf(negative) => if negative then JNum(default) else v.value
      case _ => JNum(default)
  }

  /** `ensureEnum`: exactly the strings in `allowed` (case-sensitive) pass,
      unchanged; the failure message lists the allowed values. */
  function EnsureEnum(v: Option<JValue>, allowed: seq<string>, message: string): (r: Checked<string>)
    ensures r.Pass? <==> v.Some? && v.value.JStr? && v.value.s in allowed
    ensures r.Pass? ==> v == Some(JStr(r.value))
    ensures r.Fail? ==> r.message == message + ". Allowed values: " + Join(allowed, ", ")
  {
    if v.Some? && v.value.JStr? && v.value.s in allowed then Pass(v.value.s)
    else Fail(message + ". Allowed values: " + Join(allowed, ", "))
  }

  const EntityTypes: seq<string> := ["deal", "contact", "company", "lead"]

  const EntityTypeMessage := "Parameter \"entityType\" must be one of: deal, contact, company, lead"

  /** `validateEntityType`: accepts the four CRM entity names in any letter
      case and returns the input upper-cased; absent fails. */
  function ValidateEntityType(entityType: Option<string>): (r: Checked<string>)
    ensures r.Pass? <==> entityType.Some? && Lower(entityType.value) in EntityTypes
    ensures r.Pass? ==> r.value == Upper(entityType.value)
    ensures r.Fail? ==> r.message == EntityTypeMessage
  {
    if entityType.None? || entityType.value == "" || Lower(entityType.value) !in EntityTypes then
      Fail(EntityTypeMessage)
    else
      Pass(Upper(entityType.value))
  }

  /** The accepted entity types come back as one of the four upper-case names,
      whatever the case of the input. */
  lemma ValidateEntityTypeCanonical(entityType: Option<string>)
    ensures var r := ValidateEntityType(entityType);
      r.Pass? ==> r.value in ["DEAL", "CONTACT", "COMPANY", "LEAD"]
  {
    var r := ValidateEntityType(entityType);
    if r.Pass? {
      var e := entityType.value;
      UpperOfLower(e);
      var l := Lower(e);
      if l == "deal" {
        assert Upper("deal") == "DEAL";
      } else if l == "contact" {
        assert Upper("contact") == "CONTACT";
      } else if l == "company" {
        assert Upper("company") == "COMPANY";
      } else {
        assert Upper("lead") == "LEAD";
      }
    }
  }

  const IsoHint := ". Expected ISO 8601 format (e.g., 2024-01-15 or 2024-01-15T10:30:00)"

  /** `ensureISODate`: absent stays absent, a non-string fails, a string passes
      exactly when it has one of the ISO shapes, and is returned untrimmed. */
  function EnsureIsoDate(v: Option<JValue>, message: string): (r: Guarded<string>)
    ensures r.Absent? <==> Missing(v)
    ensures r.Value? <==> v.Some? && v.value.JStr? && IsIsoShaped(v.value.s)
    ensures r.Value? ==> v == Some(JStr(r.value))
    ensures r.Bad? && v.Some? && v.value.JStr? ==> r.message == message + IsoHint
    ensures r.Bad? && !(v.Some? && v.value.JStr?) ==> r.message == message
  {
    if Missing(v) then Absent
    else if !v.value.JStr? then Bad(message)
    else
      IsoDateRegexShapes(v.value.s);
      if !IsoDateRegex(v.value.s) then Bad(message + IsoHint) else Value(v.value.s)
  }

  /** `createListPayload`: `filter` (default `{}`), `start` and `limit` are
      always there; `order` only when it has a key, `select` only when it is
      a non-empty array. */
  function CreateListPayload(filter: Option<Obj>, order: Option<Obj>, start: JValue, limit: JValue,
                             select: Option<seq<JValue>>): (r: Obj)
    ensures r.Keys == {"filter", "start", "limit"}
      + (if order.Some? && |order.value| > 0 then {"order"} else {})
      + (if select.Some? && |select.value| > 0 then {"select"} else {})
    ensures r["filter"] == JObj(filter.GetOr(map[])) && r["start"] == start && r["limit"] == limit
    ensures "order" in r ==> r["order"] == JObj(order.value)
    ensures "select" in r ==> r["select"] == JArr(select.value)
  {
    var base := map["filter" := JObj(filter.GetOr(map[])), "start" := start, "limit" := limit];
    var withOrder := if order.Some? && |order.value| > 0 then base["order" := JObj(order.value)] else base;
    if select.Some? && |select.value| > 0 then withOrder["select" := JArr(select.value)] else withOrder
  }

  /** `ensureNumber` (validation.ts and the api copies): absent stays absent;
      non-numbers and NaN fail; under `RejectInfinity` so do the infinities;
      zero and negative numbers pass unchanged. */
  function EnsureNumber(v: Option<JValue>, message: string, policy: InfinityPolicy): (r: Guarded<JValue>)
    ensures r.Absent? <==> Missing(v)
    ensures r.Value? <==> v.Some? && AdmittedNumber(v.value, policy)
    ensures r.Value? ==> Some(r.value) == v
    ensures r.Bad? ==> r.message == message
  {
    if Missing(v) then Absent
    else if v.value.JNum? then Value(v.value)
    else if v.value.JInf? && policy == AcceptInfinity then Value(v.value)
    else Bad(message)
  }

  /** `ensureBoolean`: absent stays absent; only `true` and `false` pass. */
  function EnsureBoolean(v: Option<JValue>, message: string): (r: Guarded<bool>)
    ensures r.Absent? <==> Missing(v)
    ensures r.Value? <==> v.Some? && v.value.JBool?
    ensures r.Value? ==> v == Some(JBool(r.value))
    ensures r.Bad? ==> r.message == message
  {
    if Missing(v) then Absent
    else if v.value.JBool? then Value(v.value.b)
    else Bad(message)
  }

  /** `ensureArray`: absent stays absent; non-arrays fail; arrays pass
      unchanged. */
  function EnsureArray(v: Option<JValue>, message: string): (r: Guarded<seq<JValue>>)
    ensures r.Absent? <==> Missing(v)
    ensures r.Value? <==> v.Some? && v.value.JArr?
    ensures r.Value? ==> v == Some(JArr(r.value))
    ensures r.Bad? ==> r.message == message
  {
    if Missing(v) then Absent
    else if v.value.JArr? then Value(v.value.items)
    else Bad(message)
  }

  /** The validation.ts copy of `ensurePositiveNumber` rejects `Infinity`,
      which the helpers.ts copy accepts. */
  lemma PositiveNumberInfinityPolicies(message: string)
    ensures EnsurePositiveNumber(Some(JInf(false)), message, AcceptInfinity) == Pass(JInf(false))
    ensures EnsurePositiveNumber(Some(JInf(false)), message, RejectInfinity) == Fail(message)
    ensures forall p :: EnsurePositiveNumber(Some(JInf(true)), message, p) == Fail(message)
    ensures forall p :: EnsurePositiveNumber(Some(JNaN), message, p) == Fail(message)
    ensures forall p :: EnsurePositiveNumber(Some(JNum(0.0)), message, p) == Fail(message)
  {
  }

  /** Guards on numbers agree on every finite input whatever the policy: the
      policies differ on the infinities only. */
  lemma PoliciesAgreeOnFinite(v: Option<JValue>, message: string)
    requires v.None? || !v.value.JInf?
    ensures EnsurePositiveNumber(v, message, AcceptInfinity) == EnsurePositiveNumber(v, message, RejectInfinity)
    ensures EnsureNumber(v, message, AcceptInfinity) == EnsureNumber(v, message, RejectInfinity)
  {
  }
}
