/** Branch shapes that the JavaScript builders under api/mcp/tools repeat
    with only the REST method, the id key and the required field names
    changed. Every one of those files carries its own inline copy of the
    guards; the copies differ only in whether `ensurePositiveNumber` and
    `ensureNumber` also reject `Infinity`, so each shape takes the policy of
    the file that uses it. */
module ApiPatterns {
  import opened Json
  import opened Requests
  import opened Guards

  const FilterMessage := "filter must be an object"
  const SelectMessage := "select must be an array"
  const OrderMessage := "order must be an object"
  const StartMessage := "start must be a number"
  const IdMessage := "id must be a positive number"
  const FieldsMessage := "fields must be an object"
  const NonEmptyFields := "fields must include at least one field"

  /** An optional array argument that `ensureArray` accepts. */
  predicate ArrayOrMissing(args: Obj, key: string) {
    Missing(Get(args, key)) || args[key].JArr?
  }

  /** An optional number argument that `ensureNumber` accepts under `policy`. */
  predicate NumberOrMissing(args: Obj, key: string, policy: InfinityPolicy) {
    Missing(Get(args, key)) || AdmittedNumber(args[key], policy)
  }

  /** The argument itself, or `default` when it is `undefined` or `null`. */
  function GivenOr(args: Obj, key: string, default: JValue): JValue {
    if Missing(Get(args, key)) then default else args[key]
  }

  /** Every key in `required` is present in `fields` with a truthy value. */
  predicate HasTruthy(fields: Obj, required: seq<string>) {
    forall k :: k in required ==> k in fields && Truthy(fields[k])
  }

  /** `*_list` branches: `{ filter, select, order, start }` with `{}`,
      `['*']`, `{}` and 0 for what is not given; a given value of the right
      kind is sent unchanged, so a zero or negative `start` passes. The
      guards run in the order filter, select, order, start. */
  function ListRequest(restMethod: string, args: Obj, policy: InfinityPolicy): (r: Built)
    ensures r.Claimed? <==> && ObjectOrMissing(args, "filter") && ArrayOrMissing(args, "select")
                            && ObjectOrMissing(args, "order") && NumberOrMissing(args, "start", policy)
    ensures !ObjectOrMissing(args, "filter") ==> r == Rejected(BadRequest(FilterMessage))
    ensures ObjectOrMissing(args, "filter") && !ArrayOrMissing(args, "select")
            ==> r == Rejected(BadRequest(SelectMessage))
    ensures ObjectOrMissing(args, "filter") && ArrayOrMissing(args, "select") && !ObjectOrMissing(args, "order")
            ==> r == Rejected(BadRequest(OrderMessage))
    ensures (ObjectOrMissing(args, "filter") && ArrayOrMissing(args, "select") && ObjectOrMissing(args, "order")
             && !NumberOrMissing(args, "start", policy)) ==> r == Rejected(BadRequest(StartMessage))
    ensures r.Claimed? ==> r.request == Request(restMethod, map[
      "filter" := GivenOr(args, "filter", JObj(map[])),
      "select" := GivenOr(args, "select", JArr([JStr("*")])),
      "order" := GivenOr(args, "order", JObj(map[])),
      "start" := GivenOr(args, "start", JNum(0.0))])
  {
    var filter :- EnsureObject(Get(args, "filter"), FilterMessage);
    var select :- EnsureArray(Get(args, "select"), SelectMessage);
    var order :- EnsureObject(Get(args, "order"), OrderMessage);
    var start :- EnsureNumber(Get(args, "start"), StartMessage, policy);
    Claimed(Request(restMethod, map[
      "filter" := JObj(filter.GetOr(map[])),
      "select" := JArr(select.GetOr([JStr("*")])),
      "order" := JObj(order.GetOr(map[])),
      "start" := Or(start, JNum(0.0))]))
  }

  /** `get`, `delete` and `close` branches: `{ [payloadKey]: args[argKey] }`
      for a number greater than zero, else the file's message. */
  function ById(restMethod: string, args: Obj, argKey: string, payloadKey: string, message: string,
                policy: InfinityPolicy): (r: Built)
    ensures r.Claimed? <==> argKey in args && PositiveNumber(args[argKey], policy)
    ensures r.Claimed? ==> r.request == Request(restMethod, map[payloadKey := args[argKey]])
    ensures !r.Claimed? ==> r == Rejected(BadRequest(message))
  {
    var id :- EnsurePositiveNumber(Get(args, argKey), message, policy);
    Claimed(Request(restMethod, map[payloadKey := id]))
  }

  /** `add` branches: a `fields` object whose `required` keys are all
      truthy, sent unchanged as `{ fields }`. A missing or `null` `fields`
      gets `message`, like a falsy required key. */
  function AddWithRequired(restMethod: string, args: Obj, required: seq<string>, message: string): (r: Built)
    ensures r.Claimed? <==> "fields" in args && args["fields"].JObj? && HasTruthy(args["fields"].fields, required)
    ensures r.Claimed? ==> r.request == Request(restMethod, map["fields" := args["fields"]])
    ensures !ObjectOrMissing(args, "fields") ==> r == Rejected(BadRequest(FieldsMessage))
    ensures ObjectOrMissing(args, "fields") && !r.Claimed? ==> r == Rejected(BadRequest(message))
  {
    var fields :- EnsureObject(Get(args, "fields"), FieldsMessage);
    if fields.None? || !HasTruthy(fields.value, required) then Rejected(BadRequest(message))
    else Claimed(Request(restMethod, map["fields" := JObj(fields.value)]))
  }

  /** `update` branches: a positive id under `idKey` and a `fields` object
      with at least one key, both sent unchanged. */
  function UpdateWithFields(restMethod: string, args: Obj, idKey: string, idMessage: string,
                            policy: InfinityPolicy): (r: Built)
    requires idKey != "fields"
    ensures r.Claimed? <==> && idKey in args && PositiveNumber(args[idKey], policy)
                            && "fields" in args && args["fields"].JObj? && |args["fields"].fields| > 0
    ensures r.Claimed? ==> r.request == Request(restMethod, map[idKey := args[idKey], "fields" := args["fields"]])
    ensures !(idKey in args && PositiveNumber(args[idKey], policy)) ==> r == Rejected(BadRequest(idMessage))
    ensures idKey in args && PositiveNumber(args[idKey], policy) && !ObjectOrMissing(args, "fields")
            ==> r == Rejected(BadRequest(FieldsMessage))
    ensures (idKey in args && PositiveNumber(args[idKey], policy) && ObjectOrMissing(args, "fields")
             && !r.Claimed?) ==> r == Rejected(BadRequest(NonEmptyFields))
  {
    var id :- EnsurePositiveNumber(Get(args, idKey), idMessage, policy);
    var fields :- EnsureObject(Get(args, "fields"), FieldsMessage);
    if EmptyOrMissing(fields) then Rejected(BadRequest(NonEmptyFields))
    else Claimed(Request(restMethod, map[idKey := id, "fields" := JObj(fields.value)]))
  }
}
