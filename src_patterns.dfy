/** Branch shapes that the TypeScript CRM builders (deals.ts, leads.ts,
    contacts.ts, companies.ts, activities.ts) repeat with only the REST method
    changed. Each is defined once here, with its promise in its contract, and
    each builder calls it with its own method name. Guards are helpers.ts's. */
module CrmPatterns {
  import opened Json
  import opened Text
  import opened Requests
  import opened Guards

  const IdMessage := "Parameter \"id\" must be a positive number"
  const TitleMessage := "Parameter \"title\" must be a non-empty string"
  const FieldsWhenProvided := "Parameter \"fields\" must be an object when provided"
  const FieldsMessage := "Parameter \"fields\" must be an object"
  const FilterMessage := "Parameter \"filter\" must be an object when provided"
  const OrderMessage := "Parameter \"order\" must be an object when provided"

  /** `ensurePositiveNumber(args[key], message)` with helpers.ts's policy. */
  function PositiveArg(args: Obj, key: string, message: string): (r: Checked<JValue>)
    ensures r.Pass? <==> key in args && PositiveNumber(args[key], AcceptInfinity)
    ensures r.Pass? ==> r.value == args[key]
    ensures r.Fail? ==> r.message == message
  {
    EnsurePositiveNumber(Get(args, key), message, AcceptInfinity)
  }

  /** `{ TITLE: title, ...(fields || {}) }`: every key of `fields` is kept
      and wins over the title; `TITLE` comes from the title only when
      `fields` has none, and is left out when the title is `undefined`. */
  function MergeTitle(title: Option<string>, fields: Option<Obj>): (r: Obj)
    ensures r.Keys == fields.GetOr(map[]).Keys + (if title.Some? then {"TITLE"} else {})
    ensures forall k :: k in fields.GetOr(map[]) ==> r[k] == fields.value[k]
    ensures title.Some? && "TITLE" !in fields.GetOr(map[]) ==> r["TITLE"] == JStr(title.value)
  {
    Put(map[], "TITLE", StrOpt(title)) + fields.GetOr(map[])
  }

  /** `get` branches: `{ id }` for a positive `id` (`Infinity` included). */
  function GetById(restMethod: string, args: Obj): (r: Built)
    ensures r.Claimed? <==> "id" in args && PositiveNumber(args["id"], AcceptInfinity)
    ensures r.Claimed? ==> r.request == Request(restMethod, map["id" := args["id"]])
    ensures !r.Claimed? ==> r == Rejected(BadRequest(IdMessage))
  {
    var id :- EnsurePositiveNumber(Get(args, "id"), IdMessage, AcceptInfinity);
    Claimed(Request(restMethod, map["id" := id]))
  }

  /** `create` branches of deals, leads and companies: `{ fields: MergeTitle }`.
      A missing title is not an error; a blank or non-string one is, and so
      is a non-object `fields`, checked after the title. */
  function CreateTitled(restMethod: string, args: Obj): (r: Built)
    ensures r.Rejected? <==> (!Missing(Get(args, "title")) && !NonBlank(args["title"]))
                              || (!Missing(Get(args, "fields")) && !args["fields"].JObj?)
    ensures !Missing(Get(args, "title")) && !NonBlank(args["title"]) ==> r == Rejected(BadRequest(TitleMessage))
    ensures r.Rejected? && (Missing(Get(args, "title")) || NonBlank(args["title"]))
            ==> r == Rejected(BadRequest(FieldsWhenProvided))
    ensures r.Claimed? ==>
      var title := if Missing(Get(args, "title")) then None else Some(Trim(args["title"].s));
      var fields := if Missing(Get(args, "fields")) then None else Some(args["fields"].fields);
      r.request == Request(restMethod, map["fields" := JObj(MergeTitle(title, fields))])
  {
    var title :- EnsureString(Get(args, "title"), TitleMessage);
    var fields :- EnsureObject(Get(args, "fields"), FieldsWhenProvided);
    Claimed(Request(restMethod, map["fields" := JObj(MergeTitle(title, fields))]))
  }

  /** `update` branches: a positive `id` and a `fields` object with at least
      one key, both sent unchanged. */
  function UpdateById(restMethod: string, args: Obj): (r: Built)
    ensures r.Claimed? <==> && "id" in args && PositiveNumber(args["id"], AcceptInfinity)
                            && "fields" in args && args["fields"].JObj? && |args["fields"].fields| > 0
    ensures r.Claimed? ==> r.request == Request(restMethod, map["id" := args["id"], "fields" := args["fields"]])
    ensures !("id" in args && PositiveNumber(args["id"], AcceptInfinity)) ==> r == Rejected(BadRequest(IdMessage))
    ensures "id" in args && PositiveNumber(args["id"], AcceptInfinity)
            && (Missing(Get(args, "fields")) || (args["fields"].JObj? && |args["fields"].fields| == 0))
            ==> r == Rejected(BadRequest(AtLeastOneField))
    ensures "id" in args && PositiveNumber(args["id"], AcceptInfinity)
            && !Missing(Get(args, "fields")) && !args["fields"].JObj?
            ==> r == Rejected(BadRequest(FieldsMessage))
  {
    var id :- EnsurePositiveNumber(Get(args, "id"), IdMessage, AcceptInfinity);
    var fields :- EnsureObject(Get(args, "fields"), FieldsMessage);
    if EmptyOrMissing(fields) then Rejected(BadRequest(AtLeastOneField))
    else Claimed(Request(restMethod, map["id" := id, "fields" := JObj(fields.value)]))
  }

  /** `list` branches: `createListPayload(filter, order, start, limit)` with
      `start` a positive number or 0 and `limit` 50 by default; only a
      non-object `filter` or `order` fails. */
  function ListRequest(restMethod: string, args: Obj): (r: Built)
    ensures r.Claimed? <==> ObjectOrMissing(args, "filter") && ObjectOrMissing(args, "order")
    ensures !ObjectOrMissing(args, "filter") ==> r == Rejected(BadRequest(FilterMessage))
    ensures ObjectOrMissing(args, "filter") && !ObjectOrMissing(args, "order") ==> r == Rejected(BadRequest(OrderMessage))
    ensures r.Claimed? ==>
      && r.request.restMethod == restMethod
      && var p := r.request.payload;
      && p.Keys == {"filter", "start", "limit"} + (if |ObjectOr(args, "order")| > 0 then {"order"} else {})
      && p["filter"] == JObj(ObjectOr(args, "filter"))
      && ("order" in p ==> p["order"] == args["order"])
      && p["start"] == GetOptionalPositiveNumber(Get(args, "start"), 0.0)
      && p["limit"] == GetOptionalPositiveNumber(Get(args, "limit"), 50.0)
  {
    var filter :- EnsureObject(Get(args, "filter"), FilterMessage);
    var order :- EnsureObject(Get(args, "order"), OrderMessage);
    var start := Or(Some(GetOptionalPositiveNumber(Get(args, "start"), 0.0)), JNum(0.0));
    var limit := GetOptionalPositiveNumber(Get(args, "limit"), 50.0);
    assert start == GetOptionalPositiveNumber(Get(args, "start"), 0.0);
    assert filter.GetOr(map[]) == ObjectOr(args, "filter");
    assert order.GetOr(map[]) == ObjectOr(args, "order");
    Claimed(Request(restMethod, CreateListPayload(filter, order, start, limit, None)))
  }

  /** `search` branches of deals and leads: `{ filter: filter || {}, start: 0, limit }`. */
  function SearchByFilter(restMethod: string, args: Obj): (r: Built)
    ensures r.Claimed? <==> ObjectOrMissing(args, "filter")
    ensures !r.Claimed? ==> r == Rejected(BadRequest(FilterMessage))
    ensures r.Claimed? ==> r.request == Request(restMethod,
      map["filter" := JObj(ObjectOr(args, "filter")), "start" := JNum(0.0),
          "limit" := GetOptionalPositiveNumber(Get(args, "limit"), 50.0)])
  {
    var filter :- EnsureObject(Get(args, "filter"), FilterMessage);
    var limit := GetOptionalPositiveNumber(Get(args, "limit"), 50.0);
    Claimed(Request(restMethod, map["filter" := JObj(filter.GetOr(map[])), "start" := JNum(0.0), "limit" := limit]))
  }

  /** `get_latest` branches: newest first, empty filter, start 0, 10 by default. */
  function Latest(restMethod: string, args: Obj): (r: Built)
    ensures r.Claimed? && r.request.restMethod == restMethod
    ensures r.request.payload.Keys == {"filter", "order", "start", "limit"}
    ensures r.request.payload["order"] == JObj(map["DATE_CREATE" := JStr("DESC")])
    ensures r.request.payload["filter"] == JObj(map[]) && r.request.payload["start"] == JNum(0.0)
    ensures r.request.payload["limit"] == GetOptionalPositiveNumber(Get(args, "limit"), 10.0)
    ensures Missing(Get(args, "limit")) ==> r.request.payload["limit"] == JNum(10.0)
  {
    var limit := GetOptionalPositiveNumber(Get(args, "limit"), 10.0);
    Claimed(Request(restMethod, map["filter" := JObj(map[]), "order" := JObj(map["DATE_CREATE" := JStr("DESC")]),
                                    "start" := JNum(0.0), "limit" := limit]))
  }

  /** The list start is never anything but 0 or a positive number. */
  lemma ListStartNonNegative(restMethod: string, args: Obj)
    requires ListRequest(restMethod, args).Claimed?
    ensures var s := ListRequest(restMethod, args).request.payload["start"];
      s == JNum(0.0) || s == JInf(false) || (s.JNum? && s.n > 0.0)
  {
  }
}
