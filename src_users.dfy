/** User tools of the TypeScript server: `buildUserRequest` in
    src/mcp/tools/users.ts. */
module UserTools {
  import opened Json
  import opened Text
  import opened Requests
  import opened Guards
  import opened CrmPatterns

  /** Tool names in the order of `userToolDefinitions`. */
  const ToolNames: seq<string> := [
    "bitrix_list_users", "bitrix_get_user", "bitrix_get_current_user", "bitrix_get_user_activity"]

  const UserIdMessage := "Parameter \"userId\" must be a positive number"
  const DateFromMessage := "Parameter \"dateFrom\" must be a valid ISO date string"
  const DateToMessage := "Parameter \"dateTo\" must be a valid ISO date string"

  /** The payload of `bitrix_list_users`: `{ start }` with every filter
      entry written over it, so a filter key `start` replaces the start. */
  function FlatPayload(start: JValue, filter: Obj): (r: Obj)
    ensures r.Keys == filter.Keys + {"start"}
    ensures forall k :: k in filter ==> r[k] == filter[k]
    ensures "start" !in filter ==> r["start"] == start
  {
    map["start" := start] + filter
  }

  /** The `Object.entries(filter).forEach(...)` copy of users.ts:58-61, one
      entry at a time, kept beside the map union `FlatPayload` that
      `BuildUserRequest` uses; the loop is proved to produce exactly that
      union. Keys are distinct, so the order of the entries does not matter. */
  method CopyFilterEntries(start: JValue, filter: Obj) returns (payload: Obj)
    ensures payload == FlatPayload(start, filter)
  {
    payload := map["start" := start];
    var remaining := filter.Keys;
    while remaining != {}
      invariant remaining <= filter.Keys
      invariant payload.Keys == (filter.Keys - remaining) + {"start"}
      invariant forall k :: k in filter.Keys - remaining ==> payload[k] == filter[k]
      invariant "start" !in filter.Keys - remaining ==> payload["start"] == start
      decreases remaining
    {
      var k :| k in remaining;
      payload := payload[k := filter[k]];
      remaining := remaining - {k};
    }
  }

  /** The filter of `bitrix_get_user_activity`. */
  function ActivityFilter(userId: JValue, dateFrom: Option<string>, dateTo: Option<string>): (f: Obj)
    ensures f.Keys == {"RESPONSIBLE_ID"} + (if dateFrom.Some? then {">=START_TIME"} else {})
                                         + (if dateTo.Some? then {"<=START_TIME"} else {})
    ensures f["RESPONSIBLE_ID"] == userId
    ensures dateFrom.Some? ==> f[">=START_TIME"] == JStr(dateFrom.value)
    ensures dateTo.Some? ==> f["<=START_TIME"] == JStr(dateTo.value)
  {
    Put(Put(map["RESPONSIBLE_ID" := userId], ">=START_TIME", StrOpt(dateFrom)), "<=START_TIME", StrOpt(dateTo))
  }

  /** `buildUserRequest(toolName, args)` */
  function BuildUserRequest(name: string, args: Obj): (r: Built)
    ensures r.NotMine? <==> name !in ToolNames
  {
    if name == "bitrix_list_users" then
      var filter :- EnsureObject(Get(args, "filter"), FilterMessage);
      var start := Or(Some(GetOptionalPositiveNumber(Get(args, "start"), 0.0)), JNum(0.0));
      Claimed(Request("user.get", FlatPayload(start, filter.GetOr(map[]))))
    else if name == "bitrix_get_user" then
      var id :- PositiveArg(args, "id", IdMessage);
      Claimed(Request("user.get", map["ID" := id]))
    else if name == "bitrix_get_current_user" then
      Claimed(Request("user.current", map[]))
    else if name == "bitrix_get_user_activity" then
      var userId :- PositiveArg(args, "userId", UserIdMessage);
      var dateFrom :- EnsureIsoDate(Get(args, "dateFrom"), DateFromMessage);
      var dateTo :- EnsureIsoDate(Get(args, "dateTo"), DateToMessage);
      var limit := GetOptionalPositiveNumber(Get(args, "limit"), 50.0);
      Claimed(Request("crm.activity.list", map["filter" := JObj(ActivityFilter(userId, dateFrom, dateTo)),
                                               "start" := JNum(0.0), "limit" := limit]))
    else
      NotMine
  }

  /** `bitrix_list_users` never fails on `start`; with a filter object its
      entries become top-level keys, and a filter key `start` wins. */
  lemma ListUsersFlattens(args: Obj)
    requires ObjectOrMissing(args, "filter")
    ensures var r := BuildUserRequest("bitrix_list_users", args);
      && r.Claimed? && r.request.restMethod == "user.get"
      && r.request.payload.Keys == ObjectOr(args, "filter").Keys + {"start"}
      && (forall k :: k in ObjectOr(args, "filter") ==> r.request.payload[k] == ObjectOr(args, "filter")[k])
      && ("start" !in ObjectOr(args, "filter") ==> r.request.payload["start"] == GetOptionalPositiveNumber(Get(args, "start"), 0.0))
  {
    var start := Or(Some(GetOptionalPositiveNumber(Get(args, "start"), 0.0)), JNum(0.0));
    assert start == GetOptionalPositiveNumber(Get(args, "start"), 0.0);
  }

  /** `bitrix_get_user_activity`: exactly `{ filter, start: 0, limit }`, with
      `limit` 50 by default; `RESPONSIBLE_ID` always; each date bound only
      when given, and only if it has an ISO shape. */
  lemma UserActivityFilter(args: Obj)
    requires "userId" in args && PositiveNumber(args["userId"], AcceptInfinity)
    ensures var r := BuildUserRequest("bitrix_get_user_activity", args);
      var fromOk := Missing(Get(args, "dateFrom")) || (args["dateFrom"].JStr? && IsIsoShaped(args["dateFrom"].s));
      var toOk := Missing(Get(args, "dateTo")) || (args["dateTo"].JStr? && IsIsoShaped(args["dateTo"].s));
      && (r.Claimed? <==> fromOk && toOk)
      && (r.Claimed? ==>
            && r.request.restMethod == "crm.activity.list"
            && r.request.payload.Keys == {"filter", "start", "limit"}
            && r.request.payload["start"] == JNum(0.0)
            && r.request.payload["limit"] == GetOptionalPositiveNumber(Get(args, "limit"), 50.0)
            && r.request.payload["filter"].JObj?
            && var f := r.request.payload["filter"].fields;
            && f["RESPONSIBLE_ID"] == args["userId"]
            && (">=START_TIME" in f <==> !Missing(Get(args, "dateFrom")))
            && ("<=START_TIME" in f <==> !Missing(Get(args, "dateTo")))
            && (">=START_TIME" in f ==> f[">=START_TIME"] == args["dateFrom"])
            && ("<=START_TIME" in f ==> f["<=START_TIME"] == args["dateTo"]))
  {
  }
}
