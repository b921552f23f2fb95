/** User tools of the serverless handlers: `buildUserRequest` in
    api/mcp/tools/users.js. Its inline `ensurePositiveNumber` accepts
    `Infinity`; its inline `ensureNumber` rejects it. */
module ApiUserTools {
  import opened Json
  import opened Requests
  import opened Guards
  import opened ApiPatterns

  /** Tool names in the order of `userTools`. */
  const ToolNames: seq<string> := ["bitrix_user_list", "bitrix_user_get", "bitrix_user_search", "bitrix_user_current"]

  const SearchMessage := "searchString must be a non-empty string"

  /** `bitrix_user_list`: `{ filter, start }` with `{}` and 0 by default. */
  function UserList(args: Obj): (r: Built)
    ensures r.Claimed? <==> ObjectOrMissing(args, "filter") && NumberOrMissing(args, "start", RejectInfinity)
    ensures !ObjectOrMissing(args, "filter") ==> r == Rejected(BadRequest(FilterMessage))
    ensures ObjectOrMissing(args, "filter") && !r.Claimed? ==> r == Rejected(BadRequest(StartMessage))
    ensures r.Claimed? ==> r.request == Request("user.get", map[
      "filter" := GivenOr(args, "filter", JObj(map[])), "start" := GivenOr(args, "start", JNum(0.0))])
  {
    var filter :- EnsureObject(Get(args, "filter"), FilterMessage);
    var start :- EnsureNumber(Get(args, "start"), StartMessage, RejectInfinity);
    Claimed(Request("user.get", map["filter" := JObj(filter.GetOr(map[])), "start" := Or(start, JNum(0.0))]))
  }

  /** `payload` with `FIND` added when a search string is given. */
  function WithFind(payload: Obj, find: Option<string>): (p: Obj)
    requires "FIND" !in payload
    ensures ("FIND" in p <==> find.Some?) && (find.Some? ==> p["FIND"] == JStr(find.value))
    ensures p - {"FIND"} == payload
  {
    var p := Put(payload, "FIND", StrOpt(find));
    assert p - {"FIND"} == payload by {
      assert (p - {"FIND"}).Keys == payload.Keys;
    }
    p
  }

  /** `bitrix_user_search`: the search string is checked first, then the
      arguments of `bitrix_user_list`, with the same messages; the payload
      is the list payload plus `FIND`, the trimmed search string, exactly
      when one is given. */
  function UserSearch(args: Obj): (r: Built)
    ensures r.Claimed? <==> Acceptable(args, "searchString") && UserList(args).Claimed?
    ensures !Acceptable(args, "searchString") ==> r == Rejected(BadRequest(SearchMessage))
    ensures Acceptable(args, "searchString") && !UserList(args).Claimed? ==> r == UserList(args)
    ensures r.Claimed? ==>
      r.request == Request("user.search", WithFind(UserList(args).request.payload, TrimmedArg(args, "searchString")))
  {
    var searchString :- StringArg(args, "searchString", SearchMessage);
    var list := UserList(args);
    if list.Claimed? then Claimed(Request("user.search", WithFind(list.request.payload, searchString)))
    else list
  }

  /** `buildUserRequest(toolName, args)` */
  function BuildUserRequest(name: string, args: Obj): (r: Built)
    ensures r.NotMine? <==> name !in ToolNames
  {
    match name
    case "bitrix_user_list" => UserList(args)
    case "bitrix_user_get" => ById("user.get", args, "id", "ID", IdMessage, AcceptInfinity)
    case "bitrix_user_search" => UserSearch(args)
    case "bitrix_user_current" => Claimed(Request("user.current", map[]))
    case _ => NotMine
  }

  /** Without arguments `bitrix_user_list` and `bitrix_user_search` send
      the same `{ filter: {}, start: 0 }`, to `user.get` and `user.search`. */
  lemma UserListAndSearchDefaults()
    ensures BuildUserRequest("bitrix_user_list", map[])
            == Claimed(Request("user.get", map["filter" := JObj(map[]), "start" := JNum(0.0)]))
    ensures BuildUserRequest("bitrix_user_search", map[])
            == Claimed(Request("user.search", map["filter" := JObj(map[]), "start" := JNum(0.0)]))
  {
    var p := BuildUserRequest("bitrix_user_search", map[]).request.payload;
    assert "FIND" !in p;
    assert p == p - {"FIND"};
  }
}
