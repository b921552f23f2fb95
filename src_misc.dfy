/** Miscellaneous tools of the TypeScript server: `buildMiscRequest` in
    src/mcp/tools/misc.ts. Its guards come from src/mcp/validation.ts, whose
    number guards reject `Infinity`. */
module MiscTools {
  import opened Json
  import opened Text
  import opened Requests
  import opened Guards

  /** Tool names in the order of `miscTools`. */
  const ToolNames: seq<string> := [
    "bitrix_timeline_comment_add", "bitrix_batch", "bitrix_telephony_call_list",
    "bitrix_im_message_add", "bitrix_crm_status_list", "bitrix_webhook_status"]

  const TimelineRequired := "entityType, entityId and comment are required"
  const TimelineEntityTypes := "entityType must be one of: lead, deal, contact, company"
  const CmdRequired := "cmd is required and must contain at least one command"
  const DialogRequired := "dialogId and message are required"

  /** The four entity names the timeline tool admits, in its own order. */
  const ValidEntityTypes: seq<string> := ["lead", "deal", "contact", "company"]

  /** `bitrix_timeline_comment_add`: all three arguments are required; the
      entity type is matched and sent in lower case (unlike
      `bitrix_add_comment`, which sends upper case). */
  function TimelineCommentAdd(args: Obj): (r: Built)
    ensures !Acceptable(args, "entityType") ==> r == Rejected(BadRequest("entityType must be a non-empty string"))
    ensures Acceptable(args, "entityType") && !("entityId" in args && PositiveNumber(args["entityId"], RejectInfinity))
            ==> r == Rejected(BadRequest("entityId must be a positive number"))
    ensures Acceptable(args, "entityType") && "entityId" in args && PositiveNumber(args["entityId"], RejectInfinity)
            && !Acceptable(args, "comment")
            ==> r == Rejected(BadRequest("comment must be a non-empty string"))
    ensures && "entityType" in args && args["entityType"].JStr? && !AllWhitespace(args["entityType"].s)
            && "entityId" in args && PositiveNumber(args["entityId"], RejectInfinity)
            && "comment" in args && args["comment"].JStr? && !AllWhitespace(args["comment"].s)
            && Lower(Trim(args["entityType"].s)) !in ValidEntityTypes
            ==> r == Rejected(BadRequest(TimelineEntityTypes))
    ensures r.Claimed? <==> && "entityType" in args && args["entityType"].JStr? && !AllWhitespace(args["entityType"].s)
                            && "entityId" in args && PositiveNumber(args["entityId"], RejectInfinity)
                            && "comment" in args && args["comment"].JStr? && !AllWhitespace(args["comment"].s)
                            && Lower(Trim(args["entityType"].s)) in ValidEntityTypes
    ensures r.Claimed? ==> r.request == Request("crm.timeline.comment.add", map["fields" := JObj(map[
      "ENTITY_ID" := args["entityId"],
      "ENTITY_TYPE" := JStr(Lower(Trim(args["entityType"].s))),
      "COMMENT" := JStr(Trim(args["comment"].s))])])
    ensures r.Rejected? && Acceptable(args, "entityType") && Acceptable(args, "comment")
            && "entityId" in args && PositiveNumber(args["entityId"], RejectInfinity)
            && (Missing(Get(args, "entityType")) || Missing(Get(args, "comment")))
            ==> r == Rejected(BadRequest(TimelineRequired))
  {
    var entityType :- EnsureString(Get(args, "entityType"), "entityType must be a non-empty string");
    var entityId :- EnsurePositiveNumber(Get(args, "entityId"), "entityId must be a positive number", RejectInfinity);
    var comment :- EnsureString(Get(args, "comment"), "comment must be a non-empty string");
    if entityType.None? || comment.None? then Rejected(BadRequest(TimelineRequired))
    else
      var normalized := Lower(entityType.value);
      if normalized !in ValidEntityTypes then Rejected(BadRequest(TimelineEntityTypes))
      else
        Claimed(Request("crm.timeline.comment.add", map["fields" := JObj(map[
          "ENTITY_ID" := entityId, "ENTITY_TYPE" := JStr(normalized), "COMMENT" := JStr(comment.value)])]))
  }

  /** `bitrix_batch`: a non-empty `cmd` object is required and sent
      unchanged; `halt` must be a boolean if given, and becomes 1 for true
      and 0 otherwise. */
  function Batch(args: Obj): (r: Built)
    ensures r.Claimed? <==> && "cmd" in args && args["cmd"].JObj? && |args["cmd"].fields| > 0
                            && (Missing(Get(args, "halt")) || args["halt"].JBool?)
    ensures r.Claimed? ==> r.request == Request("batch", map[
      "cmd" := args["cmd"],
      "halt" := JNum(if Get(args, "halt") == Some(JBool(true)) then 1.0 else 0.0)])
    ensures (Missing(Get(args, "cmd")) || (args["cmd"].JObj? && |args["cmd"].fields| == 0))
            ==> r == Rejected(BadRequest(CmdRequired))
  {
    var cmd :- EnsureObject(Get(args, "cmd"), "cmd must be an object");
    if EmptyOrMissing(cmd) then Rejected(BadRequest(CmdRequired))
    else
      var halt :- EnsureBoolean(Get(args, "halt"), "halt must be a boolean");
      Claimed(Request("batch", map["cmd" := JObj(cmd.value), "halt" := JNum(if halt.GetOr(false) then 1.0 else 0.0)]))
  }

  /** The payload of `bitrix_telephony_call_list`: `FILTER` and `START`
      always, `SORT` and `ORDER` only when given. */
  function TelephonyPayload(filter: Obj, start: JValue, sort: Option<string>, order: Option<string>): (p: Obj)
    ensures p.Keys <= {"FILTER", "START", "SORT", "ORDER"}
    ensures "FILTER" in p && "START" in p && p["FILTER"] == JObj(filter) && p["START"] == start
    ensures ("SORT" in p <==> sort.Some?) && ("ORDER" in p <==> order.Some?)
    ensures sort.Some? ==> p["SORT"] == JStr(sort.value)
    ensures order.Some? ==> p["ORDER"] == JStr(order.value)
  {
    Put(Put(map["FILTER" := JObj(filter), "START" := start], "SORT", StrOpt(sort)), "ORDER", StrOpt(order))
  }

  /** `bitrix_telephony_call_list`: `FILTER` defaults to `{}` and `START`
      to 0; a given finite number, negative or zero, is kept. */
  function TelephonyCallList(args: Obj): (r: Built)
    ensures r.Claimed? <==> && ObjectOrMissing(args, "filter")
                            && Acceptable(args, "sort") && Acceptable(args, "order")
                            && (Missing(Get(args, "start")) || AdmittedNumber(args["start"], RejectInfinity))
    ensures r.Claimed? ==> r.request == Request("voximplant.statistic.get", TelephonyPayload(
      ObjectOr(args, "filter"),
      if Missing(Get(args, "start")) then JNum(0.0) else args["start"],
      TrimmedArg(args, "sort"), TrimmedArg(args, "order")))
  {
    var filter :- EnsureObject(Get(args, "filter"), "filter must be an object");
    var sort :- StringArg(args, "sort", "sort must be a non-empty string");
    var order :- StringArg(args, "order", "order must be a non-empty string");
    var start :- EnsureNumber(Get(args, "start"), "start must be a number", RejectInfinity);
    Claimed(Request("voximplant.statistic.get", TelephonyPayload(filter.GetOr(map[]), Or(start, JNum(0.0)), sort, order)))
  }

  /** `bitrix_crm_status_list`: `{}` without an entity id,
      `{ filter: { ENTITY_ID } }` with one. */
  function CrmStatusList(args: Obj): (r: Built)
    ensures r.Claimed? <==> Acceptable(args, "entityId")
    ensures r.Claimed? && Missing(Get(args, "entityId")) ==> r.request == Request("crm.status.list", map[])
    ensures r.Claimed? && !Missing(Get(args, "entityId")) ==> r.request == Request("crm.status.list",
      map["filter" := JObj(map["ENTITY_ID" := JStr(Trim(args["entityId"].s))])])
  {
    var entityId :- StringArg(args, "entityId", "entityId must be a non-empty string");
    Claimed(Request("crm.status.list", Put(map[], "filter", if entityId.Some? then Some(JObj(map["ENTITY_ID" := JStr(entityId.value)])) else None)))
  }

  /** `buildMiscRequest(toolName, args)` */
  function BuildMiscRequest(name: string, args: Obj): (r: Built)
    ensures r.NotMine? <==> name !in ToolNames
  {
    match name
    case "bitrix_timeline_comment_add" => TimelineCommentAdd(args)
    case "bitrix_batch" => Batch(args)
    case "bitrix_telephony_call_list" => TelephonyCallList(args)
    case "bitrix_im_message_add" =>
      var dialogId :- EnsureString(Get(args, "dialogId"), "dialogId must be a non-empty string");
      var message :- EnsureString(Get(args, "message"), "message must be a non-empty string");
      if dialogId.None? || message.None? then Rejected(BadRequest(DialogRequired))
      else Claimed(Request("im.message.add", map["DIALOG_ID" := JStr(dialogId.value), "MESSAGE" := JStr(message.value)]))
    case "bitrix_crm_status_list" => CrmStatusList(args)
    case "bitrix_webhook_status" => Claimed(Request("app.info", map[]))
    case _ => NotMine
  }

  /** `bitrix_im_message_add` needs both a dialog and a message. */
  lemma ImMessageRequiresBoth(args: Obj)
    requires Acceptable(args, "dialogId") && Acceptable(args, "message")
    ensures var r := BuildMiscRequest("bitrix_im_message_add", args);
      && (r.Claimed? <==> !Missing(Get(args, "dialogId")) && !Missing(Get(args, "message")))
      && (!r.Claimed? ==> r == Rejected(BadRequest(DialogRequired)))
      && (r.Claimed? ==> r.request == Request("im.message.add", map[
            "DIALOG_ID" := JStr(Trim(args["dialogId"].s)), "MESSAGE" := JStr(Trim(args["message"].s))]))
  {
  }

  /** `bitrix_webhook_status` is `app.info` with `{}`, whatever the arguments. */
  lemma WebhookStatusConstant(args: Obj)
    ensures BuildMiscRequest("bitrix_webhook_status", args) == Claimed(Request("app.info", map[]))
  {
  }
}
