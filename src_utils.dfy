/** Timeline, status, telephony, file and diagnostic tools of the TypeScript
    server: `buildUtilRequest` in src/mcp/tools/utils.ts. */
module UtilTools {
  import opened Json
  import opened Text
  import opened Requests
  import opened Guards
  import opened CrmPatterns

  /** Tool names in the order of `utilToolDefinitions`. */
  const ToolNames: seq<string> := [
    "bitrix_add_comment", "bitrix_get_timeline", "bitrix_add_timeline_comment", "bitrix_get_status_list",
    "bitrix_get_call_statistics", "bitrix_get_file", "bitrix_upload_file", "bitrix_validate_webhook",
    "bitrix_diagnose_permissions", "bitrix_check_crm_settings", "bitrix_get_crm_summary"]

  const EntityTypeStringMessage := "Parameter \"entityType\" must be a non-empty string"
  const EntityIdMessage := "Parameter \"entityId\" must be a positive number"
  const CommentMessage := "Parameter \"comment\" must be a non-empty string"
  const StatusEntityMessage := "Parameter \"entityId\" must be a non-empty string when provided"
  const CallFromMessage := "Parameter \"dateFrom\" must be a non-empty string"
  const CallToMessage := "Parameter \"dateTo\" must be a non-empty string"
  const BothDatesMessage := "Both \"dateFrom\" and \"dateTo\" are required"
  const FolderMessage := "Parameter \"folderId\" must be a positive number"
  const FileNameMessage := "Parameter \"fileName\" must be a non-empty string"
  const FileContentMessage := "Parameter \"fileContent\" must be a non-empty string"

  /** The four one-row list commands of `bitrix_get_crm_summary`. */
  const SummaryCommands: Obj := map[
    "deals" := JStr("crm.deal.list?start=0&limit=1"),
    "leads" := JStr("crm.lead.list?start=0&limit=1"),
    "contacts" := JStr("crm.contact.list?start=0&limit=1"),
    "companies" := JStr("crm.company.list?start=0&limit=1")]

  /** `{ ENTITY_ID, ENTITY_TYPE, COMMENT }` of the comment tools. */
  function CommentFields(entityId: JValue, entityType: string, comment: Option<string>): (f: Obj)
    ensures f.Keys == {"ENTITY_ID", "ENTITY_TYPE"} + (if comment.Some? then {"COMMENT"} else {})
    ensures f["ENTITY_ID"] == entityId && f["ENTITY_TYPE"] == JStr(entityType)
    ensures comment.Some? ==> f["COMMENT"] == JStr(comment.value)
  {
    Put(map["ENTITY_ID" := entityId, "ENTITY_TYPE" := JStr(entityType)], "COMMENT", StrOpt(comment))
  }

  /** `bitrix_add_comment`: entityType, entityId and comment are checked as
      values first, the entity-type membership only afterwards; a missing
      comment is not rejected. */
  function AddComment(args: Obj): (r: Built)
    ensures !Acceptable(args, "entityType") ==> r == Rejected(BadRequest(EntityTypeStringMessage))
    ensures Acceptable(args, "entityType") && !("entityId" in args && PositiveNumber(args["entityId"], AcceptInfinity))
            ==> r == Rejected(BadRequest(EntityIdMessage))
    ensures Acceptable(args, "entityType") && "entityId" in args && PositiveNumber(args["entityId"], AcceptInfinity)
            && !Acceptable(args, "comment")
            ==> r == Rejected(BadRequest(CommentMessage))
    ensures Acceptable(args, "entityType") && "entityId" in args && PositiveNumber(args["entityId"], AcceptInfinity)
            && Acceptable(args, "comment") && !r.Claimed?
            ==> r == Rejected(BadRequest(EntityTypeMessage))
    ensures r.Claimed? <==> && Acceptable(args, "entityType") && !Missing(Get(args, "entityType"))
                            && "entityId" in args && PositiveNumber(args["entityId"], AcceptInfinity)
                            && Acceptable(args, "comment")
                            && Lower(Trim(args["entityType"].s)) in EntityTypes
    ensures r.Claimed? ==> r.request == Request("crm.timeline.comment.add", map["fields" := JObj(CommentFields(
      args["entityId"], Upper(Trim(args["entityType"].s)), TrimmedArg(args, "comment")))])
  {
    var entityType :- StringArg(args, "entityType", EntityTypeStringMessage);
    var entityId :- PositiveArg(args, "entityId", EntityIdMessage);
    var comment :- StringArg(args, "comment", CommentMessage);
    var normalized :- ValidateEntityType(entityType);
    Claimed(Request("crm.timeline.comment.add", map["fields" := JObj(CommentFields(entityId, normalized, comment))]))
  }

  /** `bitrix_add_timeline_comment`: `bitrix_add_comment`'s fields plus
      `AUTHOR_ID` exactly when `authorId` is of number type. */
  function AddTimelineComment(args: Obj): (r: Built)
    ensures r.Claimed? <==> AddComment(args).Claimed?
    ensures !r.Claimed? ==> r == AddComment(args)
    ensures r.Claimed? ==> r.request == Request("crm.timeline.comment.add", map["fields" := JObj(
      Put(AddComment(args).request.payload["fields"].fields, "AUTHOR_ID", NumberOrUndefined(Get(args, "authorId"))))])
  {
    var entityType :- StringArg(args, "entityType", EntityTypeStringMessage);
    var entityId :- PositiveArg(args, "entityId", EntityIdMessage);
    var comment :- StringArg(args, "comment", CommentMessage);
    var authorId := NumberOrUndefined(Get(args, "authorId"));
    var normalized :- ValidateEntityType(entityType);
    Claimed(Request("crm.timeline.comment.add", map["fields" := JObj(
      Put(CommentFields(entityId, normalized, comment), "AUTHOR_ID", authorId))]))
  }

  /** `bitrix_upload_file`: the content always goes out named `file.txt`,
      whatever `fileName` says; the name goes only into `data.NAME`. A
      missing content serialises as `null` inside the array. */
  function UploadFile(args: Obj): (r: Built)
    ensures r.Claimed? <==> && "folderId" in args && PositiveNumber(args["folderId"], AcceptInfinity)
                            && Acceptable(args, "fileName") && Acceptable(args, "fileContent")
    ensures !("folderId" in args && PositiveNumber(args["folderId"], AcceptInfinity)) ==> r == Rejected(BadRequest(FolderMessage))
    ensures "folderId" in args && PositiveNumber(args["folderId"], AcceptInfinity) && !Acceptable(args, "fileName")
            ==> r == Rejected(BadRequest(FileNameMessage))
    ensures "folderId" in args && PositiveNumber(args["folderId"], AcceptInfinity) && Acceptable(args, "fileName")
            && !Acceptable(args, "fileContent")
            ==> r == Rejected(BadRequest(FileContentMessage))
    ensures r.Claimed? ==> r.request.restMethod == "disk.folder.uploadfile"
                           && r.request.payload.Keys == {"id", "data", "fileContent"}
    ensures r.Claimed? ==> r.request.payload["id"] == args["folderId"]
    ensures r.Claimed? ==> r.request.payload["data"] == JObj(Put(map[], "NAME", StrOpt(TrimmedArg(args, "fileName"))))
    ensures r.Claimed? && !Missing(Get(args, "fileContent")) ==>
      r.request.payload["fileContent"] == JArr([JStr("file.txt"), JStr(Trim(args["fileContent"].s))])
  {
    var folderId :- PositiveArg(args, "folderId", FolderMessage);
    var fileName :- StringArg(args, "fileName", FileNameMessage);
    var fileContent :- StringArg(args, "fileContent", FileContentMessage);
    var content := if fileContent.Some? then JStr(fileContent.value) else JNull;
    Claimed(Request("disk.folder.uploadfile", map[
      "id" := folderId,
      "data" := JObj(Put(map[], "NAME", StrOpt(fileName))),
      "fileContent" := JArr([JStr("file.txt"), content])]))
  }

  /** `buildUtilRequest(toolName, args)` */
  function BuildUtilRequest(name: string, args: Obj): (r: Built)
    ensures r.NotMine? <==> name !in ToolNames
  {
    if name == "bitrix_add_comment" then
      AddComment(args)
    else if name == "bitrix_get_timeline" then
      var entityType :- StringArg(args, "entityType", EntityTypeStringMessage);
      var entityId :- PositiveArg(args, "entityId", EntityIdMessage);
      var limit := GetOptionalPositiveNumber(Get(args, "limit"), 50.0);
      var normalized :- ValidateEntityType(entityType);
      Claimed(Request("crm.timeline.comment.list", map[
        "filter" := JObj(map["ENTITY_ID" := entityId, "ENTITY_TYPE" := JStr(normalized)]),
        "start" := JNum(0.0), "limit" := limit]))
    else if name == "bitrix_add_timeline_comment" then
      AddTimelineComment(args)
    else if name == "bitrix_get_status_list" then
      var entityId :- StringArg(args, "entityId", StatusEntityMessage);
      Claimed(Request("crm.status.list", map["filter" := JObj(Put(map[], "ENTITY_ID", StrOpt(entityId)))]))
    else if name == "bitrix_get_call_statistics" then
      var dateFrom :- StringArg(args, "dateFrom", CallFromMessage);
      var dateTo :- StringArg(args, "dateTo", CallToMessage);
      if dateFrom.None? || dateTo.None? then Rejected(BadRequest(BothDatesMessage))
      else
        Claimed(Request("voximplant.statistic.get", map["FILTER" := JObj(map[
          ">=CALL_START_DATE" := JStr(dateFrom.value), "<=CALL_START_DATE" := JStr(dateTo.value)])]))
    else if name == "bitrix_get_file" then
      var id :- PositiveArg(args, "id", IdMessage);
      Claimed(Request("disk.file.get", map["id" := id]))
    else if name == "bitrix_upload_file" then
      UploadFile(args)
    else if name == "bitrix_validate_webhook" then
      Claimed(Request("user.current", map[]))
    else if name == "bitrix_diagnose_permissions" then
      Claimed(Request("scope", map[]))
    else if name == "bitrix_check_crm_settings" then
      Claimed(Request("crm.settings.mode.get", map[]))
    else if name == "bitrix_get_crm_summary" then
      Claimed(Request("batch", map["halt" := JNum(0.0), "cmd" := JObj(SummaryCommands)]))
    else
      NotMine
  }

  /** `bitrix_add_comment` sends the entity type as one of the four
      upper-case names, whatever its case in the call. */
  lemma CommentEntityTypeUpper(args: Obj)
    ensures var r := AddComment(args);
      r.Claimed? ==> r.request.payload["fields"].fields["ENTITY_TYPE"] in [JStr("DEAL"), JStr("CONTACT"), JStr("COMPANY"), JStr("LEAD")]
  {
    var r := AddComment(args);
    if r.Claimed? {
      var t := Trim(args["entityType"].s);
      ValidateEntityTypeCanonical(Some(t));
      assert ValidateEntityType(Some(t)).Pass?;
      assert r.request.payload["fields"].fields["ENTITY_TYPE"] == JStr(Upper(t));
    }
  }

  /** A bad `entityId` is reported before an unknown entity type. */
  lemma EntityIdCheckedFirst(args: Obj)
    requires "entityType" in args && NonBlank(args["entityType"])
    requires !("entityId" in args && PositiveNumber(args["entityId"], AcceptInfinity))
    ensures BuildUtilRequest("bitrix_add_comment", args) == Rejected(BadRequest(EntityIdMessage))
    ensures BuildUtilRequest("bitrix_get_timeline", args) == Rejected(BadRequest(EntityIdMessage))
  {
  }

  /** `bitrix_get_status_list` always sends a `filter`, holding `ENTITY_ID`
      only when one is given. */
  lemma StatusListFilter(args: Obj)
    requires Acceptable(args, "entityId")
    ensures var r := BuildUtilRequest("bitrix_get_status_list", args);
      && r.Claimed? && r.request.payload.Keys == {"filter"}
      && (Missing(Get(args, "entityId")) ==> r.request.payload["filter"] == JObj(map[]))
      && (!Missing(Get(args, "entityId")) ==> r.request.payload["filter"] == JObj(map["ENTITY_ID" := JStr(Trim(args["entityId"].s))]))
  {
  }

  /** `bitrix_get_call_statistics` needs both dates and sends them under
      `FILTER`. */
  lemma CallStatisticsDates(args: Obj)
    requires Acceptable(args, "dateFrom") && Acceptable(args, "dateTo")
    ensures var r := BuildUtilRequest("bitrix_get_call_statistics", args);
      && (r.Claimed? <==> !Missing(Get(args, "dateFrom")) && !Missing(Get(args, "dateTo")))
      && (!r.Claimed? ==> r == Rejected(BadRequest(BothDatesMessage)))
      && (r.Claimed? ==> r.request == Request("voximplant.statistic.get", map["FILTER" := JObj(map[
            ">=CALL_START_DATE" := JStr(Trim(args["dateFrom"].s)), "<=CALL_START_DATE" := JStr(Trim(args["dateTo"].s))])]))
  {
  }
}
