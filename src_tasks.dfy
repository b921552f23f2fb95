/** Task tools of the TypeScript server: `buildTaskRequest` in
    src/mcp/tools/tasks.ts. Tasks use the `tasks.*` and `task.*` REST
    families, whose payload keys differ from the CRM ones (`taskId`,
    `TASKID`). */
module TaskTools {
  import opened Json
  import opened Text
  import opened Requests
  import opened Guards
  import opened CrmPatterns

  /** Tool names in the order of `taskToolDefinitions`. */
  const ToolNames: seq<string> := [
    "bitrix_create_task", "bitrix_get_task", "bitrix_update_task", "bitrix_list_tasks",
    "bitrix_get_task_comments", "bitrix_add_task_comment", "bitrix_get_task_checklist"]

  const ResponsibleMessage := "Parameter \"responsibleId\" must be a positive number"
  const DescriptionMessage := "Parameter \"description\" must be a non-empty string when provided"
  const DeadlineMessage := "Parameter \"deadline\" must be a non-empty string when provided"
  const TaskIdMessage := "Parameter \"taskId\" must be a positive number"
  const CommentMessage := "Parameter \"comment\" must be a non-empty string"

  /** `{ TITLE: title, RESPONSIBLE_ID: responsibleId, ...extra }` */
  function TaskBase(title: Option<string>, responsibleId: JValue, extra: Obj): (f: Obj)
    ensures forall k :: k in f <==> k in extra || k == "RESPONSIBLE_ID" || (k == "TITLE" && title.Some?)
    ensures forall k :: k in extra ==> f[k] == extra[k]
    ensures "RESPONSIBLE_ID" !in extra ==> f["RESPONSIBLE_ID"] == responsibleId
    ensures title.Some? && "TITLE" !in extra ==> f["TITLE"] == JStr(title.value)
  {
    Put(map[], "TITLE", StrOpt(title))["RESPONSIBLE_ID" := responsibleId] + extra
  }

  /** The later conditional writes of `bitrix_create_task`: `DESCRIPTION`,
      `DEADLINE`, `PRIORITY`, `GROUP_ID` over whatever `m` holds. */
  function TaskOverrides(m: Obj, description: Option<string>, deadline: Option<string>,
                         priority: Option<JValue>, groupId: Option<JValue>): (f: Obj)
    ensures forall k :: k in f <==> || k in m || (k == "DESCRIPTION" && description.Some?)
                                    || (k == "DEADLINE" && deadline.Some?) || (k == "PRIORITY" && priority.Some?)
                                    || (k == "GROUP_ID" && groupId.Some?)
    ensures description.Some? ==> f["DESCRIPTION"] == JStr(description.value)
    ensures deadline.Some? ==> f["DEADLINE"] == JStr(deadline.value)
    ensures priority.Some? ==> f["PRIORITY"] == priority.value
    ensures groupId.Some? ==> f["GROUP_ID"] == groupId.value
    ensures forall k :: k in m && k != "DESCRIPTION" && k != "DEADLINE" && k != "PRIORITY" && k != "GROUP_ID" ==> f[k] == m[k]
  {
    Put(Put(Put(Put(m, "DESCRIPTION", StrOpt(description)), "DEADLINE", StrOpt(deadline)),
        "PRIORITY", priority), "GROUP_ID", groupId)
  }

  /** The `fields` of `bitrix_create_task`: `TITLE` and `RESPONSIBLE_ID`,
      then the extra `fields` over them, then `DESCRIPTION`, `DEADLINE`,
      `PRIORITY`, `GROUP_ID` over everything. */
  function TaskFields(title: Option<string>, responsibleId: JValue, extra: Obj, description: Option<string>,
                      deadline: Option<string>, priority: Option<JValue>, groupId: Option<JValue>): (f: Obj)
    ensures forall k :: k in f <==> || k in extra || k == "RESPONSIBLE_ID" || (k == "TITLE" && title.Some?)
                                    || (k == "DESCRIPTION" && description.Some?) || (k == "DEADLINE" && deadline.Some?)
                                    || (k == "PRIORITY" && priority.Some?) || (k == "GROUP_ID" && groupId.Some?)
    ensures forall k :: k in extra && k != "DESCRIPTION" && k != "DEADLINE" && k != "PRIORITY" && k != "GROUP_ID"
                        ==> f[k] == extra[k]
  {
    var base := TaskBase(title, responsibleId, extra);
    var f := TaskOverrides(base, description, deadline, priority, groupId);
    assert forall k :: k in extra && k != "DESCRIPTION" && k != "DEADLINE" && k != "PRIORITY" && k != "GROUP_ID"
                       ==> f[k] == base[k] == extra[k];
    f
  }

  /** `DESCRIPTION`, `DEADLINE`, `PRIORITY` and `GROUP_ID` arguments always
      win; `TITLE` and `RESPONSIBLE_ID` come from the arguments unless the
      extra `fields` hold them. */
  lemma TaskFieldsArguments(title: Option<string>, responsibleId: JValue, extra: Obj, description: Option<string>,
                            deadline: Option<string>, priority: Option<JValue>, groupId: Option<JValue>)
    ensures var f := TaskFields(title, responsibleId, extra, description, deadline, priority, groupId);
      && (description.Some? ==> f["DESCRIPTION"] == JStr(description.value))
      && (deadline.Some? ==> f["DEADLINE"] == JStr(deadline.value))
      && (priority.Some? ==> f["PRIORITY"] == priority.value)
      && (groupId.Some? ==> f["GROUP_ID"] == groupId.value)
      && ("RESPONSIBLE_ID" !in extra ==> f["RESPONSIBLE_ID"] == responsibleId)
      && (title.Some? && "TITLE" !in extra ==> f["TITLE"] == JStr(title.value))
  {
    var base := TaskBase(title, responsibleId, extra);
    var f := TaskOverrides(base, description, deadline, priority, groupId);
    assert "RESPONSIBLE_ID" in base && f["RESPONSIBLE_ID"] == base["RESPONSIBLE_ID"];
    if title.Some? {
      assert "TITLE" in base && f["TITLE"] == base["TITLE"];
    }
  }

  /** A later write wins: a `DESCRIPTION` argument beats a `DESCRIPTION`
      inside `fields`, which in turn beats the `title` argument for `TITLE`. */
  lemma TaskFieldsPrecedence(title: string, responsibleId: JValue, extra: Obj, description: string)
    requires "DESCRIPTION" in extra && "TITLE" in extra
    ensures var f := TaskFields(Some(title), responsibleId, extra, Some(description), None, None, None);
      f["DESCRIPTION"] == JStr(description) && f["TITLE"] == extra["TITLE"]
  {
  }

  /** `bitrix_create_task`: the guards run in the order title,
      responsibleId, description, deadline, fields; `priority` and `groupId`
      are kept only when of number type and never fail. */
  function CreateTask(args: Obj): (r: Built)
    ensures !Acceptable(args, "title") ==> r == Rejected(BadRequest(TitleMessage))
    ensures Acceptable(args, "title") && !("responsibleId" in args && PositiveNumber(args["responsibleId"], AcceptInfinity))
            ==> r == Rejected(BadRequest(ResponsibleMessage))
    ensures Acceptable(args, "title") && "responsibleId" in args && PositiveNumber(args["responsibleId"], AcceptInfinity)
            ==>
            && (!Acceptable(args, "description") ==> r == Rejected(BadRequest(DescriptionMessage)))
            && (Acceptable(args, "description") && !Acceptable(args, "deadline")
                ==> r == Rejected(BadRequest(DeadlineMessage)))
            && (Acceptable(args, "description") && Acceptable(args, "deadline") && !ObjectOrMissing(args, "fields")
                ==> r == Rejected(BadRequest(FieldsWhenProvided)))
    ensures r.Claimed? <==> && Acceptable(args, "title")
                            && "responsibleId" in args && PositiveNumber(args["responsibleId"], AcceptInfinity)
                            && Acceptable(args, "description") && Acceptable(args, "deadline")
                            && ObjectOrMissing(args, "fields")
    ensures r.Claimed? ==> r.request == Request("tasks.task.add", map["fields" := JObj(TaskFields(
      TrimmedArg(args, "title"), args["responsibleId"], ObjectOr(args, "fields"),
      TrimmedArg(args, "description"), TrimmedArg(args, "deadline"),
      NumberOrUndefined(Get(args, "priority")), NumberOrUndefined(Get(args, "groupId"))))])
  {
    var title :- StringArg(args, "title", TitleMessage);
    var responsibleId :- PositiveArg(args, "responsibleId", ResponsibleMessage);
    var description :- StringArg(args, "description", DescriptionMessage);
    var deadline :- StringArg(args, "deadline", DeadlineMessage);
    var priority := NumberOrUndefined(Get(args, "priority"));
    var groupId := NumberOrUndefined(Get(args, "groupId"));
    var extra :- EnsureObject(Get(args, "fields"), FieldsWhenProvided);
    Claimed(Request("tasks.task.add", map["fields" := JObj(TaskFields(title, responsibleId, extra.GetOr(map[]),
                                                                     description, deadline, priority, groupId))]))
  }

  /** `bitrix_list_tasks`: `start` and `limit` always; `filter` and `order`
      exactly when given as objects, even empty ones. */
  function ListTasks(args: Obj): (r: Built)
    ensures r.Claimed? <==> ObjectOrMissing(args, "filter") && ObjectOrMissing(args, "order")
    ensures !ObjectOrMissing(args, "filter") ==> r == Rejected(BadRequest(FilterMessage))
    ensures ObjectOrMissing(args, "filter") && !ObjectOrMissing(args, "order") ==> r == Rejected(BadRequest(OrderMessage))
    ensures r.Claimed? ==>
      && r.request.restMethod == "tasks.task.list"
      && var p := r.request.payload;
      && p.Keys == {"start", "limit"} + (if Missing(Get(args, "filter")) then {} else {"filter"})
                                      + (if Missing(Get(args, "order")) then {} else {"order"})
      && ("filter" in p ==> p["filter"] == args["filter"])
      && ("order" in p ==> p["order"] == args["order"])
      && p["start"] == GetOptionalPositiveNumber(Get(args, "start"), 0.0)
      && p["limit"] == GetOptionalPositiveNumber(Get(args, "limit"), 50.0)
  {
    var filter :- EnsureObject(Get(args, "filter"), FilterMessage);
    var order :- EnsureObject(Get(args, "order"), OrderMessage);
    var start := Or(Some(GetOptionalPositiveNumber(Get(args, "start"), 0.0)), JNum(0.0));
    var limit := GetOptionalPositiveNumber(Get(args, "limit"), 50.0);
    Claimed(Request("tasks.task.list", Put(Put(map["start" := start, "limit" := limit], "filter", ObjOpt(filter)), "order", ObjOpt(order))))
  }

  /** `buildTaskRequest(toolName, args)` */
  function BuildTaskRequest(name: string, args: Obj): (r: Built)
    ensures r.NotMine? <==> name !in ToolNames
  {
    if name == "bitrix_create_task" then
      CreateTask(args)
    else if name == "bitrix_get_task" then
      var id :- EnsurePositiveNumber(Get(args, "id"), IdMessage, AcceptInfinity);
      Claimed(Request("tasks.task.get", map["taskId" := id]))
    else if name == "bitrix_update_task" then
      var id :- EnsurePositiveNumber(Get(args, "id"), IdMessage, AcceptInfinity);
      var fields :- EnsureObject(Get(args, "fields"), FieldsMessage);
      if EmptyOrMissing(fields) then Rejected(BadRequest(AtLeastOneField))
      else Claimed(Request("tasks.task.update", map["taskId" := id, "fields" := JObj(fields.value)]))
    else if name == "bitrix_list_tasks" then
      ListTasks(args)
    else if name == "bitrix_get_task_comments" then
      var taskId :- EnsurePositiveNumber(Get(args, "taskId"), TaskIdMessage, AcceptInfinity);
      Claimed(Request("task.commentitem.getlist", map["TASKID" := taskId]))
    else if name == "bitrix_add_task_comment" then
      var taskId :- EnsurePositiveNumber(Get(args, "taskId"), TaskIdMessage, AcceptInfinity);
      var comment :- EnsureString(Get(args, "comment"), CommentMessage);
      Claimed(Request("task.commentitem.add", map["TASKID" := taskId, "FIELDS" := JObj(Put(map[], "POST_MESSAGE", StrOpt(comment)))]))
    else if name == "bitrix_get_task_checklist" then
      var taskId :- EnsurePositiveNumber(Get(args, "taskId"), TaskIdMessage, AcceptInfinity);
      Claimed(Request("task.checklistitem.getlist", map["TASKID" := taskId]))
    else
      NotMine
  }

  /** `bitrix_get_task` and `bitrix_update_task` read `id` but send it as
      `taskId`; update needs a non-empty `fields`. */
  lemma TaskIdKey(args: Obj)
    requires "id" in args && PositiveNumber(args["id"], AcceptInfinity)
    ensures BuildTaskRequest("bitrix_get_task", args) == Claimed(Request("tasks.task.get", map["taskId" := args["id"]]))
    ensures var r := BuildTaskRequest("bitrix_update_task", args);
      && (r.Claimed? <==> "fields" in args && args["fields"].JObj? && |args["fields"].fields| > 0)
      && (r.Claimed? ==> r.request == Request("tasks.task.update", map["taskId" := args["id"], "fields" := args["fields"]]))
  {
  }

  /** The comment and checklist tools need a positive `taskId`, sent as
      `TASKID`; a comment goes under `FIELDS.POST_MESSAGE`, trimmed. */
  lemma TaskCommentPayloads(args: Obj)
    ensures var ok := "taskId" in args && PositiveNumber(args["taskId"], AcceptInfinity);
      && (ok ==> BuildTaskRequest("bitrix_get_task_comments", args) == Claimed(Request("task.commentitem.getlist", map["TASKID" := args["taskId"]])))
      && (ok ==> BuildTaskRequest("bitrix_get_task_checklist", args) == Claimed(Request("task.checklistitem.getlist", map["TASKID" := args["taskId"]])))
      && (!ok ==> BuildTaskRequest("bitrix_get_task_comments", args) == Rejected(BadRequest(TaskIdMessage)))
      && (!ok ==> BuildTaskRequest("bitrix_get_task_checklist", args) == Rejected(BadRequest(TaskIdMessage)))
      && (!ok ==> BuildTaskRequest("bitrix_add_task_comment", args) == Rejected(BadRequest(TaskIdMessage)))
      && (ok && "comment" in args && NonBlank(args["comment"]) ==>
            BuildTaskRequest("bitrix_add_task_comment", args) == Claimed(Request("task.commentitem.add",
              map["TASKID" := args["taskId"], "FIELDS" := JObj(map["POST_MESSAGE" := JStr(Trim(args["comment"].s))])])))
  {
  }
}
