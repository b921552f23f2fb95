/** Task tools of the serverless handlers: `buildTaskRequest` in
    api/mcp/tools/tasks.js. Neither of its inline number guards checks
    finiteness. Tasks are addressed by `taskId`, in the arguments and in the
    payload alike. */
module ApiTaskTools {
  import opened Json
  import opened Requests
  import opened Guards
  import opened ApiPatterns

  /** Tool names in the order of `taskTools`. */
  const ToolNames: seq<string> := [
    "bitrix_task_list", "bitrix_task_get", "bitrix_task_add", "bitrix_task_update", "bitrix_task_close"]

  const TaskIdMessage := "taskId must be a positive number"
  const TaskRequired := "fields.TITLE and fields.RESPONSIBLE_ID are required"

  /** `buildTaskRequest(toolName, args)` */
  function BuildTaskRequest(name: string, args: Obj): (r: Built)
    ensures r.NotMine? <==> name !in ToolNames
  {
    match name
    case "bitrix_task_list" => ListRequest("tasks.task.list", args, AcceptInfinity)
    case "bitrix_task_get" => ById("tasks.task.get", args, "taskId", "taskId", TaskIdMessage, AcceptInfinity)
    case "bitrix_task_add" => AddWithRequired("tasks.task.add", args, ["TITLE", "RESPONSIBLE_ID"], TaskRequired)
    case "bitrix_task_update" => UpdateWithFields("tasks.task.update", args, "taskId", TaskIdMessage, AcceptInfinity)
    case "bitrix_task_close" => ById("tasks.task.complete", args, "taskId", "taskId", TaskIdMessage, AcceptInfinity)
    case _ => NotMine
  }

  /** `bitrix_task_close` completes the task through `tasks.task.complete`
      with the same `{ taskId }` payload as `bitrix_task_get`; an `id`
      argument is not looked at. */
  lemma TaskCloseAndGet(args: Obj)
    ensures var close := BuildTaskRequest("bitrix_task_close", args);
      var get := BuildTaskRequest("bitrix_task_get", args);
      && (close.Claimed? <==> get.Claimed?)
      && (close.Claimed? ==> close.request.restMethod == "tasks.task.complete"
                             && close.request.payload == get.request.payload
                             && close.request.payload.Keys == {"taskId"})
    ensures BuildTaskRequest("bitrix_task_get", map["id" := JNum(5.0)]) == Rejected(BadRequest(TaskIdMessage))
  {
  }

  /** `bitrix_task_add` needs truthy `TITLE` and `RESPONSIBLE_ID`. */
  lemma TaskAddRequirements(args: Obj)
    requires "fields" in args && args["fields"].JObj?
    ensures var f := args["fields"].fields;
      (BuildTaskRequest("bitrix_task_add", args).Claimed? <==>
         "TITLE" in f && Truthy(f["TITLE"]) && "RESPONSIBLE_ID" in f && Truthy(f["RESPONSIBLE_ID"]))
  {
    var required := ["TITLE", "RESPONSIBLE_ID"];
    assert required[0] in required && required[1] in required;
  }
}
