/** Activity tools of the serverless handlers: `buildActivityRequest` in
    api/mcp/tools/activities.js. Its inline `ensurePositiveNumber` accepts
    `Infinity`; its inline `ensureNumber` rejects it. */
module ApiActivityTools {
  import opened Json
  import opened Requests
  import opened Guards
  import opened ApiPatterns

  /** Tool names in the order of `activityTools`. */
  const ToolNames: seq<string> := [
    "bitrix_activity_list", "bitrix_activity_get", "bitrix_activity_add", "bitrix_activity_update",
    "bitrix_activity_delete", "bitrix_activity_fields"]

  const OwnerRequired := "fields.OWNER_TYPE_ID, fields.OWNER_ID and fields.TYPE_ID are required"

  /** `buildActivityRequest(toolName, args)` */
  function BuildActivityRequest(name: string, args: Obj): (r: Built)
    ensures r.NotMine? <==> name !in ToolNames
  {
    match name
    case "bitrix_activity_list" => ListRequest("crm.activity.list", args, RejectInfinity)
    case "bitrix_activity_get" => ById("crm.activity.get", args, "id", "id", IdMessage, AcceptInfinity)
    case "bitrix_activity_add" =>
      AddWithRequired("crm.activity.add", args, ["OWNER_TYPE_ID", "OWNER_ID", "TYPE_ID"], OwnerRequired)
    case "bitrix_activity_update" => UpdateWithFields("crm.activity.update", args, "id", IdMessage, AcceptInfinity)
    case "bitrix_activity_delete" => ById("crm.activity.delete", args, "id", "id", IdMessage, AcceptInfinity)
    case "bitrix_activity_fields" => Claimed(Request("crm.activity.fields", map[]))
    case _ => NotMine
  }

  /** `bitrix_activity_add` needs truthy `OWNER_TYPE_ID`, `OWNER_ID` and
      `TYPE_ID` in `fields`: an owner id of 0 is refused. */
  lemma ActivityAddOwner(args: Obj)
    requires "fields" in args && args["fields"].JObj?
    ensures var f := args["fields"].fields;
      var r := BuildActivityRequest("bitrix_activity_add", args);
      && (r.Claimed? <==> && "OWNER_TYPE_ID" in f && Truthy(f["OWNER_TYPE_ID"])
                          && "OWNER_ID" in f && Truthy(f["OWNER_ID"])
                          && "TYPE_ID" in f && Truthy(f["TYPE_ID"]))
      && (!r.Claimed? ==> r == Rejected(BadRequest(OwnerRequired)))
  {
    var required := ["OWNER_TYPE_ID", "OWNER_ID", "TYPE_ID"];
    assert required[0] in required && required[1] in required && required[2] in required;
  }
}
