/** Smart-process item tools of the TypeScript server: `buildItemRequest`
    in src/mcp/tools/items.ts. Its guards come from src/mcp/validation.ts,
    whose number guards reject `Infinity`. */
module ItemTools {
  import opened Json
  import opened Requests
  import opened Guards

  /** Tool names in the order of `itemTools`. */
  const ToolNames: seq<string> := [
    "bitrix_item_list", "bitrix_item_get", "bitrix_item_add", "bitrix_item_update",
    "bitrix_item_delete", "bitrix_item_fields", "bitrix_item_type_list", "bitrix_item_type_get"]

  const EntityTypeIdMessage := "entityTypeId must be a positive number"
  const IdMessage := "id must be a positive number"

  /** A finite number greater than zero, as validation.ts demands. */
  predicate PositiveFinite(args: Obj, key: string) {
    key in args && PositiveNumber(args[key], RejectInfinity)
  }

  /** `bitrix_item_list`: filter `{}`, select `['*']`, order `{}` and start 0
      by default; a given value of the right kind is sent unchanged (an empty
      `select` stays empty). */
  function ItemList(args: Obj): (r: Built)
    ensures !PositiveFinite(args, "entityTypeId") ==> r == Rejected(BadRequest(EntityTypeIdMessage))
    ensures r.Claimed? <==> && PositiveFinite(args, "entityTypeId")
                            && (Missing(Get(args, "filter")) || args["filter"].JObj?)
                            && (Missing(Get(args, "select")) || args["select"].JArr?)
                            && (Missing(Get(args, "order")) || args["order"].JObj?)
                            && (Missing(Get(args, "start")) || AdmittedNumber(args["start"], RejectInfinity))
    ensures r.Claimed? ==> r.request == Request("crm.item.list", map[
      "entityTypeId" := args["entityTypeId"],
      "filter" := if Missing(Get(args, "filter")) then JObj(map[]) else args["filter"],
      "select" := if Missing(Get(args, "select")) then JArr([JStr("*")]) else args["select"],
      "order" := if Missing(Get(args, "order")) then JObj(map[]) else args["order"],
      "start" := if Missing(Get(args, "start")) then JNum(0.0) else args["start"]])
  {
    var entityTypeId :- EnsurePositiveNumber(Get(args, "entityTypeId"), EntityTypeIdMessage, RejectInfinity);
    var filter :- EnsureObject(Get(args, "filter"), "filter must be an object");
    var select :- EnsureArray(Get(args, "select"), "select must be an array");
    var order :- EnsureObject(Get(args, "order"), "order must be an object");
    var start :- EnsureNumber(Get(args, "start"), "start must be a number", RejectInfinity);
    Claimed(Request("crm.item.list", map[
      "entityTypeId" := entityTypeId,
      "filter" := JObj(filter.GetOr(map[])),
      "select" := JArr(select.GetOr([JStr("*")])),
      "order" := JObj(order.GetOr(map[])),
      "start" := Or(start, JNum(0.0))]))
  }

  /** `buildItemRequest(toolName, args)` */
  function BuildItemRequest(name: string, args: Obj): (r: Built)
    ensures r.NotMine? <==> name !in ToolNames
  {
    match name
    case "bitrix_item_list" => ItemList(args)
    case "bitrix_item_get" =>
      var entityTypeId :- EnsurePositiveNumber(Get(args, "entityTypeId"), EntityTypeIdMessage, RejectInfinity);
      var id :- EnsurePositiveNumber(Get(args, "id"), IdMessage, RejectInfinity);
      Claimed(Request("crm.item.get", map["entityTypeId" := entityTypeId, "id" := id]))
    case "bitrix_item_add" =>
      var entityTypeId :- EnsurePositiveNumber(Get(args, "entityTypeId"), EntityTypeIdMessage, RejectInfinity);
      var fields :- EnsureObject(Get(args, "fields"), "fields must be an object");
      if fields.None? then Rejected(BadRequest("fields is required"))
      else Claimed(Request("crm.item.add", map["entityTypeId" := entityTypeId, "fields" := JObj(fields.value)]))
    case "bitrix_item_update" =>
      var entityTypeId :- EnsurePositiveNumber(Get(args, "entityTypeId"), EntityTypeIdMessage, RejectInfinity);
      var id :- EnsurePositiveNumber(Get(args, "id"), IdMessage, RejectInfinity);
      var fields :- EnsureObject(Get(args, "fields"), "fields must be an object");
      if EmptyOrMissing(fields) then Rejected(BadRequest("fields must include at least one field"))
      else Claimed(Request("crm.item.update", map["entityTypeId" := entityTypeId, "id" := id, "fields" := JObj(fields.value)]))
    case "bitrix_item_delete" =>
      var entityTypeId :- EnsurePositiveNumber(Get(args, "entityTypeId"), EntityTypeIdMessage, RejectInfinity);
      var id :- EnsurePositiveNumber(Get(args, "id"), IdMessage, RejectInfinity);
      Claimed(Request("crm.item.delete", map["entityTypeId" := entityTypeId, "id" := id]))
    case "bitrix_item_fields" =>
      var entityTypeId :- EnsurePositiveNumber(Get(args, "entityTypeId"), EntityTypeIdMessage, RejectInfinity);
      Claimed(Request("crm.item.fields", map["entityTypeId" := entityTypeId]))
    case "bitrix_item_type_list" => Claimed(Request("crm.type.list", map[]))
    case "bitrix_item_type_get" =>
      var id :- EnsurePositiveNumber(Get(args, "id"), IdMessage, RejectInfinity);
      Claimed(Request("crm.type.get", map["id" := id]))
    case _ => NotMine
  }

  /** Every item tool except the two type tools rejects a missing,
      non-positive or infinite `entityTypeId` first, and otherwise echoes it
      in the payload. */
  lemma EntityTypeIdEchoed(name: string, args: Obj)
    requires name in ToolNames && name != "bitrix_item_type_list" && name != "bitrix_item_type_get"
    ensures var r := BuildItemRequest(name, args);
      && (!PositiveFinite(args, "entityTypeId") ==> r == Rejected(BadRequest(EntityTypeIdMessage)))
      && (r.Claimed? ==> r.request.payload["entityTypeId"] == args["entityTypeId"])
  {
  }

  /** `bitrix_item_add` accepts an empty `fields` object, while
      `bitrix_item_update` rejects it. */
  lemma AddAllowsEmptyUpdateDoesNot(args: Obj)
    requires PositiveFinite(args, "entityTypeId") && PositiveFinite(args, "id")
    requires Get(args, "fields") == Some(JObj(map[]))
    ensures BuildItemRequest("bitrix_item_add", args)
      == Claimed(Request("crm.item.add", map["entityTypeId" := args["entityTypeId"], "fields" := JObj(map[])]))
    ensures BuildItemRequest("bitrix_item_update", args) == Rejected(BadRequest("fields must include at least one field"))
  {
  }

  /** `bitrix_item_add` sends `{ entityTypeId, fields }` exactly when
      `fields` is an object (an empty one included); a missing `fields` is
      "fields is required", any other value "fields must be an object". */
  lemma ItemAddNeedsFields(args: Obj)
    requires PositiveFinite(args, "entityTypeId")
    ensures var r := BuildItemRequest("bitrix_item_add", args);
      && (r.Claimed? <==> "fields" in args && args["fields"].JObj?)
      && (r.Claimed? ==> r.request == Request("crm.item.add",
            map["entityTypeId" := args["entityTypeId"], "fields" := args["fields"]]))
      && (Missing(Get(args, "fields")) ==> r == Rejected(BadRequest("fields is required")))
      && (!Missing(Get(args, "fields")) && !args["fields"].JObj? ==> r == Rejected(BadRequest("fields must be an object")))
  {
  }

  /** `bitrix_item_update` sends `{ entityTypeId, id, fields }` exactly when
      `fields` has a key; a missing `fields` is "fields must include at
      least one field", not "fields is required". */
  lemma ItemUpdateNeedsFields(args: Obj)
    requires PositiveFinite(args, "entityTypeId") && PositiveFinite(args, "id")
    ensures var r := BuildItemRequest("bitrix_item_update", args);
      && (r.Claimed? <==> "fields" in args && args["fields"].JObj? && |args["fields"].fields| > 0)
      && (r.Claimed? ==> r.request == Request("crm.item.update",
            map["entityTypeId" := args["entityTypeId"], "id" := args["id"], "fields" := args["fields"]]))
      && (Missing(Get(args, "fields")) ==> r == Rejected(BadRequest("fields must include at least one field")))
  {
  }

  /** The type tools need no `entityTypeId`. */
  lemma TypeTools(args: Obj)
    ensures BuildItemRequest("bitrix_item_type_list", args) == Claimed(Request("crm.type.list", map[]))
    ensures var r := BuildItemRequest("bitrix_item_type_get", args);
      && (r.Claimed? <==> PositiveFinite(args, "id"))
      && (r.Claimed? ==> r.request == Request("crm.type.get", map["id" := args["id"]]))
  {
  }
}
