/** Deal tools of the serverless handlers: `buildDealRequest` in
    api/mcp/tools/deals.js. Its inline `ensurePositiveNumber` rejects
    `Infinity`; its inline `ensureNumber` does not. */
module ApiDealTools {
  import opened Json
  import opened Requests
  import opened Guards
  import opened ApiPatterns

  /** Tool names in the order of `dealTools`. */
  const ToolNames: seq<string> := [
    "bitrix_deal_list", "bitrix_deal_get", "bitrix_deal_add", "bitrix_deal_update",
    "bitrix_deal_delete", "bitrix_deal_fields", "bitrix_deal_category_list",
    "bitrix_deal_stage_list", "bitrix_deal_userfield_list", "bitrix_deal_userfield_add"]

  const TitleRequired := "fields.TITLE is required"
  const UserFieldRequired := "fields.FIELD_NAME and fields.USER_TYPE_ID are required"
  const CategoryMessage := "categoryId must be a number"

  /** `bitrix_deal_stage_list`: `ensureNumber(categoryId) ?? 0`, so a given
      number is kept even when it is zero or negative, and only a missing
      one becomes 0. */
  function StageList(args: Obj): (r: Built)
    ensures r.Claimed? <==> NumberOrMissing(args, "categoryId", AcceptInfinity)
    ensures !r.Claimed? ==> r == Rejected(BadRequest(CategoryMessage))
    ensures r.Claimed? && Missing(Get(args, "categoryId"))
            ==> r.request == Request("crm.dealcategory.stage.list", map["id" := JNum(0.0)])
    ensures r.Claimed? && !Missing(Get(args, "categoryId"))
            ==> r.request == Request("crm.dealcategory.stage.list", map["id" := args["categoryId"]])
  {
    var categoryId :- EnsureNumber(Get(args, "categoryId"), CategoryMessage, AcceptInfinity);
    Claimed(Request("crm.dealcategory.stage.list", map["id" := categoryId.GetOr(JNum(0.0))]))
  }

  /** `buildDealRequest(toolName, args)` */
  function BuildDealRequest(name: string, args: Obj): (r: Built)
    ensures r.NotMine? <==> name !in ToolNames
  {
    match name
    case "bitrix_deal_list" => ListRequest("crm.deal.list", args, AcceptInfinity)
    case "bitrix_deal_get" => ById("crm.deal.get", args, "id", "id", IdMessage, RejectInfinity)
    case "bitrix_deal_add" => AddWithRequired("crm.deal.add", args, ["TITLE"], TitleRequired)
    case "bitrix_deal_update" => UpdateWithFields("crm.deal.update", args, "id", IdMessage, RejectInfinity)
    case "bitrix_deal_delete" => ById("crm.deal.delete", args, "id", "id", IdMessage, RejectInfinity)
    case "bitrix_deal_fields" => Claimed(Request("crm.deal.fields", map[]))
    case "bitrix_deal_category_list" => Claimed(Request("crm.dealcategory.list", map[]))
    case "bitrix_deal_stage_list" => StageList(args)
    case "bitrix_deal_userfield_list" => Claimed(Request("crm.deal.userfield.list", map[]))
    case "bitrix_deal_userfield_add" =>
      AddWithRequired("crm.deal.userfield.add", args, ["FIELD_NAME", "USER_TYPE_ID"], UserFieldRequired)
    case _ => NotMine
  }

  /** `bitrix_deal_list` with no arguments asks for everything from the
      start; the id tools need a finite positive id. */
  lemma DealListDefaultsAndIds(args: Obj)
    ensures BuildDealRequest("bitrix_deal_list", map[]) == Claimed(Request("crm.deal.list", map[
      "filter" := JObj(map[]), "select" := JArr([JStr("*")]), "order" := JObj(map[]), "start" := JNum(0.0)]))
    ensures BuildDealRequest("bitrix_deal_get", map["id" := JInf(false)]) == Rejected(BadRequest(IdMessage))
    ensures var r := BuildDealRequest("bitrix_deal_delete", args);
      r.Claimed? <==> "id" in args && args["id"].JNum? && args["id"].n > 0.0
  {
  }

  /** `bitrix_deal_add` needs a truthy `fields.TITLE` and
      `bitrix_deal_userfield_add` truthy `FIELD_NAME` and `USER_TYPE_ID`;
      `fields` goes out unchanged. */
  lemma DealAddRequirements(args: Obj)
    ensures var r := BuildDealRequest("bitrix_deal_add", args);
      && (r.Claimed? <==> "fields" in args && args["fields"].JObj?
                          && "TITLE" in args["fields"].fields && Truthy(args["fields"].fields["TITLE"]))
      && (r.Claimed? ==> r.request.payload == map["fields" := args["fields"]])
    ensures var r := BuildDealRequest("bitrix_deal_userfield_add", args);
      r.Claimed? <==> && "fields" in args && args["fields"].JObj?
                      && "FIELD_NAME" in args["fields"].fields && Truthy(args["fields"].fields["FIELD_NAME"])
                      && "USER_TYPE_ID" in args["fields"].fields && Truthy(args["fields"].fields["USER_TYPE_ID"])
  {
    if "fields" in args && args["fields"].JObj? {
      var f := args["fields"].fields;
      assert HasTruthy(f, ["TITLE"]) <==> "TITLE" in f && Truthy(f["TITLE"]) by {
        assert "TITLE" in ["TITLE"];
      }
      assert HasTruthy(f, ["FIELD_NAME", "USER_TYPE_ID"])
        <==> "FIELD_NAME" in f && Truthy(f["FIELD_NAME"]) && "USER_TYPE_ID" in f && Truthy(f["USER_TYPE_ID"]) by {
        assert "FIELD_NAME" in ["FIELD_NAME", "USER_TYPE_ID"];
        assert "USER_TYPE_ID" in ["FIELD_NAME", "USER_TYPE_ID"];
      }
    }
  }
}
