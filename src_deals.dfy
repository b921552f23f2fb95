/** Deal tools of the TypeScript server: `buildDealRequest` in
    src/mcp/tools/deals.ts. Guards come from helpers.ts, whose
    `ensurePositiveNumber` accepts `Infinity`. */
module DealTools {
  import opened Json
  import opened Requests
  import opened Guards
  import opened CrmPatterns

  /** Tool names in the order of `dealToolDefinitions`. */
  const ToolNames: seq<string> := [
    "bitrix_get_deal", "bitrix_create_deal", "bitrix_update_deal", "bitrix_search_deals",
    "bitrix_list_deals", "bitrix_get_deal_categories", "bitrix_get_deal_stages",
    "bitrix_filter_deals_by_pipeline", "bitrix_filter_deals_by_budget",
    "bitrix_filter_deals_by_status", "bitrix_get_latest_deals", "bitrix_get_deal_fields"]

  const CategoryMessage := "Parameter \"categoryId\" must be a positive number"
  const BudgetMessage := "At least one of \"minBudget\" or \"maxBudget\" must be provided"
  const StageMessage := "Parameter \"stageId\" must be a non-empty string"

  /** The filter of `bitrix_filter_deals_by_budget`: one key per bound given. */
  function BudgetFilter(minBudget: Option<JValue>, maxBudget: Option<JValue>): (r: Obj)
    ensures r.Keys <= {">=OPPORTUNITY", "<=OPPORTUNITY"}
    ensures ">=OPPORTUNITY" in r <==> minBudget.Some?
    ensures "<=OPPORTUNITY" in r <==> maxBudget.Some?
    ensures minBudget.Some? ==> r[">=OPPORTUNITY"] == minBudget.value
    ensures maxBudget.Some? ==> r["<=OPPORTUNITY"] == maxBudget.value
  {
    Put(Put(map[], ">=OPPORTUNITY", minBudget), "<=OPPORTUNITY", maxBudget)
  }

  /** `buildDealRequest(toolName, args)` */
  function BuildDealRequest(name: string, args: Obj): (r: Built)
    ensures r.NotMine? <==> name !in ToolNames
  {
    if name == "bitrix_get_deal" then
      GetById("crm.deal.get", args)
    else if name == "bitrix_create_deal" then
      CreateTitled("crm.deal.add", args)
    else if name == "bitrix_update_deal" then
      UpdateById("crm.deal.update", args)
    else if name == "bitrix_search_deals" then
      SearchByFilter("crm.deal.list", args)
    else if name == "bitrix_list_deals" then
      ListRequest("crm.deal.list", args)
    else if name == "bitrix_get_deal_categories" then
      Claimed(Request("crm.dealcategory.list", map[]))
    else if name == "bitrix_get_deal_stages" then
      var categoryId := NumberOrUndefined(Get(args, "categoryId")).GetOr(JNum(0.0));
      Claimed(Request("crm.dealcategory.stage.list", map["id" := categoryId]))
    else if name == "bitrix_filter_deals_by_pipeline" then
      var categoryId :- EnsurePositiveNumber(Get(args, "categoryId"), CategoryMessage, AcceptInfinity);
      var limit := GetOptionalPositiveNumber(Get(args, "limit"), 50.0);
      Claimed(Request("crm.deal.list", map["filter" := JObj(map["CATEGORY_ID" := categoryId]), "start" := JNum(0.0), "limit" := limit]))
    else if name == "bitrix_filter_deals_by_budget" then
      var minBudget := NumberOrUndefined(Get(args, "minBudget"));
      var maxBudget := NumberOrUndefined(Get(args, "maxBudget"));
      if minBudget.None? && maxBudget.None? then Rejected(BadRequest(BudgetMessage))
      else
        var limit := GetOptionalPositiveNumber(Get(args, "limit"), 50.0);
        Claimed(Request("crm.deal.list", map["filter" := JObj(BudgetFilter(minBudget, maxBudget)), "start" := JNum(0.0), "limit" := limit]))
    else if name == "bitrix_filter_deals_by_status" then
      var stageId :- EnsureString(Get(args, "stageId"), StageMessage);
      var limit := GetOptionalPositiveNumber(Get(args, "limit"), 50.0);
      Claimed(Request("crm.deal.list", map["filter" := JObj(Put(map[], "STAGE_ID", StrOpt(stageId))), "start" := JNum(0.0), "limit" := limit]))
    else if name == "bitrix_get_latest_deals" then
      Latest("crm.deal.list", args)
    else if name == "bitrix_get_deal_fields" then
      Claimed(Request("crm.deal.fields", map[]))
    else
      NotMine
  }

  /** `bitrix_create_deal`: an absent title is not an error, and a `TITLE`
      inside `fields` wins over the `title` argument. */
  lemma CreateDealTitleOverride(args: Obj, fields: Obj)
    requires Get(args, "fields") == Some(JObj(fields)) && "TITLE" in fields
    requires Missing(Get(args, "title")) || NonBlank(args["title"])
    ensures var r := BuildDealRequest("bitrix_create_deal", args);
      && r.Claimed? && r.request.restMethod == "crm.deal.add"
      && r.request.payload == map["fields" := JObj(fields)]
  {
    assert BuildDealRequest("bitrix_create_deal", args) == CreateTitled("crm.deal.add", args);
    var title := if Missing(Get(args, "title")) then None else Some(Text.Trim(args["title"].s));
    var merged := MergeTitle(title, Some(fields));
    assert merged.Keys == fields.Keys;
    assert merged == fields;
  }

  /** `bitrix_filter_deals_by_budget` fails exactly when neither bound is of
      number type; otherwise the filter has one key per bound given. */
  lemma BudgetFilterBounds(args: Obj)
    ensures var r := BuildDealRequest("bitrix_filter_deals_by_budget", args);
      var hasMin := "minBudget" in args && IsNumber(args["minBudget"]);
      var hasMax := "maxBudget" in args && IsNumber(args["maxBudget"]);
      && (r.Rejected? <==> !hasMin && !hasMax)
      && (r.Rejected? ==> r.failure == BadRequest(BudgetMessage))
      && (r.Claimed? ==>
            && r.request.payload["filter"].JObj?
            && var f := r.request.payload["filter"].fields;
            && (">=OPPORTUNITY" in f <==> hasMin) && ("<=OPPORTUNITY" in f <==> hasMax)
            && (hasMin ==> f[">=OPPORTUNITY"] == args["minBudget"])
            && (hasMax ==> f["<=OPPORTUNITY"] == args["maxBudget"]))
  {
  }

  /** `bitrix_get_deal_stages` uses `categoryId` when it is of number type,
      else 0; `bitrix_filter_deals_by_pipeline` needs a positive one. */
  lemma StagesAndPipelineCategory(args: Obj)
    ensures var r := BuildDealRequest("bitrix_get_deal_stages", args);
      r.Claimed? && r.request.payload == map["id" := if "categoryId" in args && IsNumber(args["categoryId"]) then args["categoryId"] else JNum(0.0)]
    ensures var r := BuildDealRequest("bitrix_filter_deals_by_pipeline", args);
      && (r.Claimed? <==> "categoryId" in args && PositiveNumber(args["categoryId"], AcceptInfinity))
      && (r.Claimed? ==> r.request.payload["filter"] == JObj(map["CATEGORY_ID" := args["categoryId"]]))
      && (!r.Claimed? ==> r == Rejected(BadRequest(CategoryMessage)))
  {
  }

  /** `bitrix_filter_deals_by_status`: a missing stage id is not rejected and
      leaves an empty filter; a given one is trimmed into `STAGE_ID`. */
  lemma StatusFilter(args: Obj)
    ensures var r := BuildDealRequest("bitrix_filter_deals_by_status", args);
      && (r.Rejected? <==> !Missing(Get(args, "stageId")) && !NonBlank(args["stageId"]))
      && (r.Rejected? ==> r.failure == BadRequest(StageMessage))
      && (r.Claimed? && Missing(Get(args, "stageId")) ==> r.request.payload["filter"] == JObj(map[]))
      && (r.Claimed? && !Missing(Get(args, "stageId")) ==>
            r.request.payload["filter"] == JObj(map["STAGE_ID" := JStr(Text.Trim(args["stageId"].s))]))
  {
  }
}
