/** Lead tools of the TypeScript server: `buildLeadRequest` in
    src/mcp/tools/leads.ts. */
module LeadTools {
  import opened Json
  import opened Text
  import opened Requests
  import opened Guards
  import opened CrmPatterns

  /** Tool names in the order of `leadToolDefinitions`. */
  const ToolNames: seq<string> := [
    "bitrix_create_lead", "bitrix_get_lead", "bitrix_update_lead", "bitrix_list_leads",
    "bitrix_search_leads", "bitrix_get_lead_statuses", "bitrix_get_latest_leads",
    "bitrix_get_leads_from_date_range", "bitrix_get_lead_fields"]

  const DateFromMessage := "Parameter \"dateFrom\" must be a valid ISO date string"
  const DateToMessage := "Parameter \"dateTo\" must be a valid ISO date string"
  const BothDatesMessage := "Both \"dateFrom\" and \"dateTo\" are required"

  /** `buildLeadRequest(toolName, args)` */
  function BuildLeadRequest(name: string, args: Obj): (r: Built)
    ensures r.NotMine? <==> name !in ToolNames
  {
    if name == "bitrix_create_lead" then
      CreateTitled("crm.lead.add", args)
    else if name == "bitrix_get_lead" then
      GetById("crm.lead.get", args)
    else if name == "bitrix_update_lead" then
      UpdateById("crm.lead.update", args)
    else if name == "bitrix_list_leads" then
      ListRequest("crm.lead.list", args)
    else if name == "bitrix_search_leads" then
      SearchByFilter("crm.lead.list", args)
    else if name == "bitrix_get_lead_statuses" then
      Claimed(Request("crm.status.list", map["filter" := JObj(map["ENTITY_ID" := JStr("STATUS")])]))
    else if name == "bitrix_get_latest_leads" then
      Latest("crm.lead.list", args)
    else if name == "bitrix_get_leads_from_date_range" then
      var dateFrom :- EnsureIsoDate(Get(args, "dateFrom"), DateFromMessage);
      var dateTo :- EnsureIsoDate(Get(args, "dateTo"), DateToMessage);
      if dateFrom.None? || dateTo.None? then Rejected(BadRequest(BothDatesMessage))
      else
        var limit := GetOptionalPositiveNumber(Get(args, "limit"), 50.0);
        Claimed(Request("crm.lead.list", map[
          "filter" := JObj(map[">=DATE_CREATE" := JStr(dateFrom.value), "<=DATE_CREATE" := JStr(dateTo.value)]),
          "order" := JObj(map["DATE_CREATE" := JStr("DESC")]),
          "start" := JNum(0.0),
          "limit" := limit]))
    else if name == "bitrix_get_lead_fields" then
      Claimed(Request("crm.lead.fields", map[]))
    else
      NotMine
  }

  /** An argument that `ensureISODate` accepts as a present date. */
  predicate IsoArg(args: Obj, key: string) {
    key in args && args[key].JStr? && IsIsoShaped(args[key].s)
  }

  /** `bitrix_get_leads_from_date_range`: formats are checked first (from,
      then to), the presence of both only afterwards; on success both dates
      bound `DATE_CREATE`, newest first. */
  lemma DateRangeChecks(args: Obj)
    ensures var r := BuildLeadRequest("bitrix_get_leads_from_date_range", args);
      && (r.Claimed? <==> IsoArg(args, "dateFrom") && IsoArg(args, "dateTo"))
      && (!Missing(Get(args, "dateFrom")) && !IsoArg(args, "dateFrom") ==>
            r.Rejected? && r.failure.BadRequest? && r.failure.message[..|DateFromMessage|] == DateFromMessage)
      && (Missing(Get(args, "dateFrom")) && !Missing(Get(args, "dateTo")) && !IsoArg(args, "dateTo") ==>
            r.Rejected? && r.failure.BadRequest? && r.failure.message[..|DateToMessage|] == DateToMessage)
      && (Missing(Get(args, "dateFrom")) && (Missing(Get(args, "dateTo")) || IsoArg(args, "dateTo")) ==>
            r == Rejected(BadRequest(BothDatesMessage)))
      && (IsoArg(args, "dateFrom") && !Missing(Get(args, "dateTo")) && !IsoArg(args, "dateTo") ==>
            r.Rejected? && r.failure.BadRequest? && r.failure.message[..|DateToMessage|] == DateToMessage)
      && (IsoArg(args, "dateFrom") && Missing(Get(args, "dateTo")) ==>
            r == Rejected(BadRequest(BothDatesMessage)))
      && (r.Claimed? ==>
            && r.request.payload["filter"] == JObj(map[">=DATE_CREATE" := args["dateFrom"], "<=DATE_CREATE" := args["dateTo"]])
            && r.request.payload["order"] == JObj(map["DATE_CREATE" := JStr("DESC")])
            && r.request.payload["start"] == JNum(0.0)
            && r.request.payload["limit"] == GetOptionalPositiveNumber(Get(args, "limit"), 50.0))
  {
  }

  /** `bitrix_get_lead_statuses` is constant. */
  lemma LeadStatusesConstant(args: Obj)
    ensures BuildLeadRequest("bitrix_get_lead_statuses", args)
      == Claimed(Request("crm.status.list", map["filter" := JObj(map["ENTITY_ID" := JStr("STATUS")])]))
  {
  }
}
