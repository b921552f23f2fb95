/** Company tools of the TypeScript server: `buildCompanyRequest` in
    src/mcp/tools/companies.ts. */
module CompanyTools {
  import opened Json
  import opened Text
  import opened Requests
  import opened Guards
  import opened CrmPatterns

  /** Tool names in the order of `companyToolDefinitions`. */
  const ToolNames: seq<string> := [
    "bitrix_create_company", "bitrix_get_company", "bitrix_update_company", "bitrix_list_companies",
    "bitrix_search_companies", "bitrix_get_latest_companies", "bitrix_get_company_fields"]

  const QueryMessage := "Parameter \"query\" must be a non-empty string"

  /** `buildCompanyRequest(toolName, args)` */
  function BuildCompanyRequest(name: string, args: Obj): (r: Built)
    ensures r.NotMine? <==> name !in ToolNames
  {
    if name == "bitrix_create_company" then
      CreateTitled("crm.company.add", args)
    else if name == "bitrix_get_company" then
      GetById("crm.company.get", args)
    else if name == "bitrix_update_company" then
      UpdateById("crm.company.update", args)
    else if name == "bitrix_list_companies" then
      ListRequest("crm.company.list", args)
    else if name == "bitrix_search_companies" then
      var query :- EnsureString(Get(args, "query"), QueryMessage);
      var limit := GetOptionalPositiveNumber(Get(args, "limit"), 50.0);
      Claimed(Request("crm.company.list", map["filter" := JObj(Put(map[], "%TITLE", StrOpt(query))), "start" := JNum(0.0), "limit" := limit]))
    else if name == "bitrix_get_latest_companies" then
      Latest("crm.company.list", args)
    else if name == "bitrix_get_company_fields" then
      Claimed(Request("crm.company.fields", map[]))
    else
      NotMine
  }

  /** `bitrix_search_companies` filters on `%TITLE` with the trimmed query;
      a missing query is not rejected and leaves the filter empty. */
  lemma SearchCompaniesByTitle(args: Obj)
    ensures var r := BuildCompanyRequest("bitrix_search_companies", args);
      && (r.Rejected? <==> !Missing(Get(args, "query")) && !NonBlank(args["query"]))
      && (r.Rejected? ==> r.failure == BadRequest(QueryMessage))
      && (r.Claimed? && Missing(Get(args, "query")) ==> r.request.payload["filter"] == JObj(map[]))
      && (r.Claimed? && !Missing(Get(args, "query")) ==>
            r.request.payload["filter"] == JObj(map["%TITLE" := JStr(Trim(args["query"].s))]))
      && (r.Claimed? ==> r.request.restMethod == "crm.company.list" && r.request.payload["start"] == JNum(0.0))
  {
  }
}
