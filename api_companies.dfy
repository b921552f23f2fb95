/** Company tools of the serverless handlers: `buildCompanyRequest` in
    api/mcp/tools/companies.js. Neither of its inline number guards checks
    finiteness. */
module ApiCompanyTools {
  import opened Json
  import opened Requests
  import opened Guards
  import opened ApiPatterns

  /** Tool names in the order of `companyTools`. */
  const ToolNames: seq<string> := [
    "bitrix_company_list", "bitrix_company_get", "bitrix_company_add", "bitrix_company_update",
    "bitrix_company_delete", "bitrix_company_fields"]

  const TitleRequired := "fields.TITLE is required"

  /** `buildCompanyRequest(toolName, args)` */
  function BuildCompanyRequest(name: string, args: Obj): (r: Built)
    ensures r.NotMine? <==> name !in ToolNames
  {
    match name
    case "bitrix_company_list" => ListRequest("crm.company.list", args, AcceptInfinity)
    case "bitrix_company_get" => ById("crm.company.get", args, "id", "id", IdMessage, AcceptInfinity)
    case "bitrix_company_add" => AddWithRequired("crm.company.add", args, ["TITLE"], TitleRequired)
    case "bitrix_company_update" => UpdateWithFields("crm.company.update", args, "id", IdMessage, AcceptInfinity)
    case "bitrix_company_delete" => ById("crm.company.delete", args, "id", "id", IdMessage, AcceptInfinity)
    case "bitrix_company_fields" => Claimed(Request("crm.company.fields", map[]))
    case _ => NotMine
  }

  /** `bitrix_company_add` needs a truthy `fields.TITLE`: an empty title
      string is refused like a missing one. */
  lemma CompanyAddTitle(args: Obj)
    ensures var r := BuildCompanyRequest("bitrix_company_add", args);
      && (r.Claimed? <==> "fields" in args && args["fields"].JObj?
                          && "TITLE" in args["fields"].fields && Truthy(args["fields"].fields["TITLE"]))
      && (!r.Claimed? && ObjectOrMissing(args, "fields") ==> r == Rejected(BadRequest(TitleRequired)))
  {
    if "fields" in args && args["fields"].JObj? {
      assert "TITLE" in ["TITLE"];
    }
  }
}
