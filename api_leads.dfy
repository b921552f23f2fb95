/** Lead tools of the serverless handlers: `buildLeadRequest` in
    api/mcp/tools/leads.js. Neither of its inline number guards checks
    finiteness, so both accept `Infinity`. */
module ApiLeadTools {
  import opened Json
  import opened Requests
  import opened Guards
  import opened ApiPatterns

  /** Tool names in the order of `leadTools`. */
  const ToolNames: seq<string> := [
    "bitrix_lead_list", "bitrix_lead_get", "bitrix_lead_add", "bitrix_lead_update",
    "bitrix_lead_delete", "bitrix_lead_fields", "bitrix_lead_convert", "bitrix_lead_userfield_list"]

  const TitleRequired := "fields.TITLE is required"

  /** An optional flag that `ensureBoolean` accepts. */
  predicate FlagOrMissing(args: Obj, key: string) {
    Missing(Get(args, key)) || args[key].JBool?
  }

  /** The flag as sent: `true` exactly when the argument is `true`. */
  predicate FlagSet(args: Obj, key: string) {
    key in args && args[key] == JBool(true)
  }

  /** `flag ? 'Y' : 'N'` */
  function YesNo(flag: bool): (r: JValue)
    ensures r.JStr? && (r.s == "Y" <==> flag) && (r.s == "N" <==> !flag)
  {
    if flag then JStr("Y") else JStr("N")
  }

  /** `bitrix_lead_convert`: a positive id, then three optional booleans in
      the order deal, contact, company, each `false` when missing, sent as
      `'Y'`/`'N'`. */
  function LeadConvert(args: Obj): (r: Built)
    ensures r.Claimed? <==> && "id" in args && PositiveNumber(args["id"], AcceptInfinity)
                            && FlagOrMissing(args, "createDeal") && FlagOrMissing(args, "createContact")
                            && FlagOrMissing(args, "createCompany")
    ensures !("id" in args && PositiveNumber(args["id"], AcceptInfinity)) ==> r == Rejected(BadRequest(IdMessage))
    ensures ("id" in args && PositiveNumber(args["id"], AcceptInfinity) && !FlagOrMissing(args, "createDeal"))
            ==> r == Rejected(BadRequest("createDeal must be a boolean"))
    ensures ("id" in args && PositiveNumber(args["id"], AcceptInfinity) && FlagOrMissing(args, "createDeal")
             && !FlagOrMissing(args, "createContact"))
            ==> r == Rejected(BadRequest("createContact must be a boolean"))
    ensures ("id" in args && PositiveNumber(args["id"], AcceptInfinity) && FlagOrMissing(args, "createDeal")
             && FlagOrMissing(args, "createContact") && !FlagOrMissing(args, "createCompany"))
            ==> r == Rejected(BadRequest("createCompany must be a boolean"))
    ensures r.Claimed? ==> r.request == Request("crm.lead.convert", map[
      "id" := args["id"],
      "params" := JObj(map[
        "CREATE_DEAL" := YesNo(FlagSet(args, "createDeal")),
        "CREATE_CONTACT" := YesNo(FlagSet(args, "createContact")),
        "CREATE_COMPANY" := YesNo(FlagSet(args, "createCompany"))])])
  {
    var id :- EnsurePositiveNumber(Get(args, "id"), IdMessage, AcceptInfinity);
    var createDeal :- EnsureBoolean(Get(args, "createDeal"), "createDeal must be a boolean");
    var createContact :- EnsureBoolean(Get(args, "createContact"), "createContact must be a boolean");
    var createCompany :- EnsureBoolean(Get(args, "createCompany"), "createCompany must be a boolean");
    Claimed(Request("crm.lead.convert", map[
      "id" := id,
      "params" := JObj(map[
        "CREATE_DEAL" := YesNo(createDeal.GetOr(false)),
        "CREATE_CONTACT" := YesNo(createContact.GetOr(false)),
        "CREATE_COMPANY" := YesNo(createCompany.GetOr(false))])]))
  }

  /** `buildLeadRequest(toolName, args)` */
  function BuildLeadRequest(name: string, args: Obj): (r: Built)
    ensures r.NotMine? <==> name !in ToolNames
  {
    match name
    case "bitrix_lead_list" => ListRequest("crm.lead.list", args, AcceptInfinity)
    case "bitrix_lead_get" => ById("crm.lead.get", args, "id", "id", IdMessage, AcceptInfinity)
    case "bitrix_lead_add" => AddWithRequired("crm.lead.add", args, ["TITLE"], TitleRequired)
    case "bitrix_lead_update" => UpdateWithFields("crm.lead.update", args, "id", IdMessage, AcceptInfinity)
    case "bitrix_lead_delete" => ById("crm.lead.delete", args, "id", "id", IdMessage, AcceptInfinity)
    case "bitrix_lead_fields" => Claimed(Request("crm.lead.fields", map[]))
    case "bitrix_lead_convert" => LeadConvert(args)
    case "bitrix_lead_userfield_list" => Claimed(Request("crm.lead.userfield.list", map[]))
    case _ => NotMine
  }

  /** With no flags given, `bitrix_lead_convert` creates nothing; a flag of
      any other type than boolean is an error, not a `false`. */
  lemma LeadConvertDefaults(id: real)
    requires id > 0.0
    ensures BuildLeadRequest("bitrix_lead_convert", map["id" := JNum(id)]) == Claimed(Request("crm.lead.convert", map[
      "id" := JNum(id),
      "params" := JObj(map["CREATE_DEAL" := JStr("N"), "CREATE_CONTACT" := JStr("N"), "CREATE_COMPANY" := JStr("N")])]))
    ensures BuildLeadRequest("bitrix_lead_convert", map["id" := JNum(id), "createDeal" := JStr("true")])
            == Rejected(BadRequest("createDeal must be a boolean"))
  {
  }
}
