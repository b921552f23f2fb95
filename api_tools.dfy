/** The first serverless handler, api/mcp/tools.js: thirteen tools in one
    `if` chain with its own dispatch prologue, and `normalizeWebhookBase`.
    Its guards are the helpers.ts ones (no finiteness check), with the same
    messages, so its branches are the shapes of `CrmPatterns`, the contact
    builders of `ContactTools` and the comment builder of `UtilTools`; only
    `bitrix_search_deals` reads `limit` differently. */
module ApiMonolith {
  import opened Json
  import opened Requests
  import opened Guards
  import opened CrmPatterns
  import opened Dispatch
  import DealTools
  import ContactTools
  import CompanyTools
  import LeadTools
  import UtilTools

  /** `tools`: the names of `toolDefinitions`, in order. */
  const ToolNames: seq<string> := [
    "bitrix_get_deal", "bitrix_create_deal", "bitrix_update_deal", "bitrix_find_contact",
    "bitrix_create_contact", "bitrix_update_contact", "bitrix_search_deals", "bitrix_add_comment",
    "bitrix_get_contact", "bitrix_create_company", "bitrix_get_company", "bitrix_create_lead",
    "bitrix_get_lead"]

  /** `normalizeWebhookBase(url)`, `url.replace(/\/$/, '')`: one trailing
      slash goes, nothing else changes. */
  function NormalizeWebhookBase(url: string): (r: string)
    ensures url == r + "/" || url == r
    ensures url == r + "/" <==> |url| > 0 && url[|url| - 1] == '/'
  {
    if |url| > 0 && url[|url| - 1] == '/' then url[..|url| - 1] else url
  }

  /** `bitrix_search_deals`: `limit` is whatever number was given (zero,
      negative and NaN included), else 50; `start` is always 0. */
  function SearchDeals(args: Obj): (r: Built)
    ensures r.Claimed? <==> ObjectOrMissing(args, "filter")
    ensures !r.Claimed? ==> r == Rejected(BadRequest(FilterMessage))
    ensures r.Claimed? ==> r.request == Request("crm.deal.list", map[
      "filter" := JObj(ObjectOr(args, "filter")), "start" := JNum(0.0),
      "limit" := if "limit" in args && IsNumber(args["limit"]) then args["limit"] else JNum(50.0)])
  {
    var filter :- EnsureObject(Get(args, "filter"), FilterMessage);
    var limit := NumberOrUndefined(Get(args, "limit")).GetOr(JNum(50.0));
    Claimed(Request("crm.deal.list", map["filter" := JObj(filter.GetOr(map[])), "start" := JNum(0.0), "limit" := limit]))
  }

  /** The `if (toolName === …)` chain of `buildBitrixRequest`. */
  function Branch(name: string, args: Obj): (r: Built)
    ensures r.NotMine? <==> name !in ToolNames
  {
    if name == "bitrix_get_deal" then GetById("crm.deal.get", args)
    else if name == "bitrix_create_deal" then CreateTitled("crm.deal.add", args)
    else if name == "bitrix_update_deal" then UpdateById("crm.deal.update", args)
    else if name == "bitrix_find_contact" then ContactTools.FindContact(args)
    else if name == "bitrix_create_contact" then ContactTools.CreateContact(args)
    else if name == "bitrix_update_contact" then UpdateById("crm.contact.update", args)
    else if name == "bitrix_search_deals" then SearchDeals(args)
    else if name == "bitrix_add_comment" then UtilTools.AddComment(args)
    else if name == "bitrix_get_contact" then GetById("crm.contact.get", args)
    else if name == "bitrix_create_company" then CreateTitled("crm.company.add", args)
    else if name == "bitrix_get_company" then GetById("crm.company.get", args)
    else if name == "bitrix_create_lead" then CreateTitled("crm.lead.add", args)
    else if name == "bitrix_get_lead" then GetById("crm.lead.get", args)
    else NotMine
  }

  /** `buildBitrixRequest(toolName, args = {})`: the name check, the
      argument normalisation, the chain, and `Unknown tool` at the end. */
  function BuildBitrixRequest(name: string, args: Option<JValue>): (r: Dispatched)
    requires args != Some(JNull)
    ensures name == "" ==> r == Err(BadRequest(NameRequired))
    ensures name != "" && name !in ToolNames ==> r == Err(BadRequest(UnknownTool(name)))
    ensures name in ToolNames ==> var b := Branch(name, NormalizeArgs(args));
      && (b.Claimed? ==> r == Ok(b.request))
      && (b.Rejected? ==> r == Err(b.failure))
  {
    if name == "" then Err(BadRequest(NameRequired))
    else
      match Branch(name, NormalizeArgs(args))
      case Claimed(request) => Ok(request)
      case Rejected(failure) => Err(failure)
      case NotMine => Err(BadRequest(UnknownTool(name)))
  }

  /** The TypeScript builder that serves the same tool name. */
  function Counterpart(name: string, args: Obj): Built {
    if name in DealTools.ToolNames then DealTools.BuildDealRequest(name, args)
    else if name in ContactTools.ToolNames then ContactTools.BuildContactRequest(name, args)
    else if name in CompanyTools.ToolNames then CompanyTools.BuildCompanyRequest(name, args)
    else if name in LeadTools.ToolNames then LeadTools.BuildLeadRequest(name, args)
    else UtilTools.BuildUtilRequest(name, args)
  }

  /** The three deal tools other than `bitrix_search_deals` are served by
      the TypeScript deal builder exactly as here. */
  lemma AgreesOnDeals(name: string, args: Obj)
    requires name in ["bitrix_get_deal", "bitrix_create_deal", "bitrix_update_deal"]
    ensures Branch(name, args) == Counterpart(name, args)
  {
    assert name in DealTools.ToolNames;
  }

  /** The four contact tools are served by the TypeScript contact builder
      exactly as here. */
  lemma AgreesOnContacts(name: string, args: Obj)
    requires name in ["bitrix_find_contact", "bitrix_create_contact", "bitrix_update_contact", "bitrix_get_contact"]
    ensures Branch(name, args) == Counterpart(name, args)
  {
    assert name !in DealTools.ToolNames && name in ContactTools.ToolNames;
  }

  /** The two company tools are served by the TypeScript company builder
      exactly as here. */
  lemma AgreesOnCompanies(name: string, args: Obj)
    requires name in ["bitrix_create_company", "bitrix_get_company"]
    ensures Branch(name, args) == Counterpart(name, args)
  {
    assert name !in DealTools.ToolNames && name !in ContactTools.ToolNames;
    assert name in CompanyTools.ToolNames;
  }

  /** The two lead tools are served by the TypeScript lead builder exactly
      as here. */
  lemma AgreesOnLeads(name: string, args: Obj)
    requires name in ["bitrix_create_lead", "bitrix_get_lead"]
    ensures Branch(name, args) == Counterpart(name, args)
  {
    assert name !in DealTools.ToolNames && name !in ContactTools.ToolNames;
    assert name !in CompanyTools.ToolNames && name in LeadTools.ToolNames;
  }

  /** `bitrix_add_comment` is served by the TypeScript utility builder
      exactly as here. */
  lemma AgreesOnComment(args: Obj)
    ensures Branch("bitrix_add_comment", args) == Counterpart("bitrix_add_comment", args)
  {
    var name := "bitrix_add_comment";
    assert name !in DealTools.ToolNames && name !in ContactTools.ToolNames;
    assert name !in CompanyTools.ToolNames && name !in LeadTools.ToolNames;
  }

  /** Twelve of the thirteen tools answer, in the model, exactly as the
      TypeScript builders of the same name do, errors and messages included.
      The model reads the entity-type check of `bitrix_add_comment` as the
      `includes` test of helpers.ts; the object lookup of tools.js also
      accepts the inherited names `constructor` and `__proto__`, which this
      model does not represent. `Branch` is written with the TypeScript
      builders' own functions, so this lemma and the `AgreesOn…` lemmas
      record that routing rather than compare two independent definitions;
      the one branch with code of its own is `SearchDeals`, and
      `SearchDealsLimitDiverges` shows where it differs. */
  lemma AgreesWithTypeScript(name: string, args: Obj)
    requires name in ToolNames && name != "bitrix_search_deals"
    ensures Branch(name, args) == Counterpart(name, args)
  {
    if name in ["bitrix_get_deal", "bitrix_create_deal", "bitrix_update_deal"] {
      AgreesOnDeals(name, args);
    } else if name in ["bitrix_find_contact", "bitrix_create_contact", "bitrix_update_contact", "bitrix_get_contact"] {
      AgreesOnContacts(name, args);
    } else if name in ["bitrix_create_company", "bitrix_get_company"] {
      AgreesOnCompanies(name, args);
    } else if name in ["bitrix_create_lead", "bitrix_get_lead"] {
      AgreesOnLeads(name, args);
    } else {
      assert name == "bitrix_add_comment";
      AgreesOnComment(args);
    }
  }

  /** `bitrix_search_deals` is the exception: a `limit` of 0 or NaN is sent
      here, where the TypeScript builder sends 50. */
  lemma SearchDealsLimitDiverges()
    ensures Branch("bitrix_search_deals", map["limit" := JNum(0.0)]).request.payload["limit"] == JNum(0.0)
    ensures Branch("bitrix_search_deals", map["limit" := JNaN]).request.payload["limit"] == JNaN
    ensures Counterpart("bitrix_search_deals", map["limit" := JNum(0.0)]).request.payload["limit"] == JNum(50.0)
  {
    var args: Obj := map["limit" := JNum(0.0)];
    assert "bitrix_search_deals" in DealTools.ToolNames;
    assert DealTools.BuildDealRequest("bitrix_search_deals", args) == SearchByFilter("crm.deal.list", args);
  }
}
