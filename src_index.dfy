/** The TypeScript tool registry, src/mcp/tools/index.ts: the tool
    catalogue, the order in which the domain builders are asked, and
    `buildBitrixRequest`, `getToolNames`, `getToolByName`. Tool definitions
    are modelled by their names only. */
module ToolIndex {
  import opened Json
  import opened Requests
  import opened Dispatch
  import DealTools
  import LeadTools
  import ContactTools
  import CompanyTools
  import TaskTools
  import ActivityTools
  import UserTools
  import UtilTools

  /** `requestBuilders`: deal, lead, contact, company, task, activity, user, util. */
  const RequestBuilders: seq<Builder> := [
    DealTools.BuildDealRequest, LeadTools.BuildLeadRequest, ContactTools.BuildContactRequest,
    CompanyTools.BuildCompanyRequest, TaskTools.BuildTaskRequest, ActivityTools.BuildActivityRequest,
    UserTools.BuildUserRequest, UtilTools.BuildUtilRequest]

  /** The names each builder of `RequestBuilders` claims, in the same order. */
  const Domains: seq<seq<string>> := [
    DealTools.ToolNames, LeadTools.ToolNames, ContactTools.ToolNames, CompanyTools.ToolNames,
    TaskTools.ToolNames, ActivityTools.ToolNames, UserTools.ToolNames, UtilTools.ToolNames]

  /** `toolDefinitions`: deal, contact, company, lead, task, activity, user,
      util, an order that differs from the builders'. */
  const Catalogue: seq<string> :=
    DealTools.ToolNames + ContactTools.ToolNames + CompanyTools.ToolNames + LeadTools.ToolNames
    + TaskTools.ToolNames + ActivityTools.ToolNames + UserTools.ToolNames + UtilTools.ToolNames

  /** `buildBitrixRequest(toolName, args)` */
  method BuildBitrixRequest(name: string, args: Option<JValue>) returns (r: Dispatched)
    requires args != Some(JNull)
    ensures r == Dispatch.Dispatch(RequestBuilders, name, args)
  {
    r := RunBuilders(RequestBuilders, name, args);
  }

  /** `getToolNames()`: the catalogue's names in catalogue order, so the
      contact tools come right after the deal tools and the lead tools only
      after the company tools. */
  function GetToolNames(): (names: seq<string>)
    ensures |names| == 12 + 7 + 7 + 9 + 7 + 5 + 4 + 11
    ensures names[..12] == DealTools.ToolNames && names[12..19] == ContactTools.ToolNames
    ensures names[19..26] == CompanyTools.ToolNames && names[26..35] == LeadTools.ToolNames
    ensures forall n :: n in names <==> exists k :: 0 <= k < |Domains| && n in Domains[k]
  {
    var names := Catalogue;
    assert forall n :: n in names <==> exists k :: 0 <= k < |Domains| && n in Domains[k] by {
      forall n
        ensures n in names <==> exists k :: 0 <= k < |Domains| && n in Domains[k]
      {
        if n in names {
          if n in DealTools.ToolNames { assert n in Domains[0]; }
          else if n in ContactTools.ToolNames { assert n in Domains[2]; }
          else if n in CompanyTools.ToolNames { assert n in Domains[3]; }
          else if n in LeadTools.ToolNames { assert n in Domains[1]; }
          else if n in TaskTools.ToolNames { assert n in Domains[4]; }
          else if n in ActivityTools.ToolNames { assert n in Domains[5]; }
          else if n in UserTools.ToolNames { assert n in Domains[6]; }
          else { assert n in Domains[7]; }
        }
      }
    }
    names
  }

  /** `getToolByName(name)`: the position of the first catalogue entry with
      that name, or none. */
  function GetToolByName(name: string): (r: Option<nat>)
    ensures r.Some? <==> name in Catalogue
    ensures r.Some? ==> r.value < |Catalogue| && Catalogue[r.value] == name && name !in Catalogue[..r.value]
  {
    FirstIndex(Catalogue, name)
  }

  /** Each builder claims exactly the names of its own domain. */
  lemma BuilderClaimsItsNames(k: nat, name: string, args: Obj)
    requires k < |RequestBuilders|
    ensures RequestBuilders[k](name, args).NotMine? <==> name !in Domains[k]
  {
    if k == 0 { assert RequestBuilders[0] == DealTools.BuildDealRequest; }
    else if k == 1 { assert RequestBuilders[1] == LeadTools.BuildLeadRequest; }
    else if k == 2 { assert RequestBuilders[2] == ContactTools.BuildContactRequest; }
    else if k == 3 { assert RequestBuilders[3] == CompanyTools.BuildCompanyRequest; }
    else if k == 4 { assert RequestBuilders[4] == TaskTools.BuildTaskRequest; }
    else if k == 5 { assert RequestBuilders[5] == ActivityTools.BuildActivityRequest; }
    else if k == 6 { assert RequestBuilders[6] == UserTools.BuildUserRequest; }
    else { assert RequestBuilders[7] == UtilTools.BuildUtilRequest; }
  }

  /** A name reaches `Unknown tool` exactly when the catalogue does not list
      it: the catalogue and the builders cover the same names. */
  lemma UnknownExactlyOutsideCatalogue(name: string, args: Obj)
    ensures FirstClaim(RequestBuilders, name, args).NotMine? <==> name !in GetToolNames()
  {
    forall k | 0 <= k < |RequestBuilders|
      ensures RequestBuilders[k](name, args).NotMine? <==> name !in Domains[k]
    {
      BuilderClaimsItsNames(k, name, args);
    }
  }
}
