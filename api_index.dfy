/** The serverless tool registry, api/mcp/tools/index.js: nine builders and
    a catalogue in the same order. The item and misc builders it imports
    are the TypeScript ones of this model (`ItemTools`, `MiscTools`). */
module ApiToolIndex {
  import opened Json
  import opened Requests
  import opened Dispatch
  import ApiDealTools
  import ApiLeadTools
  import ApiContactTools
  import ApiCompanyTools
  import ItemTools
  import ApiActivityTools
  import ApiTaskTools
  import ApiUserTools
  import MiscTools

  /** `builders`: deal, lead, contact, company, item, activity, task, user, misc. */
  const Builders: seq<Builder> := [
    ApiDealTools.BuildDealRequest, ApiLeadTools.BuildLeadRequest, ApiContactTools.BuildContactRequest,
    ApiCompanyTools.BuildCompanyRequest, ItemTools.BuildItemRequest, ApiActivityTools.BuildActivityRequest,
    ApiTaskTools.BuildTaskRequest, ApiUserTools.BuildUserRequest, MiscTools.BuildMiscRequest]

  /** The names each builder of `Builders` claims, in the same order. */
  const Domains: seq<seq<string>> := [
    ApiDealTools.ToolNames, ApiLeadTools.ToolNames, ApiContactTools.ToolNames, ApiCompanyTools.ToolNames,
    ItemTools.ToolNames, ApiActivityTools.ToolNames, ApiTaskTools.ToolNames, ApiUserTools.ToolNames,
    MiscTools.ToolNames]

  /** The names of `xss`, one list after the other. */
  function Concat(xss: seq<seq<string>>): (r: seq<string>)
    ensures forall n :: n in r <==> exists k :: 0 <= k < |xss| && n in xss[k]
  {
    if |xss| == 0 then []
    else
      var rest := Concat(xss[1..]);
      assert forall k :: 1 <= k < |xss| ==> xss[k] == xss[1..][k - 1];
      assert forall n :: n in rest ==> exists k :: 1 <= k < |xss| && n in xss[k];
      xss[0] + rest
  }

  /** `allToolDefinitions`: the names in builder order. */
  function AllToolNames(): (names: seq<string>)
    ensures names == Concat(Domains)
    ensures |names| == 10 + 8 + 7 + 6 + 8 + 6 + 5 + 4 + 6
  {
    var d := Domains;
    assert Concat(d[8..]) == d[8] by { assert d[8..][1..] == []; }
    assert Concat(d[7..]) == d[7] + Concat(d[8..]) by { assert d[7..][1..] == d[8..]; }
    assert Concat(d[6..]) == d[6] + Concat(d[7..]) by { assert d[6..][1..] == d[7..]; }
    assert Concat(d[5..]) == d[5] + Concat(d[6..]) by { assert d[5..][1..] == d[6..]; }
    assert Concat(d[4..]) == d[4] + Concat(d[5..]) by { assert d[4..][1..] == d[5..]; }
    assert Concat(d[3..]) == d[3] + Concat(d[4..]) by { assert d[3..][1..] == d[4..]; }
    assert Concat(d[2..]) == d[2] + Concat(d[3..]) by { assert d[2..][1..] == d[3..]; }
    assert Concat(d[1..]) == d[1] + Concat(d[2..]) by { assert d[1..][1..] == d[2..]; }
    ApiDealTools.ToolNames + ApiLeadTools.ToolNames + ApiContactTools.ToolNames + ApiCompanyTools.ToolNames
    + ItemTools.ToolNames + ApiActivityTools.ToolNames + ApiTaskTools.ToolNames + ApiUserTools.ToolNames
    + MiscTools.ToolNames
  }

  /** `buildBitrixRequest(toolName, args = {})` */
  method BuildBitrixRequest(name: string, args: Option<JValue>) returns (r: Dispatched)
    requires args != Some(JNull)
    ensures r == Dispatch.Dispatch(Builders, name, args)
  {
    r := RunBuilders(Builders, name, args);
  }

  /** Each builder claims exactly the names of its own domain. */
  lemma BuilderClaimsItsNames(k: nat, name: string, args: Obj)
    requires k < |Builders|
    ensures Builders[k](name, args).NotMine? <==> name !in Domains[k]
  {
    if k == 0 { assert Builders[0] == ApiDealTools.BuildDealRequest; }
    else if k == 1 { assert Builders[1] == ApiLeadTools.BuildLeadRequest; }
    else if k == 2 { assert Builders[2] == ApiContactTools.BuildContactRequest; }
    else if k == 3 { assert Builders[3] == ApiCompanyTools.BuildCompanyRequest; }
    else if k == 4 { assert Builders[4] == ItemTools.BuildItemRequest; }
    else if k == 5 { assert Builders[5] == ApiActivityTools.BuildActivityRequest; }
    else if k == 6 { assert Builders[6] == ApiTaskTools.BuildTaskRequest; }
    else if k == 7 { assert Builders[7] == ApiUserTools.BuildUserRequest; }
    else { assert Builders[8] == MiscTools.BuildMiscRequest; }
  }

  /** A name reaches `Unknown tool` exactly when the catalogue does not list
      it. */
  lemma UnknownExactlyOutsideCatalogue(name: string, args: Obj)
    ensures FirstClaim(Builders, name, args).NotMine? <==> name !in AllToolNames()
  {
    forall k | 0 <= k < |Builders|
      ensures Builders[k](name, args).NotMine? <==> name !in Domains[k]
    {
      BuilderClaimsItsNames(k, name, args);
    }
  }

  /** The deal builder comes first: a deal tool is answered by it, with
      the normalised arguments, whatever the later builders would say. */
  lemma DealBuilderFirst(name: string, args: Option<JValue>)
    requires args != Some(JNull) && name in ApiDealTools.ToolNames
    ensures var c := ApiDealTools.BuildDealRequest(name, NormalizeArgs(args));
      && (c.Claimed? ==> Dispatch.Dispatch(Builders, name, args) == Ok(c.request))
      && (c.Rejected? ==> Dispatch.Dispatch(Builders, name, args) == Err(c.failure))
  {
    assert Builders[0] == ApiDealTools.BuildDealRequest;
  }
}
