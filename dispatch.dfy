/** The first-match dispatch that src/mcp/tools/index.ts and
    api/mcp/tools/index.js share: reject an empty tool name, replace
    non-object arguments by `{}`, ask the builders in a fixed order and
    return the first result that is not `null`, or fail with
    `Unknown tool: <name>`. */
module Dispatch {
  import opened Json
  import opened Requests

  /** A domain builder: `(toolName, args) => request | null`, or a throw. */
  type Builder = (string, Obj) -> Built

  const NameRequired := "Tool name is required"

  function UnknownTool(name: string): (m: string)
    ensures |m| == 14 + |name| && m[..14] == "Unknown tool: " && m[14..] == name
  {
    "Unknown tool: " + name
  }

  /** `args = {}` then `typeof args === 'object' && !Array.isArray(args) ?
      args : {}`. `None` is an omitted argument; `null` is excluded: it
      passes the `typeof` test, and a branch that reads an argument then
      crashes on it. */
  function NormalizeArgs(args: Option<JValue>): (r: Obj)
    requires args != Some(JNull)
    ensures args.Some? && args.value.JObj? ==> r == args.value.fields
    ensures !(args.Some? && args.value.JObj?) ==> r == map[]
  {
    if args.Some? && args.value.JObj? then args.value.fields else map[]
  }

  /** The first builder whose answer is not `null` decides; `NotMine` when
      none claims the name. */
  function FirstClaim(builders: seq<Builder>, name: string, args: Obj): (r: Built)
    ensures r.NotMine? <==> forall i :: 0 <= i < |builders| ==> builders[i](name, args).NotMine?
    ensures !r.NotMine? ==> exists i :: && 0 <= i < |builders| && r == builders[i](name, args)
                                        && forall j :: 0 <= j < i ==> builders[j](name, args).NotMine?
  {
    if |builders| == 0 then NotMine
    else
      var first := builders[0](name, args);
      if !first.NotMine? then first
      else
        var rest := FirstClaim(builders[1..], name, args);
        assert forall i :: 1 <= i < |builders| ==> builders[i] == builders[1..][i - 1];
        if rest.NotMine? then rest
        else
          var k :| && 0 <= k < |builders[1..]| && rest == builders[1..][k](name, args)
                   && forall j :: 0 <= j < k ==> builders[1..][j](name, args).NotMine?;
          assert forall j :: 0 <= j < k + 1 ==> builders[j](name, args).NotMine?;
          rest
  }

  /** `buildBitrixRequest(toolName, args)` as a value: a claim becomes the
      request, a builder's failure propagates, and no claim is an unknown
      tool. */
  function Dispatch(builders: seq<Builder>, name: string, args: Option<JValue>): (r: Dispatched)
    requires args != Some(JNull)
    ensures name == "" ==> r == Err(BadRequest(NameRequired))
    ensures name != "" ==> var c := FirstClaim(builders, name, NormalizeArgs(args));
      && (c.Claimed? ==> r == Ok(c.request))
      && (c.Rejected? ==> r == Err(c.failure))
      && (c.NotMine? ==> r == Err(BadRequest(UnknownTool(name))))
  {
    if name == "" then Err(BadRequest(NameRequired))
    else
      match FirstClaim(builders, name, NormalizeArgs(args))
      case Claimed(request) => Ok(request)
      case Rejected(failure) => Err(failure)
      case NotMine => Err(BadRequest(UnknownTool(name)))
  }

  /** The `for (const builder of builders)` loop with its early returns. */
  method RunBuilders(builders: seq<Builder>, name: string, args: Option<JValue>) returns (r: Dispatched)
    requires args != Some(JNull)
    ensures r == Dispatch(builders, name, args)
  {
    if name == "" {
      return Err(BadRequest(NameRequired));
    }
    var normalized := NormalizeArgs(args);
    for i := 0 to |builders|
      invariant FirstClaim(builders, name, normalized) == FirstClaim(builders[i..], name, normalized)
    {
      var result := builders[i](name, normalized);
      assert builders[i..][1..] == builders[i + 1..];
      match result
      case Claimed(request) =>
        return Ok(request);
      case Rejected(failure) =>
        return Err(failure);
      case NotMine =>
    }
    return Err(BadRequest(UnknownTool(name)));
  }

  /** The index of the first occurrence of `x` in `xs`: `Array.prototype.find`
      over the catalogue, compared by name. */
  function FirstIndex(xs: seq<string>, x: string): (r: Option<nat>)
    ensures r.Some? <==> x in xs
    ensures r.Some? ==> r.value < |xs| && xs[r.value] == x && x !in xs[..r.value]
  {
    if |xs| == 0 then None
    else if xs[0] == x then Some(0)
    else
      var rest := FirstIndex(xs[1..], x);
      if rest.None? then None
      else
        assert xs[..rest.value + 1] == [xs[0]] + xs[1..][..rest.value];
        Some(rest.value + 1)
  }

  /** Putting a builder that never claims a name in front of the list
      changes nothing for that name: the order of the builders matters only
      for a name two of them claim. */
  lemma {:induction false} FirstClaimSkipsUnclaimed(builders: seq<Builder>, i: nat, name: string, args: Obj)
    requires i <= |builders|
    requires forall j :: 0 <= j < i ==> builders[j](name, args).NotMine?
    ensures FirstClaim(builders, name, args) == FirstClaim(builders[i..], name, args)
  {
    if i > 0 {
      assert builders[1..][i - 1..] == builders[i..];
      FirstClaimSkipsUnclaimed(builders[1..], i - 1, name, args);
    }
  }

  /** When exactly one builder claims a name, dispatch returns its answer,
      whatever the others are and wherever it stands. */
  lemma SoleClaimant(builders: seq<Builder>, k: nat, name: string, args: Obj)
    requires k < |builders| && !builders[k](name, args).NotMine?
    requires forall j :: 0 <= j < |builders| && j != k ==> builders[j](name, args).NotMine?
    ensures FirstClaim(builders, name, args) == builders[k](name, args)
  {
    FirstClaimSkipsUnclaimed(builders, k, name, args);
  }
}
