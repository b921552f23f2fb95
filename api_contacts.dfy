/** Contact tools of the serverless handlers: `buildContactRequest` in
    api/mcp/tools/contacts.js. Its inline `ensurePositiveNumber` accepts
    `Infinity`; its inline `ensureNumber` rejects it. */
module ApiContactTools {
  import opened Json
  import opened Requests
  import opened Guards
  import opened ApiPatterns

  /** Tool names in the order of `contactTools`. */
  const ToolNames: seq<string> := [
    "bitrix_contact_list", "bitrix_contact_get", "bitrix_contact_add", "bitrix_contact_update",
    "bitrix_contact_delete", "bitrix_contact_fields", "bitrix_contact_search_by_phone"]

  const FieldsRequired := "fields is required"
  const PhoneMessage := "phone must be a non-empty string"
  const PhoneRequired := "phone is required"

  /** `bitrix_contact_search_by_phone`: a blank or non-string phone fails
      the guard, a missing one is "required"; the trimmed phone is the one
      value looked up among contacts. */
  function SearchByPhone(args: Obj): (r: Built)
    ensures r.Claimed? <==> "phone" in args && NonBlank(args["phone"])
    ensures !Acceptable(args, "phone") ==> r == Rejected(BadRequest(PhoneMessage))
    ensures Missing(Get(args, "phone")) ==> r == Rejected(BadRequest(PhoneRequired))
    ensures r.Claimed? ==> r.request == Request("crm.duplicate.findbycomm", map[
      "type" := JStr("PHONE"), "values" := JArr([JStr(Text.Trim(args["phone"].s))]),
      "entity_type" := JStr("CONTACT")])
  {
    var phone :- StringArg(args, "phone", PhoneMessage);
    if phone.None? then Rejected(BadRequest(PhoneRequired))
    else Claimed(Request("crm.duplicate.findbycomm", map[
      "type" := JStr("PHONE"), "values" := JArr([JStr(phone.value)]), "entity_type" := JStr("CONTACT")]))
  }

  /** `buildContactRequest(toolName, args)` */
  function BuildContactRequest(name: string, args: Obj): (r: Built)
    ensures r.NotMine? <==> name !in ToolNames
  {
    match name
    case "bitrix_contact_list" => ListRequest("crm.contact.list", args, RejectInfinity)
    case "bitrix_contact_get" => ById("crm.contact.get", args, "id", "id", IdMessage, AcceptInfinity)
    case "bitrix_contact_add" => AddWithRequired("crm.contact.add", args, [], FieldsRequired)
    case "bitrix_contact_update" => UpdateWithFields("crm.contact.update", args, "id", IdMessage, AcceptInfinity)
    case "bitrix_contact_delete" => ById("crm.contact.delete", args, "id", "id", IdMessage, AcceptInfinity)
    case "bitrix_contact_fields" => Claimed(Request("crm.contact.fields", map[]))
    case "bitrix_contact_search_by_phone" => SearchByPhone(args)
    case _ => NotMine
  }

  /** `bitrix_contact_add` needs a `fields` object and nothing inside it;
      `bitrix_contact_list` refuses an infinite `start`, which the deal and
      lead copies of `ensureNumber` let through. */
  lemma ContactAddAndListStart(args: Obj)
    ensures var r := BuildContactRequest("bitrix_contact_add", args);
      && (r.Claimed? <==> "fields" in args && args["fields"].JObj?)
      && (r.Claimed? ==> r.request == Request("crm.contact.add", map["fields" := args["fields"]]))
    ensures BuildContactRequest("bitrix_contact_list", map["start" := JInf(false)])
            == Rejected(BadRequest(StartMessage))
  {
    if "fields" in args && args["fields"].JObj? {
      assert HasTruthy(args["fields"].fields, []);
    }
  }
}
