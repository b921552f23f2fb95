/** Contact tools of the TypeScript server: `buildContactRequest` in
    src/mcp/tools/contacts.ts. */
module ContactTools {
  import opened Json
  import opened Text
  import opened Requests
  import opened Guards
  import opened CrmPatterns

  /** Tool names in the order of `contactToolDefinitions`. */
  const ToolNames: seq<string> := [
    "bitrix_find_contact", "bitrix_create_contact", "bitrix_update_contact", "bitrix_get_contact",
    "bitrix_list_contacts", "bitrix_search_contacts", "bitrix_get_contact_fields"]

  const PhoneMessage := "Parameter \"phone\" must be a non-empty string when provided"
  const EmailMessage := "Parameter \"email\" must be a non-empty string when provided"
  const FirstNameMessage := "Parameter \"firstName\" must be a non-empty string"
  const LastNameMessage := "Parameter \"lastName\" must be a non-empty string when provided"
  const QueryMessage := "Parameter \"query\" must be a non-empty string when provided"
  const NameMessage := "Parameter \"name\" must be a non-empty string when provided"
  const PhoneOrEmailMessage := "Either \"phone\" or \"email\" must be provided"
  const SearchMessage := "At least one search parameter (query, name, phone, or email) must be provided"

  /** The fixed `select` list of `bitrix_find_contact`. */
  const FindSelect: seq<string> := ["ID", "NAME", "LAST_NAME", "PHONE", "EMAIL"]

  /** `[{ VALUE: v, VALUE_TYPE: 'WORK' }]`, the multi-field form of a phone or e-mail. */
  function WorkValue(v: string): (r: JValue)
    ensures r.JArr? && |r.items| == 1 && r.items[0].JObj?
    ensures r.items[0].fields == map["VALUE" := JStr(v), "VALUE_TYPE" := JStr("WORK")]
  {
    JArr([JObj(map["VALUE" := JStr(v), "VALUE_TYPE" := JStr("WORK")])])
  }

  function WorkValueOpt(v: Option<string>): (r: Option<JValue>)
    ensures r.Some? <==> v.Some?
    ensures v.Some? ==> r.value == WorkValue(v.value)
  {
    if v.Some? then Some(WorkValue(v.value)) else None
  }

  /** `bitrix_search_contacts`' filter: `%NAME` from `name`, else from
      `query`; `PHONE` and `EMAIL` when given. */
  function SearchFilter(query: Option<string>, name: Option<string>, phone: Option<string>, email: Option<string>): (r: Obj)
    ensures r.Keys == (if query.Some? || name.Some? then {"%NAME"} else {})
                      + (if phone.Some? then {"PHONE"} else {}) + (if email.Some? then {"EMAIL"} else {})
    ensures name.Some? ==> r["%NAME"] == JStr(name.value)
    ensures name.None? && query.Some? ==> r["%NAME"] == JStr(query.value)
    ensures phone.Some? ==> r["PHONE"] == JStr(phone.value)
    ensures email.Some? ==> r["EMAIL"] == JStr(email.value)
  {
    var withQuery := Put(map[], "%NAME", StrOpt(query));
    var withName := Put(withQuery, "%NAME", StrOpt(name));
    Put(Put(withName, "PHONE", StrOpt(phone)), "EMAIL", StrOpt(email))
  }

  /** `bitrix_find_contact`: with valid arguments it fails exactly when
      neither phone nor email is given; the filter holds exactly the given,
      trimmed ones, and `select` is the fixed five-field list. */
  function FindContact(args: Obj): (r: Built)
    ensures !Acceptable(args, "phone") ==> r == Rejected(BadRequest(PhoneMessage))
    ensures Acceptable(args, "phone") && !Acceptable(args, "email") ==> r == Rejected(BadRequest(EmailMessage))
    ensures Acceptable(args, "phone") && Acceptable(args, "email") ==>
      && (r.Rejected? <==> Missing(Get(args, "phone")) && Missing(Get(args, "email")))
      && (r.Rejected? ==> r.failure == BadRequest(PhoneOrEmailMessage))
    ensures r.Claimed? ==>
      && r.request.restMethod == "crm.contact.list"
      && r.request.payload.Keys == {"filter", "select"}
      && r.request.payload["select"] == JArr(StrArray(FindSelect))
      && r.request.payload["filter"].JObj?
      && var f := r.request.payload["filter"].fields;
      && f.Keys <= {"PHONE", "EMAIL"}
      && ("PHONE" in f <==> !Missing(Get(args, "phone")))
      && ("EMAIL" in f <==> !Missing(Get(args, "email")))
      && ("PHONE" in f ==> f["PHONE"] == JStr(Trim(args["phone"].s)))
      && ("EMAIL" in f ==> f["EMAIL"] == JStr(Trim(args["email"].s)))
  {
    var phone :- EnsureString(Get(args, "phone"), PhoneMessage);
    var email :- EnsureString(Get(args, "email"), EmailMessage);
    if phone.None? && email.None? then Rejected(BadRequest(PhoneOrEmailMessage))
    else
      var filter := Put(Put(map[], "PHONE", StrOpt(phone)), "EMAIL", StrOpt(email));
      Claimed(Request("crm.contact.list", map["filter" := JObj(filter), "select" := JArr(StrArray(FindSelect))]))
  }

  /** The `fields` of `bitrix_create_contact`: `NAME`, `LAST_NAME`, `PHONE`,
      `EMAIL` exactly for the values given, the last two as one-element
      `WORK` lists. */
  function ContactFields(firstName: Option<string>, lastName: Option<string>, phone: Option<string>, email: Option<string>): (f: Obj)
    ensures f.Keys <= {"NAME", "LAST_NAME", "PHONE", "EMAIL"}
    ensures ("NAME" in f <==> firstName.Some?) && ("LAST_NAME" in f <==> lastName.Some?)
    ensures ("PHONE" in f <==> phone.Some?) && ("EMAIL" in f <==> email.Some?)
    ensures firstName.Some? ==> f["NAME"] == JStr(firstName.value)
    ensures lastName.Some? ==> f["LAST_NAME"] == JStr(lastName.value)
    ensures phone.Some? ==> f["PHONE"] == WorkValue(phone.value)
    ensures email.Some? ==> f["EMAIL"] == WorkValue(email.value)
  {
    Put(Put(Put(Put(map[], "NAME", StrOpt(firstName)), "LAST_NAME", StrOpt(lastName)),
            "PHONE", WorkValueOpt(phone)), "EMAIL", WorkValueOpt(email))
  }

  /** `bitrix_create_contact`: a missing first name is not rejected; any
      given argument must be a non-blank string, checked in the order
      firstName, lastName, phone, email. */
  function CreateContact(args: Obj): (r: Built)
    ensures r.Claimed? <==> && Acceptable(args, "firstName") && Acceptable(args, "lastName")
                            && Acceptable(args, "phone") && Acceptable(args, "email")
    ensures !Acceptable(args, "firstName") ==> r == Rejected(BadRequest(FirstNameMessage))
    ensures Acceptable(args, "firstName") && !Acceptable(args, "lastName") ==> r == Rejected(BadRequest(LastNameMessage))
    ensures Acceptable(args, "firstName") && Acceptable(args, "lastName") && !Acceptable(args, "phone")
            ==> r == Rejected(BadRequest(PhoneMessage))
    ensures Acceptable(args, "firstName") && Acceptable(args, "lastName") && Acceptable(args, "phone")
            && !Acceptable(args, "email")
            ==> r == Rejected(BadRequest(EmailMessage))
    ensures r.Claimed? ==> r.request == Request("crm.contact.add", map["fields" := JObj(ContactFields(
      TrimmedArg(args, "firstName"), TrimmedArg(args, "lastName"), TrimmedArg(args, "phone"), TrimmedArg(args, "email")))])
  {
    var firstName :- EnsureString(Get(args, "firstName"), FirstNameMessage);
    var lastName :- EnsureString(Get(args, "lastName"), LastNameMessage);
    var phone :- EnsureString(Get(args, "phone"), PhoneMessage);
    var email :- EnsureString(Get(args, "email"), EmailMessage);
    Claimed(Request("crm.contact.add", map["fields" := JObj(ContactFields(firstName, lastName, phone, email))]))
  }

  /** `buildContactRequest(toolName, args)` */
  function BuildContactRequest(name: string, args: Obj): (r: Built)
    ensures r.NotMine? <==> name !in ToolNames
  {
    if name == "bitrix_find_contact" then
      FindContact(args)
    else if name == "bitrix_create_contact" then
      CreateContact(args)
    else if name == "bitrix_update_contact" then
      UpdateById("crm.contact.update", args)
    else if name == "bitrix_get_contact" then
      GetById("crm.contact.get", args)
    else if name == "bitrix_list_contacts" then
      ListRequest("crm.contact.list", args)
    else if name == "bitrix_search_contacts" then
      var query :- EnsureString(Get(args, "query"), QueryMessage);
      var byName :- EnsureString(Get(args, "name"), NameMessage);
      var phone :- EnsureString(Get(args, "phone"), PhoneMessage);
      var email :- EnsureString(Get(args, "email"), EmailMessage);
      if query.None? && byName.None? && phone.None? && email.None? then Rejected(BadRequest(SearchMessage))
      else
        var limit := GetOptionalPositiveNumber(Get(args, "limit"), 50.0);
        Claimed(Request("crm.contact.list", map["filter" := JObj(SearchFilter(query, byName, phone, email)), "start" := JNum(0.0), "limit" := limit]))
    else if name == "bitrix_get_contact_fields" then
      Claimed(Request("crm.contact.fields", map[]))
    else
      NotMine
  }

  /** `bitrix_search_contacts`: fails when no criterion is given; `name`
      wins over `query` for `%NAME`. */
  lemma SearchContactsCriteria(args: Obj)
    requires Acceptable(args, "query") && Acceptable(args, "name")
    requires Acceptable(args, "phone") && Acceptable(args, "email")
    ensures var r := BuildContactRequest("bitrix_search_contacts", args);
      && (r.Rejected? <==> Missing(Get(args, "query")) && Missing(Get(args, "name"))
                           && Missing(Get(args, "phone")) && Missing(Get(args, "email")))
      && (r.Rejected? ==> r.failure == BadRequest(SearchMessage))
      && (r.Claimed? ==> r.request.payload["filter"] == JObj(SearchFilter(TrimmedArg(args, "query"), TrimmedArg(args, "name"),
                                                                       TrimmedArg(args, "phone"), TrimmedArg(args, "email"))))
      && (r.Claimed? ==> r.request.payload["start"] == JNum(0.0))
  {
  }
}
