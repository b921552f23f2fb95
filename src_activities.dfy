/** Activity tools of the TypeScript server: `getOwnerTypeId` and
    `buildActivityRequest` in src/mcp/tools/activities.ts, with the
    `ENTITY_TYPE_IDS` table of src/mcp/tools/types.ts. */
module ActivityTools {
  import opened Json
  import opened Text
  import opened Requests
  import opened Guards
  import opened CrmPatterns

  /** Tool names in the order of `activityToolDefinitions`. */
  const ToolNames: seq<string> := [
    "bitrix_create_activity", "bitrix_get_activity", "bitrix_list_activities",
    "bitrix_update_activity", "bitrix_complete_activity"]

  /** `ENTITY_TYPE_IDS`: Bitrix24's numeric owner types. */
  const EntityTypeIds: map<string, int> := map["lead" := 1, "deal" := 2, "contact" := 3, "company" := 4]

  const OwnerTypeMessage := "Parameter \"ownerType\" must be one of: lead, deal, contact, company"
  const OwnerTypeStringMessage := "Parameter \"ownerType\" must be a non-empty string"
  const OwnerIdMessage := "Parameter \"ownerId\" must be a positive number"
  const TypeIdMessage := "Parameter \"typeId\" must be a positive number"
  const SubjectMessage := "Parameter \"subject\" must be a non-empty string"
  const DescriptionMessage := "Parameter \"description\" must be a non-empty string when provided"
  const StartTimeMessage := "Parameter \"startTime\" must be a non-empty string when provided"
  const EndTimeMessage := "Parameter \"endTime\" must be a non-empty string when provided"

  /** `getOwnerTypeId(ownerType!)`: the id of the lower-cased name; an
      unknown name is a bad request, and `undefined` (which the `!` lets
      through) fails on `.toLowerCase()` with a `TypeError`. */
  function GetOwnerTypeId(ownerType: Option<string>): (r: Outcome<int>)
    ensures ownerType.None? ==> r == Thrown(TypeError)
    ensures ownerType.Some? ==> (r.Done? <==> Lower(ownerType.value) in EntityTypeIds)
    ensures ownerType.Some? && r.Thrown? ==> r.failure == BadRequest(OwnerTypeMessage)
    ensures r.Done? ==> 1 <= r.value <= 4 && r.value == EntityTypeIds[Lower(ownerType.value)]
  {
    if ownerType.None? then Thrown(TypeError)
    else
      var key := Lower(ownerType.value);
      if key !in EntityTypeIds then Thrown(BadRequest(OwnerTypeMessage))
      else Done(EntityTypeIds[key])
  }

  /** The owner type is read case-insensitively: each of the four names maps
      to its id in any letter case. */
  lemma OwnerTypeCaseInsensitive(ownerType: string)
    ensures GetOwnerTypeId(Some(ownerType)) == GetOwnerTypeId(Some(Lower(ownerType)))
    ensures GetOwnerTypeId(Some(Upper(ownerType))) == GetOwnerTypeId(Some(ownerType))
  {
    LowerOfUpper(ownerType);
    assert Lower(Lower(ownerType)) == Lower(ownerType);
  }

  /** `{ OWNER_TYPE_ID, OWNER_ID, TYPE_ID, SUBJECT, ...extra }` */
  function ActivityBase(ownerTypeId: int, ownerId: JValue, typeId: JValue, subject: Option<string>, extra: Obj): (f: Obj)
    ensures forall k :: k in f <==> || k in extra || k == "OWNER_TYPE_ID" || k == "OWNER_ID" || k == "TYPE_ID"
                                    || (k == "SUBJECT" && subject.Some?)
    ensures forall k :: k in extra ==> f[k] == extra[k]
    ensures "OWNER_TYPE_ID" !in extra ==> f["OWNER_TYPE_ID"] == JNum(ownerTypeId as real)
    ensures "OWNER_ID" !in extra ==> f["OWNER_ID"] == ownerId
    ensures "TYPE_ID" !in extra ==> f["TYPE_ID"] == typeId
    ensures subject.Some? && "SUBJECT" !in extra ==> f["SUBJECT"] == JStr(subject.value)
  {
    Put(map["OWNER_TYPE_ID" := JNum(ownerTypeId as real), "OWNER_ID" := ownerId, "TYPE_ID" := typeId],
        "SUBJECT", StrOpt(subject)) + extra
  }

  /** The later conditional writes: `DESCRIPTION`, `RESPONSIBLE_ID`,
      `START_TIME`, `END_TIME` over whatever `m` holds. */
  function ActivityOverrides(m: Obj, description: Option<string>, responsibleId: Option<JValue>,
                             startTime: Option<string>, endTime: Option<string>): (f: Obj)
    ensures forall k :: k in f <==> || k in m || (k == "DESCRIPTION" && description.Some?)
                                    || (k == "RESPONSIBLE_ID" && responsibleId.Some?)
                                    || (k == "START_TIME" && startTime.Some?) || (k == "END_TIME" && endTime.Some?)
    ensures description.Some? ==> f["DESCRIPTION"] == JStr(description.value)
    ensures responsibleId.Some? ==> f["RESPONSIBLE_ID"] == responsibleId.value
    ensures startTime.Some? ==> f["START_TIME"] == JStr(startTime.value)
    ensures endTime.Some? ==> f["END_TIME"] == JStr(endTime.value)
    ensures forall k :: k in m && k != "DESCRIPTION" && k != "RESPONSIBLE_ID" && k != "START_TIME" && k != "END_TIME"
                        ==> f[k] == m[k]
  {
    Put(Put(Put(Put(m, "DESCRIPTION", StrOpt(description)), "RESPONSIBLE_ID", responsibleId),
        "START_TIME", StrOpt(startTime)), "END_TIME", StrOpt(endTime))
  }

  /** The `fields` of `bitrix_create_activity`: later writes win. */
  function ActivityFields(ownerTypeId: int, ownerId: JValue, typeId: JValue, subject: Option<string>, extra: Obj,
                          description: Option<string>, responsibleId: Option<JValue>,
                          startTime: Option<string>, endTime: Option<string>): (f: Obj)
    ensures forall k :: k in f <==> || k in extra || k == "OWNER_TYPE_ID" || k == "OWNER_ID" || k == "TYPE_ID"
                                    || (k == "SUBJECT" && subject.Some?) || (k == "DESCRIPTION" && description.Some?)
                                    || (k == "RESPONSIBLE_ID" && responsibleId.Some?)
                                    || (k == "START_TIME" && startTime.Some?) || (k == "END_TIME" && endTime.Some?)
    ensures forall k :: k in extra && k != "DESCRIPTION" && k != "RESPONSIBLE_ID" && k != "START_TIME" && k != "END_TIME"
                        ==> f[k] == extra[k]
  {
    var base := ActivityBase(ownerTypeId, ownerId, typeId, subject, extra);
    var f := ActivityOverrides(base, description, responsibleId, startTime, endTime);
    assert forall k :: k in extra && k != "DESCRIPTION" && k != "RESPONSIBLE_ID" && k != "START_TIME" && k != "END_TIME"
                       ==> f[k] == base[k] == extra[k];
    f
  }

  /** `DESCRIPTION`, `RESPONSIBLE_ID`, `START_TIME` and `END_TIME` arguments
      always win over the extra `fields`. */
  lemma ActivityFieldsOverrides(ownerTypeId: int, ownerId: JValue, typeId: JValue, subject: Option<string>, extra: Obj,
                                description: Option<string>, responsibleId: Option<JValue>,
                                startTime: Option<string>, endTime: Option<string>)
    ensures var f := ActivityFields(ownerTypeId, ownerId, typeId, subject, extra, description, responsibleId, startTime, endTime);
      && (description.Some? ==> f["DESCRIPTION"] == JStr(description.value))
      && (responsibleId.Some? ==> f["RESPONSIBLE_ID"] == responsibleId.value)
      && (startTime.Some? ==> f["START_TIME"] == JStr(startTime.value))
      && (endTime.Some? ==> f["END_TIME"] == JStr(endTime.value))
  {
    var base := ActivityBase(ownerTypeId, ownerId, typeId, subject, extra);
    assert ActivityFields(ownerTypeId, ownerId, typeId, subject, extra, description, responsibleId, startTime, endTime)
        == ActivityOverrides(base, description, responsibleId, startTime, endTime);
  }

  /** The owner, the type and the subject come from the arguments unless
      the extra `fields` hold them. */
  lemma ActivityFieldsArguments(ownerTypeId: int, ownerId: JValue, typeId: JValue, subject: Option<string>, extra: Obj,
                                description: Option<string>, responsibleId: Option<JValue>,
                                startTime: Option<string>, endTime: Option<string>)
    ensures var f := ActivityFields(ownerTypeId, ownerId, typeId, subject, extra, description, responsibleId, startTime, endTime);
      && ("OWNER_TYPE_ID" !in extra ==> f["OWNER_TYPE_ID"] == JNum(ownerTypeId as real))
      && ("OWNER_ID" !in extra ==> f["OWNER_ID"] == ownerId)
      && ("TYPE_ID" !in extra ==> f["TYPE_ID"] == typeId)
      && (subject.Some? && "SUBJECT" !in extra ==> f["SUBJECT"] == JStr(subject.value))
  {
    var base := ActivityBase(ownerTypeId, ownerId, typeId, subject, extra);
    var f := ActivityOverrides(base, description, responsibleId, startTime, endTime);
    assert ActivityFields(ownerTypeId, ownerId, typeId, subject, extra, description, responsibleId, startTime, endTime) == f;
    assert f["OWNER_TYPE_ID"] == base["OWNER_TYPE_ID"];
    assert f["OWNER_ID"] == base["OWNER_ID"];
    assert f["TYPE_ID"] == base["TYPE_ID"];
    if subject.Some? {
      assert f["SUBJECT"] == base["SUBJECT"];
    }
  }

  /** Merge order: an `OWNER_ID` inside `fields` beats the `ownerId`
      argument, and a `responsibleId` argument beats a `RESPONSIBLE_ID`
      inside `fields`. */
  lemma ActivityFieldsPrecedence(ownerTypeId: int, ownerId: JValue, typeId: JValue, extra: Obj, responsibleId: JValue)
    requires "OWNER_ID" in extra && "RESPONSIBLE_ID" in extra
    ensures var f := ActivityFields(ownerTypeId, ownerId, typeId, None, extra, None, Some(responsibleId), None, None);
      f["OWNER_ID"] == extra["OWNER_ID"] && f["RESPONSIBLE_ID"] == responsibleId
  {
  }

  /** All argument guards of `bitrix_create_activity` pass. */
  predicate CreateArgsValid(args: Obj) {
    && Acceptable(args, "ownerType")
    && "ownerId" in args && PositiveNumber(args["ownerId"], AcceptInfinity)
    && "typeId" in args && PositiveNumber(args["typeId"], AcceptInfinity)
    && Acceptable(args, "subject") && Acceptable(args, "description")
    && Acceptable(args, "startTime") && Acceptable(args, "endTime")
    && ObjectOrMissing(args, "fields")
  }

  /** `bitrix_create_activity`: every argument guard runs before the owner
      type is mapped, so a bad `ownerId` is reported even when `ownerType`
      is unknown, and a missing `ownerType` ends in a `TypeError`. */
  function CreateActivity(args: Obj): (r: Built)
    ensures !Acceptable(args, "ownerType") ==> r == Rejected(BadRequest(OwnerTypeStringMessage))
    ensures Acceptable(args, "ownerType") && !("ownerId" in args && PositiveNumber(args["ownerId"], AcceptInfinity))
            ==> r == Rejected(BadRequest(OwnerIdMessage))
    ensures Acceptable(args, "ownerType") && "ownerId" in args && PositiveNumber(args["ownerId"], AcceptInfinity)
            && !("typeId" in args && PositiveNumber(args["typeId"], AcceptInfinity))
            ==> r == Rejected(BadRequest(TypeIdMessage))
    ensures Acceptable(args, "ownerType") && "ownerId" in args && PositiveNumber(args["ownerId"], AcceptInfinity)
            && "typeId" in args && PositiveNumber(args["typeId"], AcceptInfinity)
            ==>
            && (!Acceptable(args, "subject") ==> r == Rejected(BadRequest(SubjectMessage)))
            && (Acceptable(args, "subject") && !Acceptable(args, "description")
                ==> r == Rejected(BadRequest(DescriptionMessage)))
            && (Acceptable(args, "subject") && Acceptable(args, "description") && !Acceptable(args, "startTime")
                ==> r == Rejected(BadRequest(StartTimeMessage)))
            && (Acceptable(args, "subject") && Acceptable(args, "description") && Acceptable(args, "startTime")
                && !Acceptable(args, "endTime")
                ==> r == Rejected(BadRequest(EndTimeMessage)))
            && (Acceptable(args, "subject") && Acceptable(args, "description") && Acceptable(args, "startTime")
                && Acceptable(args, "endTime") && !ObjectOrMissing(args, "fields")
                ==> r == Rejected(BadRequest(FieldsWhenProvided)))
    ensures !CreateArgsValid(args) ==> r.Rejected? && r.failure.BadRequest? && r.failure.message != OwnerTypeMessage
    ensures CreateArgsValid(args) && Missing(Get(args, "ownerType")) ==> r == Rejected(TypeError)
    ensures r.Claimed? <==> CreateArgsValid(args) && !Missing(Get(args, "ownerType"))
                            && Lower(Trim(args["ownerType"].s)) in EntityTypeIds
    ensures CreateArgsValid(args) && !Missing(Get(args, "ownerType")) && !r.Claimed?
            ==> r == Rejected(BadRequest(OwnerTypeMessage))
    ensures r.Claimed? ==> r.request == Request("crm.activity.add", map["fields" := JObj(ActivityFields(
      EntityTypeIds[Lower(Trim(args["ownerType"].s))], args["ownerId"], args["typeId"],
      TrimmedArg(args, "subject"), ObjectOr(args, "fields"), TrimmedArg(args, "description"),
      NumberOrUndefined(Get(args, "responsibleId")), TrimmedArg(args, "startTime"), TrimmedArg(args, "endTime")))])
  {
    var ownerType :- StringArg(args, "ownerType", OwnerTypeStringMessage);
    var ownerId :- PositiveArg(args, "ownerId", OwnerIdMessage);
    var typeId :- PositiveArg(args, "typeId", TypeIdMessage);
    var subject :- StringArg(args, "subject", SubjectMessage);
    var description :- StringArg(args, "description", DescriptionMessage);
    var responsibleId := NumberOrUndefined(Get(args, "responsibleId"));
    var startTime :- StringArg(args, "startTime", StartTimeMessage);
    var endTime :- StringArg(args, "endTime", EndTimeMessage);
    var extra :- EnsureObject(Get(args, "fields"), FieldsWhenProvided);
    var ownerTypeId :- GetOwnerTypeId(ownerType);
    Claimed(Request("crm.activity.add", map["fields" := JObj(ActivityFields(ownerTypeId, ownerId, typeId, subject,
      extra.GetOr(map[]), description, responsibleId, startTime, endTime))]))
  }

  /** `buildActivityRequest(toolName, args)` */
  function BuildActivityRequest(name: string, args: Obj): (r: Built)
    ensures r.NotMine? <==> name !in ToolNames
  {
    if name == "bitrix_create_activity" then
      CreateActivity(args)
    else if name == "bitrix_get_activity" then
      GetById("crm.activity.get", args)
    else if name == "bitrix_list_activities" then
      ListRequest("crm.activity.list", args)
    else if name == "bitrix_update_activity" then
      UpdateById("crm.activity.update", args)
    else if name == "bitrix_complete_activity" then
      var id :- PositiveArg(args, "id", IdMessage);
      Claimed(Request("crm.activity.update", map["id" := id, "fields" := JObj(map["COMPLETED" := JStr("Y")])]))
    else
      NotMine
  }

  /** `bitrix_complete_activity` is an update whose fields are exactly
      `{ COMPLETED: 'Y' }`. */
  lemma CompleteActivityFields(args: Obj)
    ensures var r := BuildActivityRequest("bitrix_complete_activity", args);
      && (r.Claimed? <==> "id" in args && PositiveNumber(args["id"], AcceptInfinity))
      && (r.Claimed? ==> r.request == Request("crm.activity.update", map["id" := args["id"], "fields" := JObj(map["COMPLETED" := JStr("Y")])]))
      && (r.Rejected? ==> r.failure == BadRequest(IdMessage))
  {
  }
}
