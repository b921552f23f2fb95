# bitrix24-mcp-proxy: the tool-call translation engine, in Dafny

The proxy receives MCP `tools/call` requests, each a tool name and a bag of
JSON arguments. It turns each call into one Bitrix24 REST request, a REST
method name such as `crm.deal.get` plus a payload object. Alternatively it
rejects the call with a `BadRequestError` whose message says which argument
is wrong. This project models that translation and proves what it promises:

- the argument guards (`src/mcp/tools/helpers.ts`, `src/mcp/validation.ts` and
  the inline copies at the top of each `api/mcp/tools/*.js` file);
- every domain builder of the TypeScript server (`src/mcp/tools/*.ts`) and of
  the serverless handlers (`api/mcp/tools/*.js`);
- the older single-file handler `api/mcp/tools.js`;
- the two dispatchers, which ask the builders in a fixed order and take the
  first answer;
- the retry policy of `src/core/httpClient.ts`.

Builders are pure, so they are Dafny functions. A builder returns
`Claimed(request)`, `NotMine` (the JavaScript `null`: not one of its tools)
or `Rejected(failure)` (a throw). The guards return failure-compatible
values, so each builder is written with `:-` in its source's guard order,
and the first failing guard decides the message. JSON values are a datatype:
NaN and both infinities are explicit because the guards tell them apart,
and `undefined` is a missing key. The guard copies differ only in whether a
number guard also rejects `Infinity`. That difference is an `InfinityPolicy`
parameter, and each module passes the policy of its own file.

The two dispatch loops and the retry loop are methods. Each is proved equal
to a specification function, and the properties are proved about that
function. The HTTP exchange is a sequence of outcomes given as a parameter.
The sleeps are a ghost log of delays.

Files: `json.dfy`, `text.dfy` (JavaScript `trim`, case mapping, `join`, the
ISO-date pattern), `requests.dfy` (results), `guards.dfy`, `src_*.dfy` (one
per TypeScript builder file, plus `src_patterns.dfy` for the branch shapes
those files repeat), `api_*.dfy` (one per serverless builder file, plus
`api_patterns.dfy`, and `api_tools.dfy` for the single-file handler),
`dispatch.dfy`, `src_index.dfy`, `api_index.dfy` and `http_client.dfy`.

## Model

| member | source | states |
|---|---|---|
| `Guards.EnsureObject` | src/mcp/tools/helpers.ts:12-22 | absent (undefined or null) stays absent; an array or non-object fails with the given message; any other object passes unchanged |
| `Guards.EnsureString` | src/mcp/tools/helpers.ts:27-37 | absent stays absent; a non-string or a string that trims to empty fails; otherwise the trimmed string, never empty |
| `Guards.TrimmedArg` | src/mcp/tools/helpers.ts:27-37 | the trimmed argument exactly when it is present, none when missing |
| `Guards.StringArg` | src/mcp/tools/helpers.ts:27-37 | `ensureString(args[key])`: fails exactly when the argument is present and not an acceptable string |
| `Guards.EnsurePositiveNumber` | src/mcp/tools/helpers.ts:42-48 | passes exactly a non-NaN number greater than zero (finite too under the validation.ts policy) and returns it unchanged; anything else, absence included, fails |
| `Guards.EnsureNonNegativeNumber` | src/mcp/tools/helpers.ts:53-59 | like the positive guard, but zero passes |
| `Guards.GetOptionalNumber` | src/mcp/tools/helpers.ts:64-74 | never fails; a non-NaN number (infinities included) is kept, anything else gives the default |
| `Guards.GetOptionalPositiveNumber` | src/mcp/tools/helpers.ts:79-89 | never fails; keeps exactly the numbers greater than zero, else the default |
| `Guards.EnsureEnum` | src/mcp/tools/helpers.ts:94-100 | exactly the strings in the allowed list pass, unchanged and case-sensitive; the failure message lists the allowed values |
| `Guards.ValidateEntityType` | src/mcp/tools/helpers.ts:105-113 | accepts the four CRM entity names in any letter case and returns the upper-cased input; absent or any other string fails |
| `Guards.ValidateEntityTypeCanonical` | src/mcp/tools/helpers.ts:105-113 | an accepted entity type always comes back as one of `DEAL`, `CONTACT`, `COMPANY`, `LEAD` |
| `Guards.EnsureIsoDate` | src/mcp/tools/helpers.ts:118-134 | absent stays absent; a non-string fails; a string passes exactly when it matches the ISO pattern and is returned untrimmed; the message gets the format hint |
| `Guards.CreateListPayload` | src/mcp/tools/helpers.ts:139-161 | `filter` (default `{}`), `start` and `limit` always; `order` exactly when it has a key; `select` exactly when it is a non-empty array |
| `Guards.EnsureNumber` | src/mcp/validation.ts:37-47 | absent stays absent; non-numbers and NaN fail; infinities fail under the rejecting policy; zero and negatives pass unchanged |
| `Guards.EnsureBoolean` | src/mcp/validation.ts:49-59 | absent stays absent; only `true` and `false` pass |
| `Guards.EnsureArray` | src/mcp/validation.ts:61-71 | absent stays absent; non-arrays fail; arrays pass unchanged |
| `Guards.PositiveNumberInfinityPolicies` | src/mcp/validation.ts:29-35 | the validation.ts guard rejects `Infinity`, which the helpers.ts guard accepts |
| `Guards.PoliciesAgreeOnFinite` | src/mcp/validation.ts:29-47 | on every finite input both policies give the same verdict for the positive and the plain number guards |
| `Text.IsJsWhitespace` | src/mcp/tools/helpers.ts:27-37 | the characters `trim()` strips; among ASCII exactly space and tab through carriage return |
| `Text.SkipLeading` | src/mcp/tools/helpers.ts:27-37 | where `trim()` starts: only whitespace is skipped, and the index reached is the end or a non-whitespace character |
| `Text.SkipTrailing` | src/mcp/tools/helpers.ts:27-37 | where `trim()` ends: only whitespace is cut, and the index reached follows a non-whitespace character or is the start |
| `Text.Trim` | src/mcp/tools/helpers.ts:27-37 | `trim()`: never longer than the input, no whitespace left at either end, and a string without whitespace at its ends comes back unchanged |
| `Text.TrimIsSlice` | src/mcp/tools/helpers.ts:27-37 | `trim()` returns the slice from the first to the last non-whitespace character; only whitespace is removed |
| `Text.TrimEmptyIffBlank` | src/mcp/tools/helpers.ts:27-37 | a string trims to empty exactly when it is all whitespace, which is when `ensureString` rejects it |
| `Text.TrimIdempotent` | src/mcp/tools/helpers.ts:27-37 | trimming twice equals trimming once |
| `Text.Lower` | src/mcp/tools/helpers.ts:105-113 | `toLowerCase` on ASCII letters, position by position, length kept |
| `Text.Upper` | src/mcp/tools/helpers.ts:105-113 | `toUpperCase` on ASCII letters, position by position, length kept |
| `Text.UpperOfLower` | src/mcp/tools/helpers.ts:105-113 | upper-casing a lower-cased string equals upper-casing the original |
| `Text.LowerOfUpper` | src/mcp/tools/helpers.ts:105-113 | lower-casing an upper-cased string equals lower-casing the original |
| `Text.Join` | src/mcp/tools/helpers.ts:94-100 | `join(', ')`: no items give the empty string and one item itself; otherwise the result starts with the first item followed by the separator and ends with the last item |
| `Text.IsoDateRegex` | src/mcp/tools/helpers.ts:128-129 | the regular expression read group by group; what it accepts has length 10, 19, 20, 23 or 24 |
| `Text.IsoDateRegexIsShaped` | src/mcp/tools/helpers.ts:128-129 | every string the ISO regular expression accepts has one of the reference date or date-time shapes |
| `Text.ShapedIsIsoDateRegex` | src/mcp/tools/helpers.ts:128-129 | every reference shape is accepted by the regular expression |
| `Text.IsoDateRegexShapes` | src/mcp/tools/helpers.ts:128-129 | the regular expression accepts exactly the reference shapes |
| `CrmPatterns.PositiveArg` | src/mcp/tools/helpers.ts:42-48 | `ensurePositiveNumber(args[key])` under the helpers.ts policy: passes exactly a positive number, which it returns |
| `CrmPatterns.MergeTitle` | src/mcp/tools/deals.ts:139-145 | `{ TITLE, ...fields }`: every key of `fields` is kept and wins; `TITLE` comes from the title only when `fields` has none; no `TITLE` key when the title is absent |
| `CrmPatterns.GetById` | src/mcp/tools/deals.ts:134-138 | claims exactly for a positive `id` (`Infinity` included) and sends `{ id }`; otherwise fails with the id message |
| `CrmPatterns.CreateTitled` | src/mcp/tools/deals.ts:139-145 | fails exactly for a present bad title (checked first) or a present non-object `fields`; otherwise sends `{ fields: MergeTitle }` |
| `CrmPatterns.UpdateById` | src/mcp/tools/deals.ts:146-154 | claims exactly for a positive `id` and a `fields` object with at least one key, both sent unchanged; the id error comes first, then missing or empty fields, then a non-object |
| `CrmPatterns.ListRequest` | src/mcp/tools/deals.ts:162-169 | fails only for a non-object `filter` or `order`; otherwise `createListPayload` with `start` a positive number or 0 and `limit` 50 by default |
| `CrmPatterns.SearchByFilter` | src/mcp/tools/deals.ts:155-161 | `{ filter: filter or {}, start: 0, limit }`, failing only for a non-object filter |
| `CrmPatterns.Latest` | src/mcp/tools/deals.ts:211-218 | newest first (`order: { DATE_CREATE: 'DESC' }`), empty filter, start 0; `limit` is the given positive number through `getOptionalPositiveNumber`, else 10 |
| `CrmPatterns.ListStartNonNegative` | src/mcp/tools/deals.ts:162-169 | the `start` of a list request is 0 or a positive number |
| `DealTools.BudgetFilter` | src/mcp/tools/deals.ts:185-204 | one filter key per budget bound given: `>=OPPORTUNITY` for the minimum, `<=OPPORTUNITY` for the maximum |
| `DealTools.BuildDealRequest` | src/mcp/tools/deals.ts:133-224 | claims exactly the names of the deal catalogue |
| `DealTools.CreateDealTitleOverride` | src/mcp/tools/deals.ts:139-145 | with a `TITLE` inside `fields`, the request sends `fields` unchanged, whatever the title argument |
| `DealTools.BudgetFilterBounds` | src/mcp/tools/deals.ts:185-204 | fails exactly when neither bound is of number type; otherwise the filter has exactly one key per number bound, holding it |
| `DealTools.StagesAndPipelineCategory` | src/mcp/tools/deals.ts:174-184 | stages use `categoryId` when it is a number, else 0; the pipeline filter needs a positive one |
| `DealTools.StatusFilter` | src/mcp/tools/deals.ts:205-210 | a missing stage id leaves an empty filter; a given one is trimmed into `STAGE_ID` |
| `ContactTools.WorkValue` | src/mcp/tools/contacts.ts:115-135 | the one-element `[{ VALUE, VALUE_TYPE: 'WORK' }]` list holding the value |
| `ContactTools.WorkValueOpt` | src/mcp/tools/contacts.ts:115-135 | the work list exactly when a value is given |
| `ContactTools.SearchFilter` | src/mcp/tools/contacts.ts:160-191 | `%NAME` from `name`, else from `query`; `PHONE` and `EMAIL` exactly when given |
| `ContactTools.FindContact` | src/mcp/tools/contacts.ts:90-114 | with valid arguments, fails exactly when neither phone nor email is given; the filter holds exactly the given trimmed values; `select` is the fixed five-field list |
| `ContactTools.ContactFields` | src/mcp/tools/contacts.ts:115-135 | `NAME`, `LAST_NAME`, `PHONE`, `EMAIL` exactly for the given values, the last two as `WORK` lists |
| `ContactTools.CreateContact` | src/mcp/tools/contacts.ts:115-135 | a missing first name is accepted; each given argument must be a non-blank string, checked in order firstName, lastName, phone, email, the first bad one giving its own message; the fields are the trimmed values |
| `ContactTools.BuildContactRequest` | src/mcp/tools/contacts.ts:89-197 | claims exactly the names of the contact catalogue |
| `ContactTools.SearchContactsCriteria` | src/mcp/tools/contacts.ts:160-191 | fails when no criterion is given; `name` wins over `query` for `%NAME` |
| `CompanyTools.BuildCompanyRequest` | src/mcp/tools/companies.ts:87-138 | claims exactly the names of the company catalogue |
| `CompanyTools.SearchCompaniesByTitle` | src/mcp/tools/companies.ts:116-124 | filters on `%TITLE` with the trimmed query; a missing query leaves the filter empty |
| `LeadTools.BuildLeadRequest` | src/mcp/tools/leads.ts:106-182 | claims exactly the names of the lead catalogue |
| `LeadTools.DateRangeChecks` | src/mcp/tools/leads.ts:154-176 | the date formats are checked first (from, then to), presence of both only afterwards: a bad `dateTo` after a valid `dateFrom` gets the `dateTo` message, a missing one the "both required" message; on success both dates bound `DATE_CREATE`, newest first, `limit` through `getOptionalPositiveNumber` with default 50 |
| `LeadTools.LeadStatusesConstant` | src/mcp/tools/leads.ts:142-145 | the lead statuses request is the same for every argument bag |
| `TaskTools.TaskBase` | src/mcp/tools/tasks.ts:98-131 | `{ TITLE, RESPONSIBLE_ID, ...fields }`: keys of `fields` win over the two named ones |
| `TaskTools.TaskOverrides` | src/mcp/tools/tasks.ts:98-131 | `DESCRIPTION`, `DEADLINE`, `PRIORITY`, `GROUP_ID` are written exactly when given, over whatever was there; other keys are untouched |
| `TaskTools.TaskFields` | src/mcp/tools/tasks.ts:110-127 | the keys are those of `fields`, `RESPONSIBLE_ID`, and `TITLE`, `DESCRIPTION`, `DEADLINE`, `PRIORITY`, `GROUP_ID` when given; every key of `fields` not overwritten afterwards keeps its value |
| `TaskTools.TaskFieldsArguments` | src/mcp/tools/tasks.ts:110-127 | `DESCRIPTION`, `DEADLINE`, `PRIORITY`, `GROUP_ID` arguments always win; `TITLE` and `RESPONSIBLE_ID` come from the arguments unless `fields` holds them |
| `TaskTools.TaskFieldsPrecedence` | src/mcp/tools/tasks.ts:98-131 | a `description` argument beats a `DESCRIPTION` inside `fields`, which beats the title for `TITLE` |
| `TaskTools.CreateTask` | src/mcp/tools/tasks.ts:98-131 | guards run in order title, responsibleId, description, deadline, fields, each failing with its own message once the earlier ones pass; claims exactly when all pass, with the `TaskFields` payload; `priority` and `groupId` are kept only when numbers and never fail |
| `TaskTools.ListTasks` | src/mcp/tools/tasks.ts:146-162 | a non-object `filter` fails with its message, then a non-object `order` with its own; `start` and `limit` always; `filter` and `order` exactly when given as objects, even empty ones |
| `TaskTools.BuildTaskRequest` | src/mcp/tools/tasks.ts:97-183 | claims exactly the names of the task catalogue |
| `TaskTools.TaskIdKey` | src/mcp/tools/tasks.ts:132-145 | get and update read `id` and send it as `taskId`; update needs a non-empty `fields` |
| `TaskTools.TaskCommentPayloads` | src/mcp/tools/tasks.ts:163-181 | comments and checklist need a positive `taskId`, sent as `TASKID`; the comment goes under `FIELDS.POST_MESSAGE`, trimmed |
| `ActivityTools.GetOwnerTypeId` | src/mcp/tools/activities.ts:88-94 | the id of the lower-cased owner type; an unknown name is a bad request; an absent one is a `TypeError` |
| `ActivityTools.OwnerTypeCaseInsensitive` | src/mcp/tools/activities.ts:88-94 | each of the four owner names maps to its id in any letter case |
| `ActivityTools.ActivityBase` | src/mcp/tools/activities.ts:97-136 | `{ OWNER_TYPE_ID, OWNER_ID, TYPE_ID, SUBJECT, ...fields }`: keys of `fields` win |
| `ActivityTools.ActivityOverrides` | src/mcp/tools/activities.ts:97-136 | `DESCRIPTION`, `RESPONSIBLE_ID`, `START_TIME`, `END_TIME` are written exactly when given; other keys are untouched |
| `ActivityTools.ActivityFields` | src/mcp/tools/activities.ts:113-132 | the keys are those of `fields`, the three owner and type keys, and `SUBJECT`, `DESCRIPTION`, `RESPONSIBLE_ID`, `START_TIME`, `END_TIME` when given; every key of `fields` not overwritten afterwards keeps its value |
| `ActivityTools.ActivityFieldsOverrides` | src/mcp/tools/activities.ts:122-133 | `DESCRIPTION`, `RESPONSIBLE_ID`, `START_TIME`, `END_TIME` arguments always win over `fields` |
| `ActivityTools.ActivityFieldsArguments` | src/mcp/tools/activities.ts:113-119 | `OWNER_TYPE_ID`, `OWNER_ID`, `TYPE_ID` and `SUBJECT` come from the arguments unless `fields` holds them |
| `ActivityTools.ActivityFieldsPrecedence` | src/mcp/tools/activities.ts:97-136 | an `OWNER_ID` inside `fields` beats the argument; a `responsibleId` argument beats the one inside `fields` |
| `ActivityTools.CreateActivity` | src/mcp/tools/activities.ts:97-136 | the guards ownerType, ownerId, typeId, subject, description, startTime, endTime, fields run in that order, each failing with its own message once the earlier ones pass, and all of them before the owner type is mapped (no failed guard yields the owner-type message); a missing owner type ends in a `TypeError` |
| `ActivityTools.BuildActivityRequest` | src/mcp/tools/activities.ts:96-165 | claims exactly the names of the activity catalogue |
| `ActivityTools.CompleteActivityFields` | src/mcp/tools/activities.ts:159-163 | completing is an update whose fields are exactly `{ COMPLETED: 'Y' }` |
| `UserTools.FlatPayload` | src/mcp/tools/users.ts:52-66 | `{ start }` with every filter entry written over it: a filter key `start` replaces the start |
| `UserTools.CopyFilterEntries` | src/mcp/tools/users.ts:52-66 | the entry-by-entry copy loop produces exactly the flat payload |
| `UserTools.ActivityFilter` | src/mcp/tools/users.ts:76-98 | `RESPONSIBLE_ID` always; each date bound exactly when given |
| `UserTools.BuildUserRequest` | src/mcp/tools/users.ts:51-100 | claims exactly the names of the user catalogue |
| `UserTools.ListUsersFlattens` | src/mcp/tools/users.ts:52-66 | listing users never fails on `start`; the filter's entries become top-level keys and a filter key `start` wins |
| `UserTools.UserActivityFilter` | src/mcp/tools/users.ts:76-98 | the payload is exactly `{ filter, start: 0, limit }` with `limit` 50 by default; `RESPONSIBLE_ID` always; each date bound only when given and only with an ISO shape |
| `UtilTools.CommentFields` | src/mcp/tools/utils.ts:112-130 | `{ ENTITY_ID, ENTITY_TYPE, COMMENT }`, with `COMMENT` only when given |
| `UtilTools.AddComment` | src/mcp/tools/utils.ts:112-130 | type, id and comment are checked as values first, each with its own message, the entity-type membership afterwards with the "must be one of" message; a missing comment is accepted |
| `UtilTools.AddTimelineComment` | src/mcp/tools/utils.ts:151-175 | the comment fields plus `AUTHOR_ID` exactly when `authorId` is a number |
| `UtilTools.UploadFile` | src/mcp/tools/utils.ts:213-228 | folderId, fileName, fileContent are checked in that order, each failing with its own message; the content always goes out named `file.txt`; the given name goes only into `data.NAME` |
| `UtilTools.BuildUtilRequest` | src/mcp/tools/utils.ts:110-262 | claims exactly the names of the utility catalogue |
| `UtilTools.CommentEntityTypeUpper` | src/mcp/tools/utils.ts:112-130 | the entity type is sent upper-cased, whatever its case in the call |
| `UtilTools.EntityIdCheckedFirst` | src/mcp/tools/utils.ts:112-130 | a bad `entityId` is reported before an unknown entity type |
| `UtilTools.StatusListFilter` | src/mcp/tools/utils.ts:176-187 | a `filter` is always sent, holding `ENTITY_ID` only when given |
| `UtilTools.CallStatisticsDates` | src/mcp/tools/utils.ts:188-207 | both dates are required and sent under `FILTER` |
| `ItemTools.ItemList` | src/mcp/tools/items.ts:78-85 | filter `{}`, select `['*']`, order `{}`, start 0 by default; a given value of the right kind is sent unchanged |
| `ItemTools.BuildItemRequest` | src/mcp/tools/items.ts:76-127 | claims exactly the names of the item catalogue |
| `ItemTools.EntityTypeIdEchoed` | src/mcp/tools/items.ts:78-116 | every item tool but the type tools rejects a missing, non-positive or infinite `entityTypeId` first, and otherwise echoes it |
| `ItemTools.AddAllowsEmptyUpdateDoesNot` | src/mcp/tools/items.ts:91-107 | adding accepts an empty `fields` object; updating rejects it |
| `ItemTools.ItemAddNeedsFields` | src/mcp/tools/items.ts:91-98 | add claims exactly when `fields` is an object and sends `{ entityTypeId, fields }`; a missing `fields` is "fields is required", any other value "fields must be an object" |
| `ItemTools.ItemUpdateNeedsFields` | src/mcp/tools/items.ts:99-107 | update sends `{ entityTypeId, id, fields }` exactly when `fields` has a key; a missing one gets the at-least-one-field message |
| `ItemTools.TypeTools` | src/mcp/tools/items.ts:117-124 | the type tools need no `entityTypeId` |
| `MiscTools.TimelineCommentAdd` | src/mcp/tools/misc.ts:59-82 | entityType, entityId, comment are checked in that order with their messages; a missing type or comment is "required"; an unknown entity type fails with the list of the four names; the entity type is matched and sent lower-cased |
| `MiscTools.Batch` | src/mcp/tools/misc.ts:83-90 | a non-empty `cmd` object is required and sent unchanged; `halt` must be a boolean if given and becomes 1 for true, else 0 |
| `MiscTools.TelephonyPayload` | src/mcp/tools/misc.ts:91-104 | `FILTER` and `START` always; `SORT` and `ORDER` exactly when given |
| `MiscTools.TelephonyCallList` | src/mcp/tools/misc.ts:91-104 | claims exactly when the guards pass; `FILTER` defaults to `{}` and `START` to 0, a given finite number being kept |
| `MiscTools.CrmStatusList` | src/mcp/tools/misc.ts:113-120 | `{}` without an entity id, `{ filter: { ENTITY_ID } }` with one |
| `MiscTools.BuildMiscRequest` | src/mcp/tools/misc.ts:57-127 | claims exactly the names of the misc catalogue |
| `MiscTools.ImMessageRequiresBoth` | src/mcp/tools/misc.ts:105-112 | both a dialog and a message are required |
| `MiscTools.WebhookStatusConstant` | src/mcp/tools/misc.ts:121-124 | `app.info` with `{}`, whatever the arguments |
| `ApiPatterns.ListRequest` | api/mcp/tools/deals.js:115-121 | claims exactly when filter, select, order and start pass, checked in that order with their own messages; defaults `{}`, `['*']`, `{}`, 0; given values unchanged |
| `ApiPatterns.ById` | api/mcp/tools/deals.js:122-125 | `{ [payloadKey]: id }` for an id greater than zero under the file's policy, else the file's message |
| `ApiPatterns.AddWithRequired` | api/mcp/tools/deals.js:126-132 | a `fields` object whose required keys are all truthy is sent unchanged; otherwise the message |
| `ApiPatterns.UpdateWithFields` | api/mcp/tools/deals.js:133-140 | a positive id and a `fields` object with at least one key, both sent unchanged; each failure with its own message |
| `ApiDealTools.StageList` | api/mcp/tools/deals.js:151-154 | a given number is kept even when zero or negative; only a missing one becomes 0; a non-number fails |
| `ApiDealTools.BuildDealRequest` | api/mcp/tools/deals.js:113-168 | claims exactly the names of `dealTools` |
| `ApiDealTools.DealListDefaultsAndIds` | api/mcp/tools/deals.js:115-125 | the default list asks for everything from the start; the id tools need a finite positive id |
| `ApiDealTools.DealAddRequirements` | api/mcp/tools/deals.js:126-164 | add needs a truthy `TITLE`, userfield add a truthy `FIELD_NAME` and `USER_TYPE_ID`; `fields` goes out unchanged |
| `ApiLeadTools.YesNo` | api/mcp/tools/leads.js:130-146 | `'Y'` for true, `'N'` for false |
| `ApiLeadTools.LeadConvert` | api/mcp/tools/leads.js:130-146 | a positive id, then three optional booleans in order deal, contact, company, each failing with its own "must be a boolean" message once the earlier ones pass, each false when missing, sent as Y/N |
| `ApiLeadTools.BuildLeadRequest` | api/mcp/tools/leads.js:95-153 | claims exactly the names of `leadTools` |
| `ApiLeadTools.LeadConvertDefaults` | api/mcp/tools/leads.js:130-146 | with no flags nothing is created; a non-boolean flag is an error, not false |
| `ApiContactTools.SearchByPhone` | api/mcp/tools/contacts.js:122-131 | a blank or non-string phone fails the guard; a missing one is required; the trimmed phone is looked up among contacts |
| `ApiContactTools.BuildContactRequest` | api/mcp/tools/contacts.js:87-135 | claims exactly the names of `contactTools` |
| `ApiContactTools.ContactAddAndListStart` | api/mcp/tools/contacts.js:89-106 | add needs a `fields` object and nothing in it; list refuses an infinite `start` |
| `ApiCompanyTools.BuildCompanyRequest` | api/mcp/tools/companies.js:74-112 | claims exactly the names of `companyTools` |
| `ApiCompanyTools.CompanyAddTitle` | api/mcp/tools/companies.js:87-93 | add needs a truthy `TITLE`: an empty title is refused like a missing one |
| `ApiActivityTools.BuildActivityRequest` | api/mcp/tools/activities.js:74-112 | claims exactly the names of `activityTools` |
| `ApiActivityTools.ActivityAddOwner` | api/mcp/tools/activities.js:87-93 | add needs truthy `OWNER_TYPE_ID`, `OWNER_ID` and `TYPE_ID`; an owner id of 0 is refused |
| `ApiTaskTools.BuildTaskRequest` | api/mcp/tools/tasks.js:69-104 | claims exactly the names of `taskTools` |
| `ApiTaskTools.TaskCloseAndGet` | api/mcp/tools/tasks.js:78-100 | close goes to `tasks.task.complete` with the same `{ taskId }` as get; an `id` argument is ignored |
| `ApiTaskTools.TaskAddRequirements` | api/mcp/tools/tasks.js:82-88 | add needs truthy `TITLE` and `RESPONSIBLE_ID` |
| `ApiUserTools.UserList` | api/mcp/tools/users.js:61-65 | claims exactly when filter and start pass; `{ filter, start }` with `{}` and 0 by default |
| `ApiUserTools.UserSearch` | api/mcp/tools/users.js:70-79 | the search string is checked first, then the list guards with their messages; the payload is the list payload plus `FIND`, trimmed, exactly when given |
| `ApiUserTools.BuildUserRequest` | api/mcp/tools/users.js:59-86 | claims exactly the names of `userTools` |
| `ApiUserTools.UserListAndSearchDefaults` | api/mcp/tools/users.js:61-79 | without arguments list and search send the same `{ filter: {}, start: 0 }` to `user.get` and `user.search` |
| `Dispatch.UnknownTool` | src/mcp/tools/index.ts:67 | the message is `Unknown tool: ` followed by the name |
| `Dispatch.NormalizeArgs` | src/mcp/tools/index.ts:57 | an object argument is used as is; anything else becomes `{}` |
| `Dispatch.FirstClaim` | src/mcp/tools/index.ts:60-65 | none claims exactly when every builder returns null; otherwise the answer of a builder all of whose predecessors returned null |
| `Dispatch.Dispatch` | src/mcp/tools/index.ts:52-68 | empty name is rejected; a claim becomes the request; a builder's error propagates; no claim is `Unknown tool` |
| `Dispatch.RunBuilders` | src/mcp/tools/index.ts:52-68 | the loop with early returns computes exactly `Dispatch` |
| `Dispatch.FirstIndex` | src/mcp/tools/index.ts:76-78 | found exactly when present; the index holds the name and no earlier entry does |
| `Dispatch.FirstClaimSkipsUnclaimed` | src/mcp/tools/index.ts:60-65 | builders in front that return null for a name change nothing for it |
| `Dispatch.SoleClaimant` | src/mcp/tools/index.ts:60-65 | when exactly one builder claims a name, the dispatch answer is that builder's, wherever it stands |
| `ToolIndex.BuildBitrixRequest` | src/mcp/tools/index.ts:52-68 | equals `Dispatch` over the eight builders in the source's order |
| `ToolIndex.GetToolNames` | src/mcp/tools/index.ts:71-73 | the catalogue in definition order (deal, contact, company, lead, ...), 62 names, covering exactly the builders' names |
| `ToolIndex.GetToolByName` | src/mcp/tools/index.ts:76-78 | the first catalogue position holding the name, or none exactly when it is not listed |
| `ToolIndex.BuilderClaimsItsNames` | src/mcp/tools/index.ts:38-47 | each builder returns null exactly for the names outside its own catalogue |
| `ToolIndex.UnknownExactlyOutsideCatalogue` | src/mcp/tools/index.ts:52-68 | a name reaches `Unknown tool` exactly when `getToolNames` does not list it |
| `ApiToolIndex.Concat` | api/mcp/tools/index.js:12-22 | a name is in the concatenation exactly when it is in one of the lists |
| `ApiToolIndex.AllToolNames` | api/mcp/tools/index.js:12-22 | the nine catalogues in builder order, 60 names |
| `ApiToolIndex.BuildBitrixRequest` | api/mcp/tools/index.js:24-51 | equals `Dispatch` over the nine builders in the source's order |
| `ApiToolIndex.BuilderClaimsItsNames` | api/mcp/tools/index.js:31-41 | each builder returns null exactly for the names outside its own catalogue |
| `ApiToolIndex.UnknownExactlyOutsideCatalogue` | api/mcp/tools/index.js:24-51 | a name reaches `Unknown tool` exactly when `allToolDefinitions` does not list it |
| `ApiToolIndex.DealBuilderFirst` | api/mcp/tools/index.js:31-48 | a deal tool is answered by the deal builder with the normalised arguments, whatever the later builders say |
| `ApiMonolith.NormalizeWebhookBase` | api/mcp/tools.js:135 | exactly one trailing slash is removed; nothing else changes |
| `ApiMonolith.SearchDeals` | api/mcp/tools.js:277-285 | fails only for a non-object filter; `limit` is any given number, else 50; `start` is 0 |
| `ApiMonolith.Branch` | api/mcp/tools.js:169-348 | claims exactly the thirteen names of `toolDefinitions` |
| `ApiMonolith.BuildBitrixRequest` | api/mcp/tools.js:169-349 | empty name rejected; unknown names get `Unknown tool`; a listed name gets its branch's request or error |
| `ApiMonolith.AgreesOnDeals` | api/mcp/tools.js:176-208 | the model routes get, create and update deal through the TypeScript deal builder's functions; this records the routing, it is not an independent comparison |
| `ApiMonolith.AgreesOnContacts` | api/mcp/tools.js:210-275 | the model routes the four contact tools (get contact at lines 315-318) through the TypeScript contact builder's functions; a record of the routing |
| `ApiMonolith.AgreesOnComment` | api/mcp/tools.js:287-313 | the model routes `bitrix_add_comment` through the TypeScript utility builder, with the entity-type check read as in helpers.ts; a record of the routing |
| `ApiMonolith.AgreesOnCompanies` | api/mcp/tools.js:320-332 | the model routes the two company tools through the TypeScript company builder; a record of the routing |
| `ApiMonolith.AgreesOnLeads` | api/mcp/tools.js:334-346 | the model routes the two lead tools through the TypeScript lead builder; a record of the routing |
| `ApiMonolith.AgreesWithTypeScript` | api/mcp/tools.js:176-346 | in the model, twelve of the thirteen tools are routed to the TypeScript builders of the same name, messages included; this holds by construction of the model, and the differences are in `SearchDealsLimitDiverges` and under "Left out" (the entity-type lookup) |
| `ApiMonolith.SearchDealsLimitDiverges` | api/mcp/tools.js:277-285 | a `limit` of 0 or NaN is sent as given here, where the TypeScript builder sends 50 |
| `HttpClient.MaxRetries` | src/core/httpClient.ts:23 | at least one attempt, and exactly the configured count when that is at least 1 |
| `HttpClient.Succeeded` | src/core/httpClient.ts:68 | an exchange succeeds exactly when it is an answer with a 2xx status |
| `HttpClient.AsFailure` | src/core/httpClient.ts:68-75 | a non-2xx answer becomes `Request failed` with status and body; a transport error keeps its code and message, without a status |
| `HttpClient.IsRetryable` | src/core/httpClient.ts:25-33 | a failure is final exactly when it is not a timeout and carries a status below 500 other than 429 |
| `HttpClient.BodyField` | src/core/httpClient.ts:37-49 | `data?.[key]`: present exactly when the body is an object holding the key |
| `HttpClient.NormalizeError` | src/core/httpClient.ts:37-49 | message is the truthy `error_description`, else the truthy `error`, else the error message; status, code and body carried over |
| `HttpClient.Retry` | src/core/httpClient.ts:57-98 | attempts stay within the bound; the k-th sleep is `delay * k`; every attempt before the last failed retryably; success returns the body; a throw is the normalised last error, non-retryable or at the bound |
| `HttpClient.SendWithRetry` | src/core/httpClient.ts:57-98 | the loop's result, attempt count and sleeps are exactly those of `Retry` from the first attempt |
| `HttpClient.BackoffIsLinear` | src/core/httpClient.ts:93 | sleeps are `delay * 1, delay * 2, ...`, one fewer than attempts, strictly growing for a positive delay |
| `HttpClient.FirstAttemptDecides` | src/core/httpClient.ts:68-91 | a first-attempt success returns at once and a non-retryable failure throws at once, without sleeping |
| `HttpClient.AtLeastOneAttempt` | src/core/httpClient.ts:23 | a retry count of 1 or less still makes exactly one attempt |
| `HttpClient.RetryableFailuresExhaustAttempts` | src/core/httpClient.ts:61-91 | all-retryable failures use every allowed attempt and throw the last one, normalised |
| `HttpClient.RetryClassification` | src/core/httpClient.ts:25-33 | 429 and 503 are retried; 404 and status 0 are not; a transport error without a response always is |

## Left out

- Transport, configuration and logging are not modelled. That covers the axios instance, the HTTP adapters and routers, environment and configuration loading, `console.error` and the real timer behind `delay`. The HTTP exchange is a parameter (`outcomes`), and sleeps are a ghost log.
- Numbers are reals plus explicit NaN and infinities. IEEE rounding is not modelled. No builder does arithmetic on an argument.
- Tool descriptions and input schemas are not modelled; the catalogues keep the tool names only.
- JavaScript prototype-chain lookups are not modelled. Entity-type tables are four-key maps, so a name such as `constructor` is simply unknown.
- Arguments given as `null` to a dispatcher are excluded by a precondition (`NormalizeArgs`). In the source `null` passes the object test; a tool whose branch reads an argument then crashes reading a property of `null`, while a tool that reads none (such as `bitrix_get_deal_categories`) answers normally and an unknown name still gets `Unknown tool`.
- Case mapping covers ASCII letters only. For the four entity names this is exact, since no non-ASCII character maps onto them.
- A key whose value is `undefined` is treated as absent, as JSON serialisation treats it. For `bitrix_upload_file` without content, the `undefined` inside the array is modelled as the `null` JSON sends.
- The TypeScript dispatcher in src/mcp/tools/index.ts does not include the item and misc builders; the model follows that.
- api/mcp/tools/items.js and api/mcp/tools/misc.js are not part of this model. The serverless index imports them; their builders are taken to be the TypeScript `ItemTools` and `MiscTools`.
- HttpClient.MaxRetries: a non-integer or NaN retry count from the configuration is not modelled; the count is an integer.
- HttpClient.SendWithRetry: the trailing `throw normalizeError(lastError)` after the loop is unreachable, because the loop always returns or throws; the model proves this instead of modelling it.
- ApiMonolith.AgreesWithTypeScript: the agreement holds in the model only. The monolith tests the entity type with the object lookup `entityTypeMap[entityType.toLowerCase()]` (api/mcp/tools.js:299), which also finds the inherited properties `constructor` and `__proto__` (in any letter case) and sends them upper-cased; `validateEntityType` uses `includes` (src/mcp/tools/helpers.ts:108) and rejects them. The model reads both as the `includes` test.
- ToolIndex.BuilderClaimsItsNames: pairwise disjointness of the builders' name lists is not proved. `SoleClaimant` gives dispatch order-independence for any name exactly one builder claims.
