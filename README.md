# open_virapi mock gateway and console, modelled in Dafny

open_virapi is a mock-API server. A user registers applications; each
application holds interfaces, and each interface is a mocked endpoint with a
verb, a uri and generation rules for its response data. A client request to
`/api/{vir_uid}/{slug}/{uri}` goes through the `validateAppUrl` middleware:

- the owner and the application must be active;
- the token the application's `verify_rule` selects must equal its `app_key`;
- the newest exactly matching interface answers with the application's
  response envelope around generated data;
- the request is appended to the request log, with a success flag.

The console side is a set of `/ajax` routes behind the `validateUser`
session guard. They create, edit, copy, move and delete applications and
interfaces through the services, and answer with the base controller's
`{code, message, data}` bodies; errors are turned into bodies by the
`errorHandler` middleware.

The model is organised by the program's own structure:

| file | models |
|---|---|
| `json.dfy` | JavaScript values, truthiness, `String(v)`, `Number(s)`, the code getter |
| `text.dfy`, `tables.dfy`, `common.dfy` | string helpers, the query shapes on in-memory tables, `Option`/`Result` |
| `user_model.dfy`, `application_model.dfy`, `interface_model.dfy` | the three mongoose schemas |
| `envelope.dfy` | the per-application response envelopes and the log's success flag |
| `store.dfy` | the `Database` class holding the users, applications and interfaces tables |
| `router.dfy` | the gateway pattern and the console route table |
| `gateway.dfy` | `validateAppUrl`, the log record and the request log |
| `http_controller.dfy` | the gateway's HTTP controller |
| `user_service.dfy`, `application_service.dfy`, `interface_service.dfy` | the services, as methods that change the `Database` |
| `context.dfy` | the request context (`ctx`) as a class with status, body, redirect, session, cookies and current user |
| `base_controller.dfy`, `helper.dfy` | the console bodies and the response helpers |
| `console_application.dfy`, `console_interface.dfy`, `console_log.dfy` | the console controllers |
| `validate_user.dfy`, `error_handler.dfy` | the session guard and the error middleware |

The collections are sequences in insertion order. `findOne` is the first
match, and an `_id` is handed out by a counter that only grows, so a larger
id means a later record. Mock data generation (`Mock.mock`) is a function
parameter `gen`. The clock, hashing (`genHash`), random numbers, `encodeURI`,
the decrypted signed cookie, and the store's write acknowledgement
(`res.ok`) are also parameters.

Each service operation has a specification function (`PlanInsert`,
`PlanUpdate`, `PlanCopy`, `PlanInsertApi`, `PlanUpdateApi`, `PlanTarget`,
`PlanUserUpdate`) that gives the checks in source order and the error each
one throws. The method that changes the tables is proved against that
function. Lemmas then prove the invariants the services keep:

- no two applications of one user share a name or a slug;
- within one application no two interfaces share a name, nor a method and a
  uri;
- the caps of 20 applications and 30 interfaces;
- protected fields never change on an update;
- the counters move by exactly the amount the source gives, and a decrease
  undoes an increase.

## Model

| member | source | states |
|---|---|---|
| Json.NumStringDigits | app/model/application.js:121-122 | the string of an integer passes `/^\d+$/` exactly when the integer is not negative |
| Json.NormaliseCode | app/model/application.js:120-124 | the getter either leaves a code value unchanged or, for a value whose string is all digits, gives a non-negative integer |
| Json.NormaliseKeepsNumbers | app/model/application.js:121-122 | every integer code is left as it is |
| Json.NormaliseDigitString | app/model/application.js:121-122 | a digit string becomes its `parseInt` value |
| Json.NormaliseKeepsNonDigits | app/model/application.js:121-122 | a value whose string is not all digits is left as it is |
| Json.NormaliseIdempotent | app/model/application.js:120-124 | applying the getter twice equals applying it once |
| Json.RenderCodeQuoted | app/service/application.js:433 | the exported document writes a code without quotes exactly when its string is all digits; otherwise the quotes enclose that string |
| Json.RenderCodeOfInteger | app/service/application.js:433 | a non-negative integer code is written as its decimal digits |
| Json.RenderNormalisedDigits | app/service/application.js:444 | for a digit-string code the document writes the integer the getter makes of it, without leading zeros |
| Json.NumberOfDecimal | app/service/user.js:81 | `Number` reads a decimal rendering back as its number, with or without a minus sign (used for the loose `== 1`) |
| ApplicationModel.NormaliseTemplate | app/model/application.js:120-124 | the getter changes no template field except the two code values |
| ApplicationModel.NormaliseTemplateIdempotent | app/model/application.js:120-124 | reading a template twice changes nothing further |
| ApplicationModel.NormaliseTemplateCodes | app/model/application.js:121-122 | digit-string codes become integers; codes whose string is not all digits stay |
| ApplicationModel.DefaultTemplateIsNormal | app/model/application.js:109-119 | the default template (`code`, 200, 1000, `data`, `message`, `Succeed`, `Failed`) is already in normal form, and both its message and data switches are on |
| ApplicationModel.SlugCreateIsStricter | app/model/application.js:71 | every slug the create rule accepts (4..20 characters) fits the schema (2..20), but the schema also takes `ab` |
| ApplicationModel.StatusNames | app/model/application.js:128-135 | statuses 0, 1 and -1 have three different names, and exactly the other statuses are unknown |
| ApplicationModel.IconShownReadsBack | app/model/application.js:59-62 | the shown icon is empty exactly when the stored one is, and otherwise `/images` followed by the stored path |
| ApplicationModel.IconShownInjective | app/model/application.js:59-62 | two applications show the same icon only when they store the same one |
| UserModel.EmailOkHasParts | app/model/user.js:40 | every address the e-mail pattern accepts is local part, `@`, domain, `.`, top-level domain, each of its character class and length |
| UserModel.EmailOkOfParts | app/model/user.js:40 | every such triple is accepted, so the pattern is exactly that set |
| UserModel.StatusNames | app/model/user.js:72-78 | statuses 0 and 1 have different names; every other status, including the -1 that deletion writes, is unknown |
| InterfaceModel.UriStoredIsOneSegment | app/model/interface.js:44 | a uri the schema stores holds no `/`, `{` or `}` |
| InterfaceModel.NestedUriNotStorable | app/model/interface.js:44 | a record whose trimmed uri holds a `/` fails schema validation, whatever its other fields |
| Envelope.InterfaceSucceed | app/service/interface.js:277-287 | the keys are the code name, the message name when set, and the data name when set and the data is not null; with distinct names each key holds its template value, and the data key holds the data |
| Envelope.InterfaceFailed | app/service/interface.js:294-301 | the keys are the code name and the message name when set; the message is the given one when truthy, the template's failure message otherwise |
| Envelope.ApplicationSucceed | app/service/application.js:276-286 | among the named properties the application service sets, the data key is kept whenever the data name is set, even for null data |
| Envelope.ApplicationFailed | app/service/application.js:293-300 | the named properties the application service sets on its failure body are the interface service's keys with the same values, for every template and message |
| Envelope.HttpSuccess | app/controller/api/http.js:7-20 | the HTTP controller keeps the data key only for truthy data |
| Envelope.SucceedShapeStable | app/service/interface.js:277-287 | two success bodies of one template, both with data or both without, have the same keys and agree on every key but the data |
| Envelope.SucceedBuildersDiffer | app/service/interface.js:283 | the three success builders set the same keys and values on truthy data; on null only the application service keeps the data key, and on `0` the interface service keeps it while the HTTP controller drops it |
| Envelope.ResultFlag | app/middleware/validateAppUrl.js:82 | the log's result flag is 1 or 0 |
| Envelope.SucceedIsLoggedAsSuccess | app/middleware/validateAppUrl.js:82 | with distinct names, a success body is logged as a success exactly when the success code is defined |
| Envelope.FailedIsLoggedAsFailure | app/middleware/validateAppUrl.js:82 | a failure body is logged as a failure whenever the failure and success codes differ |
| Router.ParseGatewayPathSound | app/router.js:16 | a parsed path is exactly `/api/` + vir_uid + `/` + slug + `/` + uri, each part of the pattern's character class |
| Router.ParseGatewayPathComplete | app/router.js:16 | every such path parses back to its parts, so the three captures of a matching path are unique |
| Router.GatewayRoute | app/router.js:16-19 | a request reaches the gateway exactly when its verb is GET, POST, PUT or DELETE, or HEAD (which the router answers on every GET route), and its path matches the pattern |
| Router.Lookup | app/router.js:9-25 | the route found matches and no route registered before it matches, with the verb (HEAD also taking a GET route), one optional trailing slash and ASCII letters in either case; no route is found exactly when none matches |
| Router.LookupGuarded | app/router.js:27-49 | the same first-match rule for the endpoints registered behind `validateUser`, where each resource's update answers both PATCH and PUT |
| Router.DispatchIn | app/router.js:9-49 | for any route tables: the gateway first, then the first matching open route, then the first matching guarded endpoint; no target exactly when neither the gateway nor any route matches |
| Router.Dispatch | app/router.js:9-49 | over the registered tables: the gateway takes a request exactly when its route matches; otherwise the first matching open route wins, then the first matching guarded endpoint; nothing answers exactly when nothing matches |
| Router.OpenRoutesFirst | app/router.js:9-25 | a request an open route takes never reaches a guarded endpoint: outside the gateway it goes to an open route |
| Router.LookupGuardedAt | app/router.js:27-49 | the guarded endpoint found is the one at a given position when it matches and no earlier one does |
| Router.ListPathMatches | app/router.js:27-48 | on a path of segments `ajax/application/list`, GET matches no open route, none of the first five guarded endpoints, and `application/list` |
| Router.ListPathDispatch | app/router.js:36-48 | such a GET reaches `application.list` |
| Router.ApplicationListWins | app/router.js:36-48 | `GET /ajax/application/list` reaches `application.list` |
| Router.ShowRouteAlsoMatches | app/router.js:36-48 | the later `application/:id` show route matches that request too, so registration order decides it |
| Router.LoginRouteOnly | app/router.js:25 | the login route matches only POST, and only paths that read `/ajax/login` once a trailing slash is dropped and letters are lower-cased |
| Router.LoginRouteMatches | app/router.js:25 | every POST path that reads `/ajax/login` after that normalisation reaches the login route |
| Router.LoginRouteTakesVariants | app/router.js:25 | `POST /AJAX/Login/` reaches the login route |
| Router.AjaxRequestsGuarded | app/router.js:25-49 | every request a console route takes whose normalised path starts with `/ajax` passes `validateUser`, except for the login route |
| Router.IndexPagesOpen | app/router.js:9-10 | `GET /` and `GET /console` reach the index page without the session guard |
| Gateway.ClientIp | app/middleware/validateAppUrl.js:8 | the client IP is the first proxy entry unless that is `127.0.0.1`, in which case it is the second (undefined when missing); without proxy entries it is the direct peer |
| Gateway.Token | app/middleware/validateAppUrl.js:32-39 | `header` reads the `app-token` header, `param` the `_token` query parameter, any other rule the header when non-empty and else the parameter |
| Gateway.TokenSources | app/middleware/validateAppUrl.js:33-38 | the `header` rule depends on nothing but the header, the `param` rule on nothing but the parameter, and the compatible rule prefers a non-empty header |
| Gateway.FailureBody | app/middleware/validateAppUrl.js:41-62 | the 401 and 400 bodies have the code name and the message name when set, hold the failure code, and hold the fixed message |
| Gateway.LogUriOfGatewayUrl | app/middleware/validateAppUrl.js:78 | the logged uri of a gateway url is the url without its leading `/api` |
| Gateway.LoggedParams | app/middleware/validateAppUrl.js:80 | the logged parameters are the body for POST and PUT and the query otherwise |
| Gateway.ValidateAppUrl | app/middleware/validateAppUrl.js:7-86 | the early exits in order: 404 text for a missing or inactive owner, 404 text for a missing or inactive application, 401 envelope on token mismatch, 400 envelope when no interface matches; otherwise 200 with the interface's success envelope and the full log record; a record exists exactly when the status is 200; the pair equals `Outcome` on the same tables |
| Gateway.ServedIsLoggedAsSuccess | app/middleware/validateAppUrl.js:82 | with distinct names a served request is logged as a success exactly when the template's success code is defined |
| Gateway.RequestLog.Insert | app/middleware/validateAppUrl.js:74-86 | the log gains exactly the new record at its end |
| Gateway.Serve | app/router.js:16-19 | the gateway answers exactly the requests its route takes, with the response `validateAppUrl` gives for the captures; the log gains exactly that call's record when it makes one and is unchanged otherwise, so only a 200 appends |
| Gateway.HeadIsNeverServed | app/middleware/validateAppUrl.js:52-62 | a HEAD request reaching the gateway through the GET route finds no interface among stored ones (whose methods are GET, POST, PUT or DELETE), so it is answered without a 200 and is never logged |
| HttpController.Handle | app/controller/api/http.js:25-56 | every verb handler sets the body to the interface's success envelope around the generated data |
| HttpController.Success | app/controller/api/http.js:7-20 | the controller's own builder sets the body to the truthy-data envelope of the application's template and changes nothing else |
| HttpController.SuccessMatchesHandlers | app/controller/api/http.js:7-28 | for truthy generated data the controller's own builder gives the body the handlers set |
| InterfaceService.LatestMatch | app/service/interface.js:78-84 | the answer matches application, method and uri and has the greatest id of all matches; none is found exactly when nothing matches |
| InterfaceService.LatestMatchUnique | app/service/interface.js:78-84 | under unique ids that answer is the one record with the greatest id |
| InterfaceService.ProcessResponse | app/service/interface.js:308-313 | the body has the keys of the application's success envelope and holds the generated data under the data name |
| InterfaceService.StoredUriPassesCreate | app/service/interface.js:26 | a uri the schema can store passes the create-time pattern exactly when it is not empty; the schema lets the empty uri through, the pattern does not |
| InterfaceService.NestedUriPassesCreateOnly | app/service/interface.js:26 | `a/b` passes the create-time pattern but not the schema |
| InterfaceService.PlaceholderUriPassesCreateOnly | app/service/interface.js:26 | `{name}` passes the create-time pattern but not the schema |
| InterfaceService.FirstClash | app/service/interface.js:113-129 | the reported duplicate is the first interface of the application with the name, or the method and uri; none exactly when no interface clashes |
| InterfaceService.PlanInsertApi | app/service/interface.js:107-129 | the checks in order: the caller's active application (else 无权限…), below 30 interfaces, no interface of the same name (当前应用下接口名已存在), and no interface of the same method and uri |
| InterfaceService.NewInterface | app/service/interface.js:131-137 | the stored record takes its slug and `vir_uid` from the application, and its owner and creator are the caller |
| InterfaceService.AppendKeepsApisUnique | app/service/interface.js:113-129 | appending an interface that clashes with none keeps names, and methods with uris, unique per application |
| InterfaceService.InsertKeepsApisUnique | app/service/interface.js:113-137 | an accepted insert keeps that uniqueness |
| InterfaceService.InsertKeepsApiCap | app/service/interface.js:110 | under unique application ids, an accepted insert leaves the application's `api_count` at most 30 |
| InterfaceService.InsertByUid | app/service/interface.js:107-143 | an error is the plan's error and changes nothing; a planned record that schema validation refuses gives a 500 validation error and changes nothing; otherwise the new interface is appended under the next id and its application's `api_count` goes up by one |
| InterfaceService.StoreApi | app/service/interface.js:137-140 | an accepted record is appended under its id, the id counter moves on, and its application's `api_count` goes up by one; the users stay |
| InterfaceService.NestedUriRefusedOnSave | app/model/interface.js:44 | a body whose trimmed uri holds a `/` passes the create pattern but its record is refused on save |
| InterfaceService.PlanUpdateApi | app/service/interface.js:151-174 | success needs the caller's interface and no other interface of its application with the name, or the method and uri; a missing interface gives 接口不存在或无权限 |
| InterfaceService.UpdateKeepsApiProtected | app/service/interface.js:176-183 | an update never changes the id, `app_id`, `app_slug`, `vir_uid`, `uid` or `creator` |
| InterfaceService.UpdateKeepsApisUnique | app/service/interface.js:157-183 | under unique ids an accepted update keeps names, and methods with uris, unique per application |
| InterfaceService.UpdateByIdAndUid | app/service/interface.js:151-187 | an error changes nothing; success rewrites the interface and answers with data generated from the new rules, or from null |
| InterfaceService.EmptyByAppSlugAndUid | app/service/interface.js:194-199 | no interface of that application and owner is left, the others stay, and the application's `api_count` is 0 |
| InterfaceService.DeleteByIdAndUid | app/service/interface.js:264-270 | a missing interface gives an error and changes nothing; otherwise it alone is removed and its application's `api_count` goes down by one |
| InterfaceService.OwnedIndex | app/service/interface.js:265 | the index found is the first interface of that id and owner; the table's length means there is none |
| InterfaceService.Selected | app/service/interface.js:212 | exactly the caller's interfaces whose ids were asked for are selected |
| InterfaceService.PlanTarget | app/service/interface.js:208-210 | copy and move need the caller's target application below 30 interfaces, with the two messages otherwise |
| InterfaceService.CopiedApis | app/service/interface.js:215-222 | one copy per selected interface |
| InterfaceService.CopyRenamed | app/service/interface.js:215-222 | the loop builds exactly the renamed, re-homed copies |
| InterfaceService.CopiesRenamed | app/service/interface.js:215-222 | each copy belongs to the target, its name ends in `_date` and its uri in `/oldslug_date`, and it keeps method, rules, owner and status |
| InterfaceService.CopyApi | app/service/interface.js:207-228 | a refused target or an empty selection answers the plan and changes nothing; otherwise, as written, the target's `api_count` goes down by the number of copies and then `insertMany` refuses the batch, which stores nothing and gives the 500 validation error |
| InterfaceService.CopyInto | app/service/interface.js:214-227 | the writes after the checks: an empty list changes nothing; otherwise the target's `api_count` goes down by the list's length, and the copies are appended with fresh ids exactly when every copy passes validation, nothing being stored otherwise |
| InterfaceService.CopiesNeverStorable | app/service/interface.js:218-226 | a non-empty batch of copies never passes validation, because each copy's uri gains `/slug_date` |
| InterfaceService.CopyApiStaysBelowCap | app/service/interface.js:224-226 | after an accepted copy the target is still below the cap |
| InterfaceService.MoveAllKeepsIds | app/service/interface.js:244-254 | moving keeps the table's length and every id in its place |
| InterfaceService.MoveOneAt | app/service/interface.js:253 | moving one record rewrites its place and no other |
| InterfaceService.MoveAllIsUpdateAll | app/service/interface.js:244-254 | under unique ids, moving a list taken from the table rewrites exactly those records, each once |
| InterfaceService.MoveApi | app/service/interface.js:236-257 | the selected interfaces are renamed and re-homed in place, and the target's `api_count` goes up by their number; a refused target changes nothing |
| InterfaceService.MoveEach | app/service/interface.js:244-254 | after the loop the table is the old one with each listed interface rewritten in turn, and the applications, users and id counter are untouched |
| InterfaceService.MoveApiEffect | app/service/interface.js:242-254 | the moved table is the old one with exactly the caller's selected interfaces rewritten |
| InterfaceService.ValidatedApi | app/service/interface.js:26-29 | validation trims the uri, fills in an omitted `describe` as `''` and an omitted `response_rules` as null, and keeps the other fields |
| InterfaceService.OmittedFieldsCleared | app/service/interface.js:28-29 | an update (the `updateOne` of line 183) whose body omits `describe` and `response_rules` writes `''` and null over the stored values |
| InterfaceService.OmittedFieldsDefaulted | app/service/interface.js:28-29 | a created interface (saved at line 137) whose body omits them stores `''` and null |
| InterfaceService.UriCreateOfTrimmed | app/service/interface.js:26 | trimming a uri that passes the create pattern leaves one that passes it |
| InterfaceService.ValidatedApiPasses | app/service/interface.js:19-30 | a body that passed `validateRules` still passes it after the trim |
| InterfaceService.ValidatedApiFits | app/model/interface.js:30-53 | the record a validated body with a trimmed name becomes has a schema-valid name and method |
| ApplicationService.FindByUidAndSlug | app/service/application.js:157-159 | the answer is an application of that owner and slug; none exactly when there is none |
| ApplicationService.FindByIdAndUid | app/service/application.js:201 | the same for id and owner |
| ApplicationService.FindById | app/service/application.js:148-150 | the same for the id alone |
| ApplicationService.PlanInsert | app/service/application.js:165-183 | a trimmed name or slug already used by the owner gives the clash error; otherwise 20 applications give the cap error; success implies neither |
| ApplicationService.AppendKeepsUnique | app/service/application.js:166-173 | appending an application whose name and slug are free for its owner keeps them unique per owner |
| ApplicationService.InsertKeepsUnique | app/service/application.js:166-186 | an accepted insert keeps names and slugs unique per owner |
| ApplicationService.InsertKeepsCap | app/service/application.js:175-186 | an accepted insert leaves the owner with at most 20 applications |
| ApplicationService.Insert | app/service/application.js:165-192 | an error is the plan's error and changes nothing; success appends the new application under the next id and raises the owner's `apps_count` by one |
| ApplicationService.StripProtected | app/service/application.js:218-225 | the slug, key, status, `api_count`, owner, `vir_uid` and number are dropped; name, icon, rule, description and template are kept |
| ApplicationService.UpdateKeepsProtected | app/service/application.js:218-227 | an update never changes the id, `api_count`, status, key, slug, owner, `vir_uid` or number, whatever the body holds |
| ApplicationService.PlanUpdate | app/service/application.js:200-216 | success needs the caller's application and a changed name that no other application of the owner has; a missing application gives 应用不存在或无权限 |
| ApplicationService.UpdateKeepsUnique | app/service/application.js:204-227 | under unique ids an accepted update keeps names and slugs unique per owner |
| ApplicationService.ReplaceKeepsUnique | app/service/application.js:204-227 | rewriting one application keeps names and slugs unique per owner when its owner and slug stay and its name is kept or free among the owner's other applications |
| ApplicationService.UpdateByUidAndAppid | app/service/application.js:200-228 | the result is the plan; success rewrites the application with the stripped fields, and an error changes nothing |
| ApplicationService.AddApiCount | app/service/application.js:235-240 | the counter update keeps every application's id, owner, name and slug |
| ApplicationService.AddApiCountEffect | app/service/application.js:235-237 | exactly the first application with that id has its `api_count` moved by the amount |
| ApplicationService.AddApiCountInverse | app/service/application.js:235-240 | decreasing by an amount undoes increasing by it |
| ApplicationService.IncreaseApiCountByAppId | app/service/application.js:235-237 | the applications table becomes the counter update by `+count`, and nothing else changes |
| ApplicationService.DecreaseApiCountByAppId | app/service/application.js:238-240 | the same by `-count` |
| ApplicationService.ChangeAppKey | app/service/application.js:246-255 | a missing application gives an error and changes nothing; otherwise the new key replaces the old one and is returned |
| ApplicationService.DeleteBySlug | app/service/application.js:262-269 | a missing application gives an error; otherwise it alone is removed, its interfaces stay, and the owner's `apps_count` goes down by one |
| ApplicationService.SlugIndex | app/service/application.js:264 | the index found is that of the application `findOne({ uid, slug })` answers, and the table's length exactly when there is none |
| ApplicationService.Rehomed | app/service/application.js:339-344 | one copy per interface |
| ApplicationService.Rehome | app/service/application.js:339-344 | the loop builds exactly the re-homed copies |
| ApplicationService.RehomedBelongToTarget | app/service/application.js:337-344 | each copy belongs to the new application, keeps everything but its id, and the fresh ids increase |
| ApplicationService.InterfacesOf | app/service/application.js:337 | exactly the source's interfaces of the caller are copied |
| ApplicationService.PlanCopy | app/service/application.js:311-323 | success needs the caller's source application, a trimmed name and slug free for the caller, and fewer than 20 applications |
| ApplicationService.CopyKeepsUnique | app/service/application.js:314-335 | an accepted copy keeps names and slugs unique per owner |
| ApplicationService.CopyApp | app/service/application.js:310-350 | an error changes nothing; otherwise the copied application is saved and `apps_count` rises when some interface was copied; the re-homed copies are appended when every one passes `insertMany`'s validation, and otherwise none is stored and the call fails with the 500 validation error |
| ApplicationService.CopyFrom | app/service/application.js:334-349 | the writes after the checks: the new application is appended and `apps_count` rises when some interface was copied; the copies are stored, and the id counter moves past them, exactly when the batch passes validation |
| ApplicationService.RehomedStorable | app/service/application.js:339-348 | a re-homed copy passes validation exactly when its original does |
| ApplicationService.MovedInterfaceBlocksCopy | app/service/application.js:339-348 | an application holding an interface whose uri contains `/` (as `moveApi` leaves it) can no longer be copied with its interfaces: the batch fails validation |
| ApplicationService.FindDemo | app/service/application.js:357 | the demo is the active `demo` application of `virapi`; none exactly when there is none |
| ApplicationService.ActiveInterfacesOf | app/service/application.js:367 | exactly the demo's active interfaces are handed on |
| ApplicationService.Adopted | app/service/application.js:380-388 | one adopted copy per interface |
| ApplicationService.AdoptDemoInterfaces | app/service/application.js:380-388 | the loop builds exactly the adopted copies |
| ApplicationService.AdoptedBelongToUser | app/service/application.js:380-388 | each adopted copy belongs to the user and the new application and keeps creator, name, uri, method and rules |
| ApplicationService.AdoptedStorable | app/service/application.js:380-392 | an adopted copy passes validation exactly when its original does, for a user with a `vir_uid` |
| ApplicationService.CreateDemoAppByRegister | app/service/application.js:356-394 | without a demo, or when the user has its name or slug, nothing changes; otherwise the user's copy with `api_count` = the number of active interfaces is saved and `apps_count` rises when there are some; the adopted copies are stored exactly when the batch passes validation, and otherwise the validation error is thrown |
| ApplicationService.DemoCopyKeepsUnique | app/service/application.js:360-378 | the demo copy keeps names and slugs unique per owner |
| ApplicationService.VerifyRuleLabels | app/service/application.js:408 | the three rules have three different labels, and exactly the other values are unknown |
| ApplicationService.Validated | app/service/application.js:23-24 | validation trims the name and the slug and changes nothing else |
| ApplicationService.AstralNameRule | app/service/application.js:23 | a name of `n` characters outside the Basic Multilingual Plane passes `min: 2, max: 20` exactly when `1 <= n <= 10`, since each counts as two UTF-16 code units |
| ApplicationService.CreateRulesFitSchema | app/service/application.js:18-54 | data that passed `rules` is ready for `insert`, and its record has a schema-valid name, slug and verify rule |
| ApplicationService.UpdateRulesRequireName | app/service/application.js:56-57 | a name that passed `updateRules` is trimmed and never empty, so a rename always meets the clash check |
| UserService.FindByVirUid | app/service/user.js:130-132 | the answer is a user of that `vir_uid`; none exactly when there is none |
| UserService.FindById | app/service/user.js:168 | the same for the id |
| UserService.Base64ImageAccepted | app/service/user.js:21-22 | every `data:image/<word>;base64,` value passes the image test |
| UserService.Base64ImageNeedsType | app/service/user.js:21 | an empty image type fails it |
| UserService.Base64ToFile | app/service/user.js:16-36 | a value starting with `/` is kept; any other value that fails the image test gives 非法base64资源; an image whose directory could not be made gives 目录创建失败; otherwise the result is the stored path |
| UserService.Base64ToFileKeepsPaths | app/service/user.js:17-19 | a stored path passes through again unchanged |
| UserService.DateRange | app/service/user.js:70-77 | a date filter always has both its lower and its upper bound set, taken from the first two comma-separated parts |
| UserService.DateRangeOfPair | app/service/user.js:71-72 | `from,to` gives the range from `from` to `to` |
| UserService.DateRangeOfSingle | app/service/user.js:71-72 | a single date gives an undefined upper bound |
| UserService.BuildConditions | app/service/user.js:57-102 | a keyword that `new RegExp` refuses gives the 500 error before anything else; otherwise each filter is present exactly when its parameter is given, with the trimmed keyword (a valid pattern), the date ranges, the loose `uid_status == 1`, the count bounds that are neither null nor undefined, and a truthy status |
| UserService.PageWindow | app/service/user.js:104-107 | the list is fetched exactly when the total is positive, from `(page - 1) * page_size` |
| UserService.PagesAdjacent | app/service/user.js:107 | each page starts where the previous one ends |
| UserService.LoadForUpdate | app/service/user.js:168 | the projected record keeps id, `vir_uid` and e-mail, and its `vir_uid_updated` reads as null |
| UserService.DropVirUidIfChanged | app/service/user.js:170 | the patch is unchanged, or it loses its `vir_uid` when the record is stamped |
| UserService.VirUidGuardNeverFires | app/service/user.js:168-170 | as written, the guard never drops a `vir_uid` |
| UserService.VirUidGuardCounterexample | app/service/user.js:168-170 | a stamped user keeps the requested new `vir_uid` |
| UserService.VirUidGuard | app/service/user.js:170 | the intended guard drops the `vir_uid` of a stamped user, keeps any other patch, and touches no other field |
| UserService.VirUidChangedOnce | app/service/user.js:170-190 | under the intended guard, an accepted update of a stamped user carries no `vir_uid`, and an accepted new `vir_uid` is free and stamps the change time |
| UserService.VirUidChangedAgain | app/service/user.js:168-190 | as written a stamped user's patch goes through the checks unguarded, so an accepted new `vir_uid` is free, stamped again, and kept |
| UserService.PlansAgreeWhenUnstamped | app/service/user.js:168-170 | for a user never stamped, or a missing user, the as-written and the intended plan coincide |
| UserService.EmailStaysUnique | app/service/user.js:171-176 | an accepted changed e-mail is not another user's |
| UserService.ApplyPatch | app/service/user.js:196 | an update keeps the id, `apps_count` and status |
| UserService.UpdateByUid | app/service/user.js:166-205 | the result is the as-written plan; on success the user takes the patch, and a new `vir_uid` is written to all of the user's applications and interfaces; an error changes nothing |
| UserService.WriteUserUpdate | app/service/user.js:197-203 | the writes after the checks: the user's record takes the patch; a new `vir_uid` reaches the user's applications and interfaces, and without one they are untouched |
| UserService.RenameReachesEveryRecord | app/service/user.js:200-203 | after the rename every application and interface of the user carries the new `vir_uid`, every other record is unchanged, and no other field moves |
| UserService.Delete | app/service/user.js:220-223 | the user gets status -1 and no other table changes |
| UserService.AddAppsCount | app/service/user.js:229-234 | the counter update keeps every user's id |
| UserService.AddAppsCountEffect | app/service/user.js:229-231 | exactly the first user with that id has `apps_count` moved by the amount |
| UserService.AddAppsCountInverse | app/service/user.js:229-234 | decreasing undoes increasing |
| UserService.IncreaseAppCountByUid | app/service/user.js:229-231 | `apps_count` +1 on that user, nothing else changes |
| UserService.DecreaseAppCountByUid | app/service/user.js:232-234 | `apps_count` -1 on that user, nothing else changes |
| BaseController.SuccessBody | app/controller/base.js:7-15 | the body is `{code: 200, message, data}` |
| BaseController.FailedBody | app/controller/base.js:17-24 | the body is `{code, message}` without data |
| BaseController.FailedIsNotSuccess | app/controller/base.js:7-24 | a failure body never equals a success body, and with the default code 1000 its code is never 200 |
| BaseController.Success | app/controller/base.js:7-15 | the context's body becomes the success body; a 404 status turns into 200 (Koa's default on setting a body), any other status stays, and nothing else changes |
| BaseController.Failed | app/controller/base.js:17-24 | the context's body becomes the failure body; a 404 status turns into 200, any other status stays, and nothing else changes |
| BaseController.NotFound | app/controller/base.js:26-29 | `notFound` throws 404 with the message, or `not found` for an empty one |
| Helper.SuccessBody | app/extend/helper.js:26-34 | the body is `{code: 200, data, msg}` |
| Helper.FailedBody | app/extend/helper.js:38-45 | the body is `{code, msg}` |
| Helper.HelperDiffersFromBase | app/extend/helper.js:26-45 | the helpers' bodies never equal the base controller's, because they say `msg` |
| Helper.Success | app/extend/helper.js:26-34 | body set and HTTP status 200 whatever the code |
| Helper.Failed | app/extend/helper.js:38-45 | body set and HTTP status 200 whatever the code |
| ErrorHandler.StatusOf | app/middleware/errorHandler.js:11 | a missing or zero status is 500; any other status is kept |
| ErrorHandler.Details | app/middleware/errorHandler.js:23 | one failing field gives `field message` |
| ErrorHandler.DetailsOfCons | app/middleware/errorHandler.js:23 | longer lists join their entries with `,` |
| ErrorHandler.ErrorMessage | app/middleware/errorHandler.js:13-24 | a 500 in production says `Internal Server Error`; a 422 appends ` ERR:` and the field details; any other error keeps its message |
| ErrorHandler.ErrorBody | app/middleware/errorHandler.js:16-24 | the body is `{code: status, message}` |
| ErrorHandler.MessageKeptOutsideProduction | app/middleware/errorHandler.js:13 | outside production the thrown message always heads the answer |
| ErrorHandler.OnlyServerErrorsHidden | app/middleware/errorHandler.js:13 | in production all 500s give the same body |
| ErrorHandler.HandleError | app/middleware/errorHandler.js:11-25 | the body is the error body and the HTTP status 200; nothing else changes |
| ErrorHandler.Run | app/middleware/errorHandler.js:5-26 | with no error the context is as the handler left it; a thrown error replaces the body and answers 200 |
| ValidateUser.Rejected | app/middleware/validateUser.js:11-26 | a 401 clears the session and both login cookies; a JSON client gets `{code, message}`, any other a 302 to the login page with the encoded message |
| ValidateUser.ResponseErr | app/middleware/validateUser.js:11-26 | the context becomes exactly that rejected state |
| ValidateUser.Validate | app/middleware/validateUser.js:28-49 | the request proceeds exactly when the session's user id equals the signed cookie and names an active user, who is left in the context; otherwise the context is the 401 rejection |
| ValidateUser.GuardOutcomes | app/middleware/validateUser.js:32-46 | a request let through carries an active user with the session's id, and one turned away loses its session |
| ConsoleApplication.CreateData | app/controller/console/application.js:36-42 | the owner, `vir_uid` and number come from the server, a client key wins over the generated one, and every other field is the body's |
| ConsoleApplication.ServerFieldsWin | app/controller/console/application.js:36-42 | two bodies that differ only in owner, `vir_uid` or number give the same data |
| ConsoleApplication.Project | app/controller/console/application.js:61-63 | the projection has exactly the asked fields, each the stored value, with the icon and template getters applied when reading a document |
| ConsoleApplication.GettersTouchIconAndTemplate | app/model/application.js:59-62 | the getters change only the icon (shown under `/images`) and the response template (codes normalised) |
| ConsoleApplication.BaseInfoIsPartOfShow | app/controller/console/application.js:80-82 | `base_info` shows part of what `show` shows, the same values there, and never the key or the owner |
| ConsoleApplication.Create | app/controller/console/application.js:28-48 | missing slug gives 必要参数缺失 and no table changes; a body breaking `rules` throws 422 and changes nothing; a refused insert throws the service error and changes no table; otherwise the new application is appended under the next id, the owner's `apps_count` rises by one, and the raw record (no getters) is the data |
| ConsoleApplication.InsertAndShow | app/controller/console/application.js:46-47 | for validated data: the insert's error is thrown with no table changed, or the new application is appended under the next id, the owner's `apps_count` rises by one, and the record is shown with all its fields as stored |
| ConsoleApplication.Show | app/controller/console/application.js:53-86 | missing slug gives 必要参数缺失; the caller's application of that slug is shown projected, with the icon under `/images` and the normalised template, else 应用不存在或已删除 |
| ConsoleApplication.Update | app/controller/console/application.js:91-107 | missing id gives 必要参数缺失; a body breaking `updateRules` throws 422; otherwise the service's error is thrown, or the application is rewritten and success is reported only for `ok === 1` |
| ConsoleApplication.ValidatedUpdateKeepsUnique | app/controller/console/application.js:99-100 | an update that passed `updateRules` and the service keeps names and slugs unique per owner |
| ConsoleApplication.Destroy | app/controller/console/application.js:112-122 | missing slug gives 必要参数缺失; a missing application is thrown as the service's error with no table changed; otherwise exactly the first application of that owner and slug is removed, the owner's `apps_count` falls by one, the interfaces stay, and success is reported |
| ConsoleApplication.ChangeKey | app/controller/console/application.js:127-137 | missing id gives 必要参数缺失; a missing application is thrown with no table changed; otherwise only that application's key becomes the new key, which is the data |
| ConsoleApplication.Copy | app/controller/console/application.js:142-152 | a missing source slug, name or slug gives 必要参数缺失; the copy plan's error is thrown with no table changed; otherwise the copied application is appended and `apps_count` rises when some interface was copied; when the re-homed interfaces pass validation they are appended with fresh ids and success is reported, and otherwise none is stored and the 500 validation error is thrown |
| ConsoleInterface.Project | app/controller/console/interface.js:92-98 | the projection has exactly the asked fields, each the stored value |
| ConsoleInterface.MapFields | app/controller/console/interface.js:54-75 | the uri map leaves `describe` out and the other map is the same fields plus `describe` |
| ConsoleInterface.OwnedBy | app/controller/console/interface.js:56 | exactly the caller's interfaces of that application are listed |
| ConsoleInterface.NewestFirst | app/service/interface.js:41-42 | `sort: { _id: -1 }` lists the table in reverse order |
| ConsoleInterface.Listing | app/service/interface.js:41-43 | one item per owned interface, each with exactly the projected fields |
| ConsoleInterface.Processed | app/service/interface.js:47-50 | a processed item has the projected fields plus `succeed_response`, the data generated from its rules |
| ConsoleInterface.ProcessListing | app/service/interface.js:44-52 | one processed item per owned interface |
| ConsoleInterface.MapOmitsDescribeOnlyForUriMap | app/controller/console/interface.js:54-75 | an item has `describe` exactly when the map is not the uri map, and both maps list the same ids in the same order |
| ConsoleInterface.Index | app/controller/console/interface.js:10-39 | missing slug gives 请指定要查找的应用; otherwise the cap and the processed listing |
| ConsoleInterface.Map | app/controller/console/interface.js:44-78 | missing slug gives 请指定要查找的应用; otherwise the listing with the projection `_type` selects |
| ConsoleInterface.List | app/controller/console/interface.js:83-101 | missing slug gives 请指定要查找的接口; otherwise ids and names |
| ConsoleInterface.FindOwned | app/controller/console/interface.js:135 | the answer is the caller's interface of that id; none exactly when there is none |
| ConsoleInterface.Create | app/controller/console/interface.js:106-122 | a body breaking `validateRules` throws 422 and changes nothing; a non-empty array of `response_rules` makes the item check throw a status-less error (500) and changes nothing; for the rest, with validation's defaults filled in, a refused plan, or a record that schema validation refuses, is thrown with no table changed; otherwise the interface is appended under the next id, its application's `api_count` rises by one, and success is reported |
| ConsoleInterface.RulesReachingService | app/controller/console/interface.js:113-118 | the rules that pass validation and the item check are null, an object or an empty array |
| ConsoleInterface.InsertAndReport | app/controller/console/interface.js:120-121 | for validated data: the plan's error or the validation error is thrown with no table changed, or the new interface is appended under the next id, the count rises by one, and an empty success is reported |
| ConsoleInterface.Show | app/controller/console/interface.js:127-137 | missing id gives 必要参数缺失; otherwise the caller's interface, or null, as the data |
| ConsoleInterface.Update | app/controller/console/interface.js:142-162 | a body breaking `validateRules` throws 422; a non-empty array of `response_rules` makes the item check throw a status-less error (500), nothing rewritten; otherwise, with validation's defaults filled in, the service's error is thrown, or the interface is rewritten and `{succeed_response}` is reported only for `ok === 1` |
| ConsoleInterface.UpdateAndReport | app/controller/console/interface.js:155-161 | for validated data: the service's error is thrown with nothing rewritten, or the interface is rewritten and `{succeed_response}` with the newly generated data is reported only for `ok === 1`, the fixed failure otherwise |
| ConsoleInterface.Empty | app/controller/console/interface.js:167-177 | missing slug gives 必要参数缺失 and nothing changes; otherwise exactly the caller's interfaces of that application go, its `api_count` becomes 0, and success is reported |
| ConsoleInterface.Copy | app/controller/console/interface.js:182-192 | a missing target or empty id list gives 必要参数缺失 and nothing changes; a refused target is thrown; an empty selection reports success; otherwise, as written, the target's count falls by the selection's size and the validation error is thrown with no interface stored |
| ConsoleInterface.Move | app/controller/console/interface.js:197-207 | the same guard; a refused target is thrown with nothing changed; otherwise exactly the caller's selected interfaces are re-homed in place, the target's count rises by their number, and success is reported |
| ConsoleInterface.Destroy | app/controller/console/interface.js:212-222 | missing id gives 必要参数缺失; a missing interface is thrown with nothing changed; otherwise exactly the first interface of that id and owner goes, and its application's count falls by one |
| ConsoleInterface.Debug | app/controller/console/interface.js:227-249 | missing id gives 必要参数缺失, a foreign or missing interface 接口不存在或无权限, an inactive application the third message; the envelope is served exactly when the caller's interface has an active application, and it is the gateway's success body |
| ConsoleInterface.DebugAction | app/controller/console/interface.js:227-249 | the failure body for a refusal, else the success body around the envelope |
| ConsoleLog.WindowOf | app/controller/console/log.js:24-40 | yesterday, 7 days and 30 days select their windows and anything else today; every window ends no earlier than it starts |
| ConsoleLog.PageOf | app/controller/console/log.js:54-56 | a missing or empty page is 1, a page read as a number at most 0 is 1, and any other value passes unchanged |
| ConsoleLog.PerPageOf | app/controller/console/log.js:55-57 | a missing or empty size is 10, a size read as a number at most 0 or above 100 is 100, and any other value passes unchanged |
| ConsoleLog.ClampedBounds | app/controller/console/log.js:54-57 | a numeric page is at least 1 and a numeric page size lies in 1..100 |
| ConsoleLog.BuildQuery | app/controller/console/log.js:10-57 | no slug gives 请指定要查找的应用 and no application 未找到目标应用数据; otherwise the filter holds the application's id, the window, the `api_id` filter (`undefined` asks for a null id), method, result, and the clamped page and size |
| ConsoleLog.RequestLog | app/controller/console/log.js:10-61 | the same query, then the failure body or the success body around the listing for that query |

## Left out

- Mongoose validation is modelled for interfaces only: `save` in
  `insertByUid` and `insertMany` in `copyApi`, `copyApp` and
  `createDemoAppByRegister` refuse a record that breaks the schema
  (`Storable`). Applications and users are stored as given, so
  `copyApp` writes its name and slug unchecked; their schema constraints are
  stated as predicates, and lemmas compare them with the request rules.
- InterfaceModel.ValidationRejected: a validation failure carries no
  status, so the error middleware answers 500; its message is an
  abbreviation of mongoose's text, which names each failing path.
- The per-field `errors` of a validation failure are not modelled. A body
  that breaks a rule throws a 422 with an empty field list.
- The request rules check the response template's fields and their
  `convertType`; the model does not.
- The per-item check of `response_rules` is modelled only for arrays: the
  service defines no `responseValidateRules`, so any non-empty array makes
  the validator throw (`ItemRulesMissing`). An object whose `length`
  property compares above 0 passes that guard too and then throws, because
  it has no `forEach`; ConsoleInterface.Create and ConsoleInterface.Update
  let such an object through to the service.
- Envelope.ApplicationSucceed, Envelope.ApplicationFailed and
  Envelope.SucceedBuildersDiffer model only the named properties the
  application service sets. Its builders start from `[]`, an array, which
  JSON renders as `[]` whatever properties it holds, and which never equals
  the interface service's object; the model does not distinguish the two.
- Lengths in the request rules and the schemas are counted in UTF-16 code
  units (`Utf16Length`), as JavaScript's `length` counts them. The slug,
  uri, `vir_uid` and e-mail patterns admit ASCII only, so `|s|` is exact
  for them.
- Request bodies are records of the fields the services read. Other fields
  a body could pass through to the store are not modelled.
- Uniqueness of `_id` is not tracked by the store. Lemmas that need it take
  it as a precondition (`AppIdsUnique`, `ApiIdsUnique`).
- Serialisation is not modelled: JSON key order, and how keys holding
  `undefined` are dropped from the output.
- JavaScript `===` on objects compares references; the model compares
  values.
- Numbers are integers. `NumberOf` reads decimal integers only, and
  `parseInt` precision limits are not modelled.
- The query operators `$or`, `$in`, `$regex`, `$ne` and `$type` are
  evaluated directly as predicates on records. The built `getPagination`
  conditions are records and are not run against the users table.
- Hashing, the clock, random numbers, `encodeURI` and cookie signing are
  parameters.
- `mkdirsSync` (app/extend/helper.js:13-21) and the file write of
  `_base64ToFile` are left out. Whether the directory was made, and the
  stored path, are parameters.
- Asynchrony and concurrency are left out, as is the fire-and-forget
  nature of the counter updates and the log insert. Each runs to completion
  in order.
- The store's write acknowledgement is the parameter `ack`. That
  parameter decides the `ok === 1` branches of the console updates.
- ApplicationService.ChangeAppKey: the `result.ok !== 1` failure
  (appkey更换失败！) is not modelled; the write always succeeds.
- InterfaceService.EmptyByAppSlugAndUid: the `result.ok !== 1` failure
  (清空失败) is not modelled; the delete always succeeds.
- Projections show the stored fields only. The timestamps `created` and
  `updated`, and the `statusName` virtual, do not appear in them.
- ValidateUser.Rejected: the redirect's body is not modelled. The state
  records the location and the status 302.
- Paging in `getList` and `getProcessList` is not modelled; the console
  lists are unpaged, as they are called with limit 0.
- ConsoleLog.RequestLog: the log listing and its paging are the `fetch`
  parameter.
- `getStatistics` is left out.
- `getApiData` is left out, because nothing in the core calls it.
- The listing actions `list` and `index` of the application console, and
  the console index page (which reads a file), are left out.
- `exportMockdownDoc` is modelled only in its code rendering and its
  verify-rule labels. The document text is left out.
- `app.emit('error')` in the error middleware only logs, and is left out.
- ConsoleInterface.NewestFirst: `sort: { _id: -1 }` is the table order
  reversed. This holds because ids grow with insertion.
- Copying keeps two behaviours of the source as written:
  - `copyApi` lowers the target's `api_count` and then fails validation for
    any non-empty selection, storing no copy (`CopyApi`,
    `CopiesNeverStorable`, `CopyApiStaysBelowCap`);
  - `copyApp` re-homes the interfaces under the slug as given, untrimmed;
  - `copyApp` and `createDemoAppByRegister` save the application and raise
    `apps_count` before `insertMany` validates the copies, so a refused
    batch leaves the new application without interfaces and the count
    raised (`CopyApp`, `MovedInterfaceBlocksCopy`).
- The create-time uri pattern and the schema's uri pattern disagree. The
  model keeps both as written:
  - copy and move suffixes contain `/`; a copy is refused on insert, while
    a moved interface is rewritten by `updateOne`, which does not validate;
  - the create pattern admits `/` and `{…}` (`NestedUriPassesCreateOnly`,
    `PlaceholderUriPassesCreateOnly`), and `save` then refuses the record
    (`NestedUriRefusedOnSave`).
- Service lookups compare the stored values, which the schema trimmed.
  The trimming of query values by the schema's casting is not modelled.
- ApplicationService.ApplyFields: the name is written as given; the
  schema's `trim` on `updateOne` casting is not modelled. Through the
  console controller the name has already been trimmed by validation
  (`UpdateRulesRequireName`), so the written value is the same there.
- UserService.BuildConditions: whether `new RegExp` accepts the keyword is
  the parameter `isPattern`; regular-expression syntax is not modelled.
- Router.RouteMatches: case-insensitive matching folds ASCII letters only.
  The console patterns are lower-case ASCII, and no other character
  folds onto an ASCII letter without the `u` flag, so this is exact.
- Router.Dispatch: HEAD reaches every GET route, the gateway's included;
  Koa's dropping of a HEAD response's body is not modelled.

## Findings

| source | as written | input that shows it | evidently intended | confidence | as-written member | corrected member |
|---|---|---|---|---|---|---|
| app/service/user.js:168-170 | `updateByUid` loads the user with the projection `'_id vir_uid email'`; `vir_uid_updated` is not selected, so `if (user_info.vir_uid_updated)` never holds and the `vir_uid` can be changed again and again | a user whose `vir_uid_updated` is set asks for a new `vir_uid` (`VirUidGuardCounterexample`) | a user may change `vir_uid` once: the guard reads the stored `vir_uid_updated` | not executed | UserService.VirUidGuardAsWritten, UserService.VirUidGuardNeverFires, UserService.VirUidGuardCounterexample, UserService.PlanUserUpdate, UserService.UpdateByUid, UserService.VirUidChangedAgain | UserService.VirUidGuard, UserService.IntendedUserUpdate, UserService.VirUidChangedOnce |
