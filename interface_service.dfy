/** The interface service (app/service/interface.js): the gateway's lookup,
    the success body a matched interface answers with, the create-time uri
    pattern, and the table operations insert, update, empty, copy, move and
    delete with their `api_count` effects. */
module InterfaceService {
  import opened Common
  import opened Text
  import opened Json
  import opened Tables
  import opened ApplicationModel
  import opened InterfaceModel
  import opened Envelope
  import opened Store
  import ApplicationService

  /** `maxApiCount`. */
  const MaxApiCount := 30

  const NoAccessMessage := "接口不存在或无权限"
  const TargetMissingMessage := "目标应用不存在或无权限"
  const TargetFullMessage := "目标应用所建接口已达到最大数量"

  // ---------------------------------------------------------------------
  // The gateway's lookup and response

  predicate Serves(i: Interface, app_id: nat, verb: string, uri: string) {
    i.app_id == app_id && i.verb == verb && i.uri == uri
  }

  /** `getApiByAppIdAndMethod`: among the interfaces with exactly this
      application, method and uri, the one with the greatest id
      (`sort: { _id: -1 }`); none gives null. */
  function LatestMatch(apis: seq<Interface>, app_id: nat, verb: string, uri: string): (r: Option<Interface>)
    ensures r.None? <==> forall k :: 0 <= k < |apis| ==> !Serves(apis[k], app_id, verb, uri)
    ensures r.Some? ==> r.value in apis && Serves(r.value, app_id, verb, uri)
    ensures r.Some? ==> forall k :: 0 <= k < |apis| && Serves(apis[k], app_id, verb, uri) ==> apis[k].id <= r.value.id
    decreases |apis|
  {
    if apis == [] then None
    else
      var rest := LatestMatch(apis[1..], app_id, verb, uri);
      if !Serves(apis[0], app_id, verb, uri) then rest
      else if rest.Some? && rest.value.id > apis[0].id then rest
      else Some(apis[0])
  }

  /** Under unique ids the match is the one record with the greatest id. */
  lemma LatestMatchUnique(apis: seq<Interface>, app_id: nat, verb: string, uri: string, k: nat)
    requires ApiIdsUnique(apis)
    requires k < |apis| && Serves(apis[k], app_id, verb, uri)
    requires forall j :: 0 <= j < |apis| && Serves(apis[j], app_id, verb, uri) ==> apis[j].id <= apis[k].id
    ensures LatestMatch(apis, app_id, verb, uri) == Some(apis[k])
  {
    var r := LatestMatch(apis, app_id, verb, uri).value;
    var j :| 0 <= j < |apis| && apis[j] == r;
    assert apis[j].id == apis[k].id;
  }

  /** `processResponse`: the success envelope of the application's template
      around data generated from the interface's rules; the generator
      (Mock.mock) is a parameter. */
  function ProcessResponse(app: Application, api: Interface, gen: Value -> Value): (body: Body)
    ensures body.Keys == SucceedKeys(TemplateOf(app), gen(api.response_rules) != Null)
    ensures TemplateOf(app).data_name != "" && gen(api.response_rules) != Null ==>
      body[TemplateOf(app).data_name] == gen(api.response_rules)
  {
    InterfaceSucceed(TemplateOf(app), gen(api.response_rules))
  }

  // ---------------------------------------------------------------------
  // The create-time uri pattern

  predicate AllUri(s: string) {
    forall i :: 0 <= i < |s| ==> IsUriChar(s[i])
  }

  predicate IsIdentStart(c: char) {
    ('a' <= c <= 'z') || ('A' <= c <= 'Z') || c == '_'
  }

  predicate IsIdentChar(c: char) {
    IsIdentStart(c) || IsDigit(c)
  }

  /** `[a-zA-Z_][a-zA-Z0-9_]*`. */
  predicate IsIdent(s: string) {
    |s| > 0 && IsIdentStart(s[0]) && forall i :: 1 <= i < |s| ==> IsIdentChar(s[i])
  }

  /** `\{[a-zA-Z_][a-zA-Z0-9_]*(\?)?}`: a named path parameter, optionally
      marked optional. */
  predicate Placeholder(s: string) {
    |s| >= 3 && s[0] == '{' && s[|s| - 1] == '}' &&
    var inner := s[1..|s| - 1];
    IsIdent(inner) || (|inner| > 0 && inner[|inner| - 1] == '?' && IsIdent(inner[..|inner| - 1]))
  }

  /** The first segment: `[\w-.]+` or a placeholder. */
  predicate FirstSegmentOk(s: string) {
    (|s| > 0 && AllUri(s)) || Placeholder(s)
  }

  /** A later segment: `[\w-.]*` followed by `[\w-.]+` or a placeholder;
      the placeholder starts at the segment's first `{`. */
  predicate LaterSegmentOk(s: string) {
    (|s| > 0 && AllUri(s)) ||
    var k := IndexOf(s, '{');
    k < |s| && AllUri(s[..k]) && Placeholder(s[k..])
  }

  /** `validateRules.uri`: at most 100 characters, trimmed first, of path
      segments separated by `/`. */
  predicate UriCreate(uri: string) {
    var t := Trim(uri);
    var segs := Split(t, '/');
    |t| <= 100 && FirstSegmentOk(segs[0]) && forall k :: 1 <= k < |segs| ==> LaterSegmentOk(segs[k])
  }

  /** Every uri the schema can store passes the create rule, except the
      empty one. */
  lemma StoredUriPassesCreate(uri: string)
    requires UriStored(uri)
    ensures UriCreate(uri) <==> uri != ""
  {
    if uri != "" {
      assert !IsJsSpace(uri[0]) && !IsJsSpace(uri[|uri| - 1]);
    }
    TrimOfTrimmed(uri);
    UriStoredIsOneSegment(uri);
    SplitWithoutSeparator(uri, '/');
  }

  /** The create rule accepts nested uris that the schema's `^[\w-.]+$`
      rejects, so such an interface passes validation and fails on save. */
  lemma NestedUriPassesCreateOnly(a: string, b: string)
    requires UriStored(a) && UriStored(b) && a != "" && b != "" && |a| + |b| < 100
    ensures UriCreate(a + "/" + b) && !UriStored(a + "/" + b)
  {
    NestedUriTrimmed(a, b);
    NestedUriSegments(a, b);
    NestedUriNotStored(a, b);
  }

  lemma NestedUriTrimmed(a: string, b: string)
    requires UriStored(a) && UriStored(b) && a != "" && b != ""
    ensures Trim(a + "/" + b) == a + "/" + b
  {
    var u := a + "/" + b;
    assert u[0] == a[0] && u[|u| - 1] == b[|b| - 1];
    TrimOfUriEnds(u);
  }

  lemma NestedUriNotStored(a: string, b: string)
    ensures !UriStored(a + "/" + b)
  {
    assert (a + "/" + b)[|a|] == '/';
  }

  /** Two stored segments joined by `/`, already trimmed, pass the create
      rule segment by segment. */
  lemma NestedUriSegments(a: string, b: string)
    requires UriStored(a) && UriStored(b) && a != "" && b != "" && |a| + |b| < 100
    requires Trim(a + "/" + b) == a + "/" + b
    ensures UriCreate(a + "/" + b)
  {
    UriStoredIsOneSegment(a);
    UriStoredIsOneSegment(b);
    SplitOfPair(a, '/', b);
  }

  /** So does a parameterised uri such as `{id}`. */
  lemma PlaceholderUriPassesCreateOnly(name: string)
    requires IsIdent(name) && |name| < 98
    ensures UriCreate("{" + name + "}") && !UriStored("{" + name + "}")
  {
    var u := "{" + name + "}";
    assert u[0] == '{' && u[|u| - 1] == '}';
    TrimOfTrimmed(u);
    PlaceholderSegment(name);
    assert !IsUriChar(u[0]);
  }

  lemma IdentHasNoSlash(name: string)
    requires IsIdent(name)
    ensures '/' !in name
  {
    forall k | 0 <= k < |name| ensures name[k] != '/' {
      if k > 0 {
        assert IsIdentChar(name[k]);
      }
    }
  }

  /** A braced identifier has no `/`, so it is one placeholder segment. */
  lemma PlaceholderSegment(name: string)
    requires IsIdent(name)
    ensures Split("{" + name + "}", '/') == ["{" + name + "}"] && Placeholder("{" + name + "}")
  {
    var u := "{" + name + "}";
    IdentHasNoSlash(name);
    assert '/' !in u by {
      assert u == ['{'] + name + ['}'];
    }
    SplitWithoutSeparator(u, '/');
    assert u[0] == '{' && u[|u| - 1] == '}' && u[1..|u| - 1] == name;
  }

  // ---------------------------------------------------------------------
  // Invariants of the interface table

  predicate ApiIdsUnique(apis: seq<Interface>) {
    forall i, j :: 0 <= i < j < |apis| ==> apis[i].id != apis[j].id
  }

  /** The invariant insert and update keep: within one application no two
      interfaces share a name, nor a method and uri. */
  predicate ApisUniquePerApp(apis: seq<Interface>) {
    forall i, j :: 0 <= i < j < |apis| && apis[i].app_id == apis[j].app_id ==>
      apis[i].name != apis[j].name && (apis[i].verb != apis[j].verb || apis[i].uri != apis[j].uri)
  }

  // ---------------------------------------------------------------------
  // Insert

  /** The validated request body of create and update; `status` (and on
      update any protected field) may ride along in the body. */
  datatype ApiFields = ApiFields(
    app_id: nat,
    name: string,
    uri: string,
    verb: string,
    describe: Option<string>,
    response_rules: Value,
    status: Option<int>)

  /** An interface of the app that has the name, or the method and uri. */
  predicate Clashes(i: Interface, app_id: nat, data: ApiFields) {
    i.app_id == app_id && (i.name == data.name || (i.verb == data.verb && i.uri == data.uri))
  }

  /** The application the caller may add interfaces to: theirs, active, and
      below the cap. */
  predicate AcceptsApis(app: Option<Application>) {
    app.Some? && app.value.status == 1 && app.value.api_count < MaxApiCount
  }

  /** The position of the first clashing interface; the duplicate reported
      is that record's. */
  function FirstClash(apis: seq<Interface>, data: ApiFields): (k: nat)
    ensures k <= |apis|
    ensures k < |apis| ==> Clashes(apis[k], data.app_id, data)
    ensures k == |apis| <==> forall j :: 0 <= j < |apis| ==> !Clashes(apis[j], data.app_id, data)
  {
    FirstIndex(apis, (i: Interface) => Clashes(i, data.app_id, data))
  }

  /** The checks of `insertByUid`, in order; the owning application on
      success. */
  function PlanInsertApi(apps: seq<Application>, apis: seq<Interface>, uid: nat, data: ApiFields): (r: Result<Application>)
    ensures var app := ApplicationService.FindByIdAndUid(apps, data.app_id, uid);
      && (r.Ok? <==> AcceptsApis(app) && FirstClash(apis, data) == |apis|)
      && (r.Ok? ==> r.value == app.value)
      && (app.None? || app.value.status != 1 ==> r == Err(ServiceError(400, "无权限操作或接口所属应用状态异常")))
      && (app.Some? && app.value.status == 1 && app.value.api_count >= MaxApiCount ==>
            r == Err(ServiceError(400, "单应用最多创建30个接口")))
    ensures var k := FirstClash(apis, data);
      AcceptsApis(ApplicationService.FindByIdAndUid(apps, data.app_id, uid)) && k < |apis| ==>
        r == Err(ServiceError(400, if apis[k].name == data.name then "当前应用下接口名已存在" else "当前应用下接口uri已存在"))
  {
    match ApplicationService.FindByIdAndUid(apps, data.app_id, uid)
    case None => Err(ServiceError(400, "无权限操作或接口所属应用状态异常"))
    case Some(app) =>
      if app.status != 1 then Err(ServiceError(400, "无权限操作或接口所属应用状态异常"))
      else if app.api_count >= MaxApiCount then Err(ServiceError(400, "单应用最多创建30个接口"))
      else
        var k := FirstClash(apis, data);
        if k < |apis| then
          if apis[k].name == data.name then Err(ServiceError(400, "当前应用下接口名已存在"))
          else Err(ServiceError(400, "当前应用下接口uri已存在"))
        else Ok(app)
  }

  /** The record `Interface(data).save()` stores: the slug and `vir_uid`
      come from the application, the owner and creator are the caller, and
      the schema trims the name and uri and fills in the defaults. */
  function NewInterface(data: ApiFields, app: Application, uid: nat, id: nat): (i: Interface)
    ensures i.app_id == data.app_id && i.app_slug == app.slug && i.vir_uid == app.vir_uid
    ensures i.uid == uid && i.creator == uid
  {
    Interface(id, data.app_id, app.slug, uid, app.vir_uid, Trim(data.name), data.describe.GetOr(DefaultDescribe),
              Trim(data.uri), data.verb, data.response_rules, uid, data.status.GetOr(InterfaceModel.DefaultStatus))
  }

  lemma AppendKeepsApisUnique(apis: seq<Interface>, n: Interface, data: ApiFields)
    requires ApisUniquePerApp(apis)
    requires n.app_id == data.app_id && n.name == data.name && n.verb == data.verb && n.uri == data.uri
    requires forall j :: 0 <= j < |apis| ==> !Clashes(apis[j], data.app_id, data)
    ensures ApisUniquePerApp(apis + [n])
  {
    var s := apis + [n];
    forall i, j | 0 <= i < j < |s| && s[i].app_id == s[j].app_id
      ensures s[i].name != s[j].name && (s[i].verb != s[j].verb || s[i].uri != s[j].uri)
    {
      if j == |apis| {
        assert s[i] == apis[i];
      }
    }
  }

  /** A successful insert of a trimmed name and uri keeps names, and methods
      with uris, unique within each application. */
  lemma InsertKeepsApisUnique(apps: seq<Application>, apis: seq<Interface>, uid: nat, data: ApiFields, id: nat)
    requires ApisUniquePerApp(apis)
    requires Trim(data.name) == data.name && Trim(data.uri) == data.uri
    requires PlanInsertApi(apps, apis, uid, data).Ok?
    ensures ApisUniquePerApp(apis + [NewInterface(data, PlanInsertApi(apps, apis, uid, data).value, uid, id)])
  {
    var n := NewInterface(data, PlanInsertApi(apps, apis, uid, data).value, uid, id);
    AppendKeepsApisUnique(apis, n, data);
  }

  /** Under unique application ids, an accepted insert leaves the
      application's `api_count` at most the cap of 30. */
  lemma InsertKeepsApiCap(apps: seq<Application>, apis: seq<Interface>, uid: nat, data: ApiFields, k: nat)
    requires ApplicationService.AppIdsUnique(apps)
    requires PlanInsertApi(apps, apis, uid, data).Ok?
    requires k == FirstIndex(apps, (a: Application) => a.id == data.app_id)
    ensures k < |apps| && apps[k] == PlanInsertApi(apps, apis, uid, data).value
    ensures ApplicationService.AddApiCount(apps, data.app_id, 1)[k].api_count <= MaxApiCount
  {
    var app := PlanInsertApi(apps, apis, uid, data).value;
    var e := FirstIndex(apps, (a: Application) => a.id == data.app_id && a.uid == uid);
    assert apps[e] == app;
    assert apps[k].id == apps[e].id;
    ApplicationService.AddApiCountEffect(apps, data.app_id, 1, k);
  }

  /** `insertByUid`: the new interface gets the next id and its
      application's `api_count` goes up by exactly one, unless `save`
      refuses the record, which then changes nothing. */
  method InsertByUid(db: Database, uid: nat, data: ApiFields) returns (r: Result<Interface>)
    modifies db
    ensures var plan := PlanInsertApi(old(db.apps), old(db.apis), uid, data);
      && (plan.Err? ==> r == Err(plan.error))
      && (plan.Ok? && !Storable(NewInterface(data, plan.value, uid, old(db.nextId))) ==> r == Err(ValidationRejected))
      && (plan.Ok? && Storable(NewInterface(data, plan.value, uid, old(db.nextId))) ==>
            r == Ok(NewInterface(data, plan.value, uid, old(db.nextId))))
    ensures r.Err? ==> db.apps == old(db.apps) && db.apis == old(db.apis) && db.nextId == old(db.nextId)
    ensures r.Ok? ==>
      && db.apis == old(db.apis) + [r.value]
      && db.apps == ApplicationService.AddApiCount(old(db.apps), data.app_id, 1)
      && db.nextId == old(db.nextId) + 1
    ensures db.users == old(db.users)
  {
    var plan := PlanInsertApi(db.apps, db.apis, uid, data);
    if plan.Err? {
      return Err(plan.error);
    }
    var api := NewInterface(data, plan.value, uid, db.nextId);
    if !Storable(api) {
      return Err(ValidationRejected);
    }
    StoreApi(db, api);
    r := Ok(api);
  }

  /** The writes of `insertByUid` once `save` has accepted the record: the
      record is appended under the id it was given and its application's
      `api_count` goes up by one. */
  method StoreApi(db: Database, api: Interface)
    modifies db
    ensures db.apis == old(db.apis) + [api]
    ensures db.apps == ApplicationService.AddApiCount(old(db.apps), api.app_id, 1)
    ensures db.nextId == old(db.nextId) + 1 && db.users == old(db.users)
  {
    db.apis := db.apis + [api];
    db.nextId := db.nextId + 1;
    ApplicationService.IncreaseApiCountByAppId(db, api.app_id, 1);
  }

  /** A uri the create rules admit but that holds a `/` passes every check
      of `insertByUid` and is then refused by `save`. */
  lemma NestedUriRefusedOnSave(data: ApiFields, app: Application, uid: nat, id: nat, k: nat)
    requires k < |Trim(data.uri)| && Trim(data.uri)[k] == '/'
    ensures !Storable(NewInterface(data, app, uid, id))
  {
    NestedUriNotStorable(NewInterface(data, app, uid, id), k);
  }

  // ---------------------------------------------------------------------
  // Update

  /** A clash with an interface other than the one being edited. */
  predicate ClashesOther(i: Interface, app_id: nat, api_id: nat, data: ApiFields) {
    Clashes(i, app_id, data) && i.id != api_id
  }

  /** The checks of `updateByIdAndUid`, in order; the edited interface on
      success. The duplicate check excludes the interface itself. */
  function PlanUpdateApi(apis: seq<Interface>, api_id: nat, uid: nat, data: ApiFields): (r: Result<Interface>)
    ensures r.Ok? ==> r.value in apis && r.value.id == api_id && r.value.uid == uid
    ensures r.Ok? ==> forall k :: 0 <= k < |apis| ==> !ClashesOther(apis[k], r.value.app_id, api_id, data)
    ensures (forall k :: 0 <= k < |apis| ==> !(apis[k].id == api_id && apis[k].uid == uid)) ==>
      r == Err(ServiceError(400, NoAccessMessage))
  {
    match FindFirst(apis, (i: Interface) => i.id == api_id && i.uid == uid)
    case None => Err(ServiceError(400, NoAccessMessage))
    case Some(info) =>
      var k := FirstIndex(apis, (i: Interface) => ClashesOther(i, info.app_id, api_id, data));
      if k < |apis| then
        if apis[k].name == data.name then Err(ServiceError(400, "该接口名已被占用，请重新设置"))
        else Err(ServiceError(400, "该uri已被占用，请重新设置"))
      else Ok(info)
  }

  /** `delete data._id … delete data.creator` and `updateOne`: the fields
      the body may change, the schema trimming name and uri. */
  function ApplyApiFields(i: Interface, data: ApiFields): Interface {
    i.(name := Trim(data.name), uri := Trim(data.uri), verb := data.verb,
       describe := data.describe.GetOr(i.describe),
       response_rules := if data.response_rules == Undefined then i.response_rules else data.response_rules,
       status := data.status.GetOr(i.status))
  }

  /** An update never changes `_id`, `app_id`, `app_slug`, `vir_uid`, `uid` or
      `creator`, whatever the body holds. */
  lemma UpdateKeepsApiProtected(i: Interface, data: ApiFields)
    ensures var j := ApplyApiFields(i, data);
      && j.id == i.id && j.app_id == i.app_id && j.app_slug == i.app_slug
      && j.vir_uid == i.vir_uid && j.uid == i.uid && j.creator == i.creator
  {
  }

  function UpdateApi(apis: seq<Interface>, api_id: nat, data: ApiFields): seq<Interface> {
    UpdateFirst(apis, (i: Interface) => i.id == api_id, (i: Interface) => ApplyApiFields(i, data))
  }

  /** Under unique ids, an accepted update of a trimmed name and uri keeps
      names, and methods with uris, unique within each application. */
  lemma UpdateKeepsApisUnique(apis: seq<Interface>, api_id: nat, uid: nat, data: ApiFields)
    requires ApisUniquePerApp(apis) && ApiIdsUnique(apis)
    requires Trim(data.name) == data.name && Trim(data.uri) == data.uri
    requires PlanUpdateApi(apis, api_id, uid, data).Ok?
    ensures ApisUniquePerApp(UpdateApi(apis, api_id, data))
  {
    var info := PlanUpdateApi(apis, api_id, uid, data).value;
    var t := FirstIndex(apis, (i: Interface) => i.id == api_id);
    PlanUpdateApiAt(apis, api_id, uid, data);
    var edited := ApplyApiFields(info, data);
    assert UpdateApi(apis, api_id, data) == apis[t := edited];
    assert edited.app_id == info.app_id && edited.name == data.name && edited.uri == data.uri && edited.verb == data.verb;
    NoClashWithOthers(apis, t, api_id, info.app_id, data);
    ReplaceKeepsApisUnique(apis, t, edited);
  }

  /** Under unique ids, the interface an accepted update edits is the first
      one with that id. */
  lemma PlanUpdateApiAt(apis: seq<Interface>, api_id: nat, uid: nat, data: ApiFields)
    requires ApiIdsUnique(apis)
    requires PlanUpdateApi(apis, api_id, uid, data).Ok?
    ensures var t := FirstIndex(apis, (i: Interface) => i.id == api_id);
      t < |apis| && apis[t] == PlanUpdateApi(apis, api_id, uid, data).value
  {
    var info := PlanUpdateApi(apis, api_id, uid, data).value;
    var t := FirstIndex(apis, (i: Interface) => i.id == api_id);
    var e :| 0 <= e < |apis| && apis[e] == info;
    assert t == e by {
      assert apis[e].id == api_id;
    }
  }

  /** Under unique ids, an update that clashes with no interface but itself
      leaves the other interfaces of its application with other names, and
      other methods or uris. */
  lemma NoClashWithOthers(apis: seq<Interface>, t: nat, api_id: nat, app_id: nat, data: ApiFields)
    requires ApiIdsUnique(apis) && t < |apis| && apis[t].id == api_id
    requires forall k :: 0 <= k < |apis| ==> !ClashesOther(apis[k], app_id, api_id, data)
    ensures forall o :: 0 <= o < |apis| && o != t && apis[o].app_id == app_id ==>
      apis[o].name != data.name && (apis[o].verb != data.verb || apis[o].uri != data.uri)
  {
    forall o | 0 <= o < |apis| && o != t && apis[o].app_id == app_id
      ensures apis[o].name != data.name && (apis[o].verb != data.verb || apis[o].uri != data.uri)
    {
      assert apis[o].id != api_id;
      assert !ClashesOther(apis[o], app_id, api_id, data);
    }
  }

  /** Replacing one interface by one that clashes with no other interface of
      its application keeps the table unique per application. */
  lemma ReplaceKeepsApisUnique(apis: seq<Interface>, t: nat, edited: Interface)
    requires ApisUniquePerApp(apis) && t < |apis|
    requires forall o :: 0 <= o < |apis| && o != t && apis[o].app_id == edited.app_id ==>
      apis[o].name != edited.name && (apis[o].verb != edited.verb || apis[o].uri != edited.uri)
    ensures ApisUniquePerApp(apis[t := edited])
  {
    var s := apis[t := edited];
    forall i, j | 0 <= i < j < |s| && s[i].app_id == s[j].app_id
      ensures s[i].name != s[j].name && (s[i].verb != s[j].verb || s[i].uri != s[j].uri)
    {
      if i != t && j != t {
        assert s[i] == apis[i] && s[j] == apis[j];
      }
    }
  }

  /** `updateByIdAndUid`: on success the interface is rewritten and the
      answer is data generated from the new rules, or from null. */
  method UpdateByIdAndUid(db: Database, api_id: nat, uid: nat, data: ApiFields, gen: Value -> Value)
    returns (r: Result<Value>)
    modifies db
    ensures r.Err? <==> PlanUpdateApi(old(db.apis), api_id, uid, data).Err?
    ensures r.Err? ==> r.error == PlanUpdateApi(old(db.apis), api_id, uid, data).error && db.apis == old(db.apis)
    ensures r.Ok? ==> r.value == gen(if Truthy(data.response_rules) then data.response_rules else Null)
    ensures r.Ok? ==> db.apis == UpdateApi(old(db.apis), api_id, data)
    ensures db.users == old(db.users) && db.apps == old(db.apps) && db.nextId == old(db.nextId)
  {
    var plan := PlanUpdateApi(db.apis, api_id, uid, data);
    if plan.Err? {
      return Err(plan.error);
    }
    db.apis := UpdateApi(db.apis, api_id, data);
    r := Ok(gen(if Truthy(data.response_rules) then data.response_rules else Null));
  }

  // ---------------------------------------------------------------------
  // Empty and delete

  /** The interface table after `deleteMany({ app_slug, uid })`. */
  function Emptied(apis: seq<Interface>, app_slug: string, uid: nat): seq<Interface> {
    RemoveAll(apis, (i: Interface) => i.app_slug == app_slug && i.uid == uid)
  }

  /** The application table after `updateOne({ slug, uid }, { api_count: 0 })`. */
  function CountCleared(apps: seq<Application>, app_slug: string, uid: nat): seq<Application> {
    UpdateFirst(apps, (a: Application) => a.slug == app_slug && a.uid == uid, (a: Application) => a.(api_count := 0))
  }

  /** `emptyByAppSlugAndUid`: every interface of (slug, owner) is removed and
      that application's `api_count` is set to 0. */
  method EmptyByAppSlugAndUid(db: Database, app_slug: string, uid: nat)
    modifies db
    ensures db.apis == Emptied(old(db.apis), app_slug, uid)
    ensures forall x :: x in db.apis ==> !(x.app_slug == app_slug && x.uid == uid)
    ensures db.apps == CountCleared(old(db.apps), app_slug, uid)
    ensures db.users == old(db.users) && db.nextId == old(db.nextId)
  {
    db.apis := Emptied(db.apis, app_slug, uid);
    db.apps := CountCleared(db.apps, app_slug, uid);
  }

  /** Where the caller's interface with that id sits; `|apis|` when there is
      none. */
  function OwnedIndex(apis: seq<Interface>, api_id: nat, uid: nat): (k: nat)
    ensures k <= |apis|
    ensures k < |apis| ==> apis[k].id == api_id && apis[k].uid == uid
    ensures forall j :: 0 <= j < k ==> !(apis[j].id == api_id && apis[j].uid == uid)
  {
    FirstIndex(apis, (i: Interface) => i.id == api_id && i.uid == uid)
  }

  /** `deleteByIdAndUid`: the interface is removed and its application's
      `api_count` goes down by one. */
  method DeleteByIdAndUid(db: Database, api_id: nat, uid: nat) returns (r: Result<Interface>)
    modifies db
    ensures var k := OwnedIndex(old(db.apis), api_id, uid);
      && (k == |old(db.apis)| ==>
            r == Err(ServiceError(400, NoAccessMessage)) && db.apis == old(db.apis) && db.apps == old(db.apps))
      && (k < |old(db.apis)| ==>
            && r == Ok(old(db.apis)[k])
            && db.apis == RemoveAt(old(db.apis), k)
            && db.apps == ApplicationService.AddApiCount(old(db.apps), old(db.apis)[k].app_id, -1))
    ensures db.users == old(db.users) && db.nextId == old(db.nextId)
  {
    var k := OwnedIndex(db.apis, api_id, uid);
    if k == |db.apis| {
      return Err(ServiceError(400, NoAccessMessage));
    }
    var info := db.apis[k];
    db.apis := RemoveAt(db.apis, k);
    ApplicationService.DecreaseApiCountByAppId(db, info.app_id, 1);
    r := Ok(info);
  }

  // ---------------------------------------------------------------------
  // Copy and move

  /** `find({ _id: { $in: api_ids }, uid })`, in table order. */
  function Selected(apis: seq<Interface>, api_ids: seq<nat>, uid: nat): (r: seq<Interface>)
    ensures forall x :: x in r <==> x in apis && x.id in api_ids && x.uid == uid
  {
    Filter(apis, (i: Interface) => i.id in api_ids && i.uid == uid)
  }

  /** The guards copy and move share: the target application of the caller,
      below the cap. */
  function PlanTarget(apps: seq<Application>, target_app_slug: string, uid: nat): (r: Result<Application>)
    ensures r.Ok? <==> (ApplicationService.FindByUidAndSlug(apps, uid, target_app_slug).Some? &&
                        ApplicationService.FindByUidAndSlug(apps, uid, target_app_slug).value.api_count < MaxApiCount)
    ensures r.Ok? ==> r.value == ApplicationService.FindByUidAndSlug(apps, uid, target_app_slug).value
    ensures ApplicationService.FindByUidAndSlug(apps, uid, target_app_slug).None? ==>
      r == Err(ServiceError(400, TargetMissingMessage))
  {
    match ApplicationService.FindByUidAndSlug(apps, uid, target_app_slug)
    case None => Err(ServiceError(400, TargetMissingMessage))
    case Some(app) =>
      if app.api_count >= MaxApiCount then Err(ServiceError(400, TargetFullMessage)) else Ok(app)
  }

  /** One copy: `name_date`, `uri/oldslug_date`, re-homed to the target,
      under a fresh id. */
  function CopiedApi(o: Interface, target: Application, now: string, id: nat): Interface {
    o.(id := id, name := o.name + "_" + now, uri := o.uri + "/" + o.app_slug + "_" + now,
       app_id := target.id, app_slug := target.slug)
  }

  function CopiedApis(list: seq<Interface>, target: Application, now: string, firstId: nat): (r: seq<Interface>)
    ensures |r| == |list|
  {
    seq(|list|, k requires 0 <= k < |list| => CopiedApi(list[k], target, now, firstId + k))
  }

  /** The `forEach` loop of `copyApi` that renames and re-homes the copies. */
  method CopyRenamed(list: seq<Interface>, target: Application, now: string, firstId: nat) returns (out: seq<Interface>)
    ensures out == CopiedApis(list, target, now, firstId)
  {
    out := [];
    var i := 0;
    while i < |list|
      invariant 0 <= i <= |list|
      invariant out == CopiedApis(list[..i], target, now, firstId)
    {
      out := out + [CopiedApi(list[i], target, now, firstId + i)];
      i := i + 1;
    }
    assert list[..i] == list;
  }

  /** Copies belong to the target, carry the suffixes, and keep method,
      rules, owner and status. */
  lemma CopiesRenamed(list: seq<Interface>, target: Application, now: string, firstId: nat)
    ensures var out := CopiedApis(list, target, now, firstId);
      forall k :: 0 <= k < |out| ==>
        && out[k].app_id == target.id && out[k].app_slug == target.slug
        && out[k].name == list[k].name + "_" + now
        && out[k].uri == list[k].uri + "/" + list[k].app_slug + "_" + now
        && out[k].verb == list[k].verb && out[k].response_rules == list[k].response_rules
        && out[k].uid == list[k].uid && out[k].status == list[k].status
  {
  }

  /** Every non-empty copy is refused by validation: each copied uri holds
      the `/` that joins the old uri and the suffix. */
  lemma CopiesNeverStorable(list: seq<Interface>, target: Application, now: string, firstId: nat)
    requires list != []
    ensures !AllStorable(CopiedApis(list, target, now, firstId))
  {
    var c := CopiedApis(list, target, now, firstId)[0];
    assert c.uri[|list[0].uri|] == '/';
    NestedUriNotStorable(c, |list[0].uri|);
  }

  /** `copyApi` as written: with something selected, the target's
      `api_count` goes DOWN by the number selected, and then `insertMany`
      refuses the copies, so nothing is stored and the call fails. With
      nothing selected, nothing changes. */
  method CopyApi(db: Database, target_app_slug: string, api_ids: seq<nat>, uid: nat, now: string)
    returns (r: Result<Application>)
    modifies db
    ensures var plan := PlanTarget(old(db.apps), target_app_slug, uid);
      var list := Selected(old(db.apis), api_ids, uid);
      && (plan.Err? || list == [] ==>
            r == plan && db.apps == old(db.apps) && db.apis == old(db.apis) && db.nextId == old(db.nextId))
      && (plan.Ok? && list != [] ==>
            && r == Err(ValidationRejected)
            && db.apps == ApplicationService.AddApiCount(old(db.apps), plan.value.id, -(|list| as int))
            && db.apis == old(db.apis) && db.nextId == old(db.nextId))
    ensures db.users == old(db.users)
  {
    r := PlanTarget(db.apps, target_app_slug, uid);
    if r.Err? {
      return;
    }
    var list := Selected(db.apis, api_ids, uid);
    if list != [] {
      CopiesNeverStorable(list, r.value, now, db.nextId);
    }
    var stored := CopyInto(db, list, r.value, now);
    if !stored {
      r := Err(ValidationRejected);
    }
  }

  /** The writes of `copyApi` once the target passed its checks: nothing
      when the list is empty; otherwise the count is lowered, and
      `insertMany` stores every copy or, when one fails validation, none. */
  method CopyInto(db: Database, list: seq<Interface>, target: Application, now: string) returns (stored: bool)
    modifies db
    ensures list == [] ==> stored && db.apps == old(db.apps) && db.apis == old(db.apis) && db.nextId == old(db.nextId)
    ensures list != [] ==> db.apps == ApplicationService.AddApiCount(old(db.apps), target.id, -(|list| as int))
    ensures list != [] ==>
      var copies := CopiedApis(list, target, now, old(db.nextId));
      && (AllStorable(copies) ==> stored && db.apis == old(db.apis) + copies && db.nextId == old(db.nextId) + |list|)
      && (!AllStorable(copies) ==> !stored && db.apis == old(db.apis) && db.nextId == old(db.nextId))
    ensures db.users == old(db.users)
  {
    if list == [] {
      return true;
    }
    var copies := CopyRenamed(list, target, now, db.nextId);
    ApplicationService.DecreaseApiCountByAppId(db, target.id, |copies|);
    stored := AllStorable(copies);
    if stored {
      db.apis := db.apis + copies;
      db.nextId := db.nextId + |copies|;
    }
  }

  /** Because copying lowers the target's count, an accepted copy leaves the
      target below the cap again, so copies into it are never refused for
      being full. */
  lemma CopyApiStaysBelowCap(apps: seq<Application>, target_app_slug: string, uid: nat, n: nat, k: nat)
    requires PlanTarget(apps, target_app_slug, uid).Ok?
    requires k == FirstIndex(apps, (a: Application) => a.id == PlanTarget(apps, target_app_slug, uid).value.id)
    ensures k < |apps|
    ensures n > 0 ==> ApplicationService.AddApiCount(apps, apps[k].id, -(n as int))[k].api_count < apps[k].api_count
    ensures apps[k] == PlanTarget(apps, target_app_slug, uid).value ==>
      ApplicationService.AddApiCount(apps, apps[k].id, -(n as int))[k].api_count < MaxApiCount
  {
    var target := PlanTarget(apps, target_app_slug, uid).value;
    var e := FirstIndex(apps, (a: Application) => a.uid == uid && a.slug == target_app_slug);
    assert apps[e] == target;
    ApplicationService.AddApiCountEffect(apps, target.id, -(n as int), k);
  }

  /** What `updateOne({ _id: o._id }, api_data)` writes for one moved
      interface, computed from the record as `find` returned it. */
  function Moved(o: Interface, target: Application, now: string): Interface {
    o.(app_id := target.id, app_slug := target.slug,
       name := o.name + "_" + o.app_slug + "_" + now, uri := o.uri + "/" + o.app_slug + "_" + now)
  }

  function MoveOne(apis: seq<Interface>, o: Interface, target: Application, now: string): seq<Interface> {
    UpdateFirst(apis, (x: Interface) => x.id == o.id, (x: Interface) => Moved(o, target, now))
  }

  /** The table after the `for` loop of `moveApi` has moved `list` in
      order. */
  function MoveAll(apis: seq<Interface>, list: seq<Interface>, target: Application, now: string): seq<Interface>
    decreases |list|
  {
    if list == [] then apis
    else MoveOne(MoveAll(apis, list[..|list| - 1], target, now), list[|list| - 1], target, now)
  }

  /** Moving keeps each record's id in place. */
  lemma {:induction false} MoveAllKeepsIds(apis: seq<Interface>, list: seq<Interface>, target: Application, now: string)
    ensures |MoveAll(apis, list, target, now)| == |apis|
    ensures forall k :: 0 <= k < |apis| ==> MoveAll(apis, list, target, now)[k].id == apis[k].id
    decreases |list|
  {
    if list != [] {
      MoveAllKeepsIds(apis, list[..|list| - 1], target, now);
    }
  }

  /** Moving one record of the table, through a table with the same ids in
      the same places, rewrites that record's place and no other. */
  lemma MoveOneAt(apis: seq<Interface>, before: seq<Interface>, x: Interface, k: nat, target: Application, now: string)
    requires ApiIdsUnique(apis)
    requires |before| == |apis| && forall j :: 0 <= j < |apis| ==> before[j].id == apis[j].id
    requires k < |apis| && apis[k] == x
    ensures forall j :: 0 <= j < |apis| ==>
      MoveOne(before, x, target, now)[j] == if j == k then Moved(x, target, now) else before[j]
  {
    var f := FirstIndex(before, (y: Interface) => y.id == x.id);
    assert before[k].id == x.id;
    assert before[f].id == apis[f].id;
  }

  /** Under unique ids, moving a list of records taken from the table
      rewrites exactly those records, each once. */
  lemma {:induction false} MoveAllIsUpdateAll(apis: seq<Interface>, list: seq<Interface>, target: Application, now: string)
    requires ApiIdsUnique(apis)
    requires forall x :: x in list ==> x in apis
    ensures |MoveAll(apis, list, target, now)| == |apis|
    ensures forall j :: 0 <= j < |apis| ==>
      MoveAll(apis, list, target, now)[j] == if apis[j] in list then Moved(apis[j], target, now) else apis[j]
    decreases |list|
  {
    MoveAllKeepsIds(apis, list, target, now);
    if list != [] {
      var init, x := list[..|list| - 1], list[|list| - 1];
      assert list == init + [x];
      MoveAllIsUpdateAll(apis, init, target, now);
      var before := MoveAll(apis, init, target, now);
      MoveAllKeepsIds(apis, init, target, now);
      assert x in list;
      var k :| 0 <= k < |apis| && apis[k] == x;
      MoveOneAt(apis, before, x, k, target, now);
      assert MoveAll(apis, list, target, now) == MoveOne(before, x, target, now);
      forall j | 0 <= j < |apis|
        ensures MoveAll(apis, list, target, now)[j] == if apis[j] in list then Moved(apis[j], target, now) else apis[j]
      {
        if j != k {
          assert apis[j].id != apis[k].id;
          assert apis[j] in list <==> apis[j] in init;
        }
      }
    }
  }

  /** `moveApi`: the selected interfaces are renamed and re-homed in place;
      the target's `api_count` goes up by the number moved (even zero) and
      the source application's count is not touched. */
  method MoveApi(db: Database, target_app_slug: string, api_ids: seq<nat>, uid: nat, now: string)
    returns (r: Result<Application>)
    modifies db
    ensures r == PlanTarget(old(db.apps), target_app_slug, uid)
    ensures r.Err? ==> db.apps == old(db.apps) && db.apis == old(db.apis)
    ensures r.Ok? ==>
      var list := Selected(old(db.apis), api_ids, uid);
      && db.apis == MoveAll(old(db.apis), list, r.value, now)
      && db.apps == ApplicationService.AddApiCount(old(db.apps), r.value.id, |list|)
    ensures db.users == old(db.users) && db.nextId == old(db.nextId)
  {
    r := PlanTarget(db.apps, target_app_slug, uid);
    if r.Err? {
      return;
    }
    var list := Selected(db.apis, api_ids, uid);
    MoveEach(db, list, r.value, now);
    ApplicationService.IncreaseApiCountByAppId(db, r.value.id, |list|);
  }

  /** The `for` loop of `moveApi`: each listed interface is rewritten in
      turn. */
  method MoveEach(db: Database, list: seq<Interface>, target: Application, now: string)
    modifies db
    ensures db.apis == MoveAll(old(db.apis), list, target, now)
    ensures db.apps == old(db.apps) && db.users == old(db.users) && db.nextId == old(db.nextId)
  {
    var i := 0;
    while i < |list|
      invariant 0 <= i <= |list|
      invariant db.apis == MoveAll(old(db.apis), list[..i], target, now)
      invariant db.apps == old(db.apps) && db.users == old(db.users) && db.nextId == old(db.nextId)
    {
      MoveAllStep(old(db.apis), list, i, target, now);
      db.apis := MoveOne(db.apis, list[i], target, now);
      i := i + 1;
    }
    assert list[..i] == list;
  }

  /** One more turn of the loop moves one more interface. */
  lemma MoveAllStep(apis: seq<Interface>, list: seq<Interface>, i: nat, target: Application, now: string)
    requires i < |list|
    ensures MoveAll(apis, list[..i + 1], target, now) == MoveOne(MoveAll(apis, list[..i], target, now), list[i], target, now)
  {
    assert list[..i + 1][..i] == list[..i];
  }

  /** Under unique ids, the moved table is the old one with exactly the
      caller's selected interfaces rewritten. */
  lemma MoveApiEffect(apis: seq<Interface>, api_ids: seq<nat>, uid: nat, target: Application, now: string)
    requires ApiIdsUnique(apis)
    ensures var moved := MoveAll(apis, Selected(apis, api_ids, uid), target, now);
      && |moved| == |apis|
      && forall k :: 0 <= k < |apis| ==>
           moved[k] == if apis[k].id in api_ids && apis[k].uid == uid then Moved(apis[k], target, now) else apis[k]
  {
    MoveAllIsUpdateAll(apis, Selected(apis, api_ids, uid), target, now);
  }

  // ---------------------------------------------------------------------
  // Request validation (`validateRules`, checked by the console controller
  // before create and update)

  /** `type: 'object'` with `required: false`: a missing or null value is
      skipped, and any other must be an object or an array
      (`typeof value === 'object'`). */
  predicate ObjectRuleOk(v: Value) {
    v.Undefined? || v.Null? || v.Arr? || v.Obj?
  }

  /** `validateRules`: a name of 2 to 36 UTF-16 code units (not trimmed),
      the create-time uri pattern, one of the four methods, rules that are
      an object, and a description of at most 200 code units. */
  predicate ApiRulesOk(d: ApiFields) {
    && 2 <= Utf16Length(d.name) <= 36 && UriCreate(d.uri) && MethodOk(d.verb)
    && ObjectRuleOk(d.response_rules) && ApplicationService.DescribeRuleOk(d.describe)
  }

  /** The validator writes the trimmed uri back into the body, and the
      `default` of each optional rule into a field that is missing or null:
      `''` for `describe`, `null` for `response_rules`. */
  function ValidatedApi(d: ApiFields): (v: ApiFields)
    ensures v.uri == Trim(d.uri) && Trim(v.uri) == v.uri
    ensures v.describe == Some(d.describe.GetOr(""))
    ensures v.response_rules == if d.response_rules.Undefined? then Null else d.response_rules
    ensures v.app_id == d.app_id && v.name == d.name && v.verb == d.verb && v.status == d.status
  {
    var uri := Trim(d.uri);
    assert Trim(uri) == uri by {
      TrimOfTrimmed(uri);
    }
    d.(uri := uri, describe := Some(d.describe.GetOr("")),
       response_rules := if d.response_rules.Undefined? then Null else d.response_rules)
  }

  /** So an edit whose body leaves out `describe` and `response_rules`
      clears both: the description becomes `''` and the rules become null,
      whatever they were. */
  lemma OmittedFieldsCleared(i: Interface, d: ApiFields)
    requires d.describe.None? && d.response_rules.Undefined?
    ensures ApplyApiFields(i, ValidatedApi(d)).describe == ""
    ensures ApplyApiFields(i, ValidatedApi(d)).response_rules == Null
  {
  }

  /** And a created interface whose body leaves them out stores `''` and
      null. */
  lemma OmittedFieldsDefaulted(d: ApiFields, app: Application, uid: nat, id: nat)
    requires d.describe.None? && d.response_rules.Undefined?
    ensures NewInterface(ValidatedApi(d), app, uid, id).describe == ""
    ensures NewInterface(ValidatedApi(d), app, uid, id).response_rules == Null
  {
  }

  /** Trimming a uri that passed the create rule leaves one that passes it. */
  lemma UriCreateOfTrimmed(uri: string)
    requires UriCreate(uri)
    ensures UriCreate(Trim(uri))
  {
    var t := Trim(uri);
    TrimOfTrimmed(t);
    assert Trim(t) == t;
  }

  /** A body that passed `validateRules` still passes it once its uri is
      trimmed. */
  lemma ValidatedApiPasses(d: ApiFields)
    requires ApiRulesOk(d)
    ensures ApiRulesOk(ValidatedApi(d))
  {
    var v := ValidatedApi(d);
    UriCreateOfTrimmed(d.uri);
    assert UriCreate(v.uri);
  }

  /** The record a validated body with a trimmed name becomes has a
      schema-valid name and method, and the trimmed uri. */
  lemma ValidatedApiFits(d: ApiFields, app: Application, uid: nat, id: nat)
    requires ApiRulesOk(d) && Trim(d.name) == d.name
    ensures var i := NewInterface(ValidatedApi(d), app, uid, id);
      InterfaceModel.NameStored(i.name) && MethodOk(i.verb) && i.uri == Trim(d.uri)
  {
  }
}
