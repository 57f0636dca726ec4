/** The console's interface actions (app/controller/console/interface.js):
    the listings of an application's interfaces, the parameter guards, the
    validated create and update, copy, move, empty, delete, and the debug
    call that answers as the gateway would. A service error is what the
    action throws, for the error middleware to answer. */
module ConsoleInterface {
  import opened Common
  import opened Text
  import opened Json
  import opened Tables
  import opened UserModel
  import opened ApplicationModel
  import opened InterfaceModel
  import opened Envelope
  import opened Store
  import opened HttpContext
  import opened InterfaceService
  import ApplicationService
  import BaseController
  import ErrorHandler

  const PickAppMessage := "请指定要查找的应用"
  const PickApiMessage := "请指定要查找的接口"
  const MissingParamMessage := "必要参数缺失"
  const UpdateFailedMessage := "编辑失败，请稍后再试！"
  const AppUnavailableMessage := "接口所属应用不存在或状态异常"
  const UriMapType := "api_uri_map"

  /** The error `ctx.validate` throws when the body breaks a rule. */
  const ValidationError := ErrorHandler.Thrown(Some(422), "Validation Failed", [])

  /** One stored field of an interface as the listing shows it. */
  function FieldOf(i: Interface, f: string): Value {
    match f
    case "_id" => Num(i.id)
    case "app_id" => Num(i.app_id)
    case "app_slug" => Str(i.app_slug)
    case "uid" => Num(i.uid)
    case "vir_uid" => Str(i.vir_uid)
    case "name" => Str(i.name)
    case "describe" => Str(i.describe)
    case "uri" => Str(i.uri)
    case "method" => Str(i.verb)
    case "response_rules" => i.response_rules
    case "creator" => Num(i.creator)
    case "status" => Num(i.status)
    case _ => Undefined
  }

  /** An interface projected onto some fields. */
  function Project(i: Interface, fields: set<string>): (v: Value)
    ensures v.Obj? && v.fields.Keys == fields
    ensures forall f :: f in fields ==> v.fields[f] == FieldOf(i, f)
  {
    Obj(map f | f in fields :: FieldOf(i, f))
  }

  /** `index`'s projection (with the `_id` a projection always keeps). */
  const IndexFields := {"_id", "app_id", "app_slug", "describe", "method", "name", "response_rules", "uri"}
  const UriMapFields := {"_id", "name", "method", "uri"}
  const ListFields := {"_id", "name"}

  /** `map`'s projection: `describe` only outside the uri map. */
  function MapFields(kind: Option<string>): (fields: set<string>)
    ensures kind == Some(UriMapType) ==> "describe" !in fields
    ensures kind != Some(UriMapType) ==> fields == UriMapFields + {"describe"}
  {
    if kind == Some(UriMapType) then UriMapFields else UriMapFields + {"describe"}
  }

  const AllFields := IndexFields + {"uid", "vir_uid", "creator", "status"}

  /** `find({ uid, app_slug })`: the caller's interfaces of that
      application. */
  function OwnedBy(apis: seq<Interface>, uid: nat, app_slug: string): (r: seq<Interface>)
    ensures forall x :: x in r <==> x in apis && x.uid == uid && x.app_slug == app_slug
  {
    Filter(apis, (i: Interface) => i.uid == uid && i.app_slug == app_slug)
  }

  /** `sort: { _id: -1 }`: ids grow with insertion, so newest first is the
      table order reversed. */
  function NewestFirst<T>(s: seq<T>): (r: seq<T>)
    ensures |r| == |s|
    ensures forall k :: 0 <= k < |s| ==> r[k] == s[|s| - 1 - k]
  {
    seq(|s|, k requires 0 <= k < |s| => s[|s| - 1 - k])
  }

  /** A listing: the caller's interfaces of the application, newest first,
      each projected. */
  function Listing(apis: seq<Interface>, uid: nat, app_slug: string, fields: set<string>): (items: seq<Value>)
    ensures |items| == Count(apis, (i: Interface) => i.uid == uid && i.app_slug == app_slug)
    ensures forall k :: 0 <= k < |items| ==> items[k].Obj? && items[k].fields.Keys == fields
  {
    var list := NewestFirst(OwnedBy(apis, uid, app_slug));
    seq(|list|, k requires 0 <= k < |list| => Project(list[k], fields))
  }

  /** A listed interface with the mock data generated from its rules. */
  function Processed(i: Interface, fields: set<string>, gen: Value -> Value): (v: Value)
    ensures v.Obj? && v.fields.Keys == fields + {"succeed_response"}
    ensures v.fields["succeed_response"] == gen(i.response_rules)
  {
    var p := Project(i, fields).fields;
    assert p.Keys == fields;
    Obj(p["succeed_response" := gen(i.response_rules)])
  }

  /** `getProcessList`: each listed interface also carries mock data
      generated from its rules. */
  function ProcessListing(apis: seq<Interface>, uid: nat, app_slug: string, fields: set<string>,
                          gen: Value -> Value): (items: seq<Value>)
    ensures |items| == Count(apis, (i: Interface) => i.uid == uid && i.app_slug == app_slug)
    ensures forall k :: 0 <= k < |items| ==>
      items[k].Obj? && items[k].fields.Keys == fields + {"succeed_response"}
  {
    var list := NewestFirst(OwnedBy(apis, uid, app_slug));
    seq(|list|, k requires 0 <= k < |list| => Processed(list[k], fields, gen))
  }

  /** The uri map never shows a description and the other map always does;
      both list the same interfaces in the same order with the same ids. */
  lemma MapOmitsDescribeOnlyForUriMap(apis: seq<Interface>, uid: nat, app_slug: string, kind: Option<string>)
    ensures var items := Listing(apis, uid, app_slug, MapFields(kind));
      forall k :: 0 <= k < |items| ==> ("describe" in items[k].fields <==> kind != Some(UriMapType))
    ensures var a := Listing(apis, uid, app_slug, MapFields(Some(UriMapType)));
      var b := Listing(apis, uid, app_slug, MapFields(None));
      |a| == |b| && forall k :: 0 <= k < |a| ==> a[k].fields["_id"] == b[k].fields["_id"]
  {
    var list := NewestFirst(OwnedBy(apis, uid, app_slug));
    var a := Listing(apis, uid, app_slug, MapFields(Some(UriMapType)));
    var b := Listing(apis, uid, app_slug, MapFields(None));
    forall k | 0 <= k < |a| ensures a[k].fields["_id"] == b[k].fields["_id"] {
      assert a[k] == Project(list[k], UriMapFields);
      assert b[k] == Project(list[k], UriMapFields + {"describe"});
    }
  }

  /** `index`: the slug guard, then the limit and the processed listing. */
  method Index(ctx: Context, db: Database, user: User, app_slug: Option<string>, gen: Value -> Value)
    modifies ctx
    ensures !Given(app_slug) ==>
      ctx.body == Fields(BaseController.FailedBody(PickAppMessage, BaseController.DefaultFailedCode))
    ensures Given(app_slug) ==>
      ctx.body == Fields(BaseController.SuccessBody(
        Obj(map["max_api_count" := Num(MaxApiCount),
                "list" := Arr(ProcessListing(db.apis, user.id, app_slug.value, IndexFields, gen))]),
        BaseController.DefaultSuccessMessage))
    ensures ctx.Snapshot() == old(ctx.Snapshot()).(body := ctx.body, status := ctx.status)
  {
    if !Given(app_slug) {
      BaseController.Failed(ctx, PickAppMessage, BaseController.DefaultFailedCode);
      return;
    }
    var list := ProcessListing(db.apis, user.id, app_slug.value, IndexFields, gen);
    BaseController.Success(ctx, Obj(map["max_api_count" := Num(MaxApiCount), "list" := Arr(list)]),
                           BaseController.DefaultSuccessMessage);
  }

  /** `map` (projection chosen by `_type`) and `list` (ids and names):
      the slug guard, then the listing. */
  method Map(ctx: Context, db: Database, user: User, app_slug: Option<string>, kind: Option<string>)
    modifies ctx
    ensures !Given(app_slug) ==>
      ctx.body == Fields(BaseController.FailedBody(PickAppMessage, BaseController.DefaultFailedCode))
    ensures Given(app_slug) ==>
      ctx.body == Fields(BaseController.SuccessBody(Arr(Listing(db.apis, user.id, app_slug.value, MapFields(kind))),
                                                    BaseController.DefaultSuccessMessage))
    ensures ctx.Snapshot() == old(ctx.Snapshot()).(body := ctx.body, status := ctx.status)
  {
    if !Given(app_slug) {
      BaseController.Failed(ctx, PickAppMessage, BaseController.DefaultFailedCode);
      return;
    }
    BaseController.Success(ctx, Arr(Listing(db.apis, user.id, app_slug.value, MapFields(kind))),
                           BaseController.DefaultSuccessMessage);
  }

  method List(ctx: Context, db: Database, user: User, app_slug: Option<string>)
    modifies ctx
    ensures !Given(app_slug) ==>
      ctx.body == Fields(BaseController.FailedBody(PickApiMessage, BaseController.DefaultFailedCode))
    ensures Given(app_slug) ==>
      ctx.body == Fields(BaseController.SuccessBody(Arr(Listing(db.apis, user.id, app_slug.value, ListFields)),
                                                    BaseController.DefaultSuccessMessage))
    ensures ctx.Snapshot() == old(ctx.Snapshot()).(body := ctx.body, status := ctx.status)
  {
    if !Given(app_slug) {
      BaseController.Failed(ctx, PickApiMessage, BaseController.DefaultFailedCode);
      return;
    }
    BaseController.Success(ctx, Arr(Listing(db.apis, user.id, app_slug.value, ListFields)),
                           BaseController.DefaultSuccessMessage);
  }

  /** `findOne({ _id, uid })`. */
  function FindOwned(apis: seq<Interface>, id: nat, uid: nat): (r: Option<Interface>)
    ensures r.Some? ==> r.value in apis && r.value.id == id && r.value.uid == uid
    ensures r.None? <==> forall k :: 0 <= k < |apis| ==> !(apis[k].id == id && apis[k].uid == uid)
  {
    FindFirst(apis, (i: Interface) => i.id == id && i.uid == uid)
  }

  /** `response_rules && response_rules.length > 0`: a non-empty array of
      rules is checked item by item. */
  predicate ChecksItems(rules: Value) {
    rules.Arr? && |rules.items| > 0
  }

  /** `ctx.validate(ctx.service.interface.responseValidateRules, item)`: the
      interface service defines no `responseValidateRules`, so the validator
      is handed undefined rules and throws a `TypeError`, which carries no
      status and is answered as a 500. */
  const ItemRulesMissing := ErrorHandler.Thrown(None, "need object type rules", [])

  /** So the rules that reach the service from create or update are null,
      an object, or an empty array. */
  lemma RulesReachingService(body: ApiFields)
    requires ApiRulesOk(body) && !ChecksItems(ValidatedApi(body).response_rules)
    ensures var r := ValidatedApi(body).response_rules; r.Null? || r.Obj? || r == Arr([])
  {
  }

  /** `create`: `validateRules` (which trims the uri and fills in the
      defaults), the item check, then `insertByUid`. */
  method Create(ctx: Context, db: Database, user: User, body: ApiFields)
    returns (thrown: Option<ErrorHandler.Thrown>)
    modifies ctx, db
    ensures !ApiRulesOk(body) ==>
      && thrown == Some(ValidationError) && ctx.Snapshot() == old(ctx.Snapshot())
      && db.apps == old(db.apps) && db.apis == old(db.apis) && db.nextId == old(db.nextId)
    ensures ApiRulesOk(body) && ChecksItems(ValidatedApi(body).response_rules) ==>
      && thrown == Some(ItemRulesMissing) && ctx.Snapshot() == old(ctx.Snapshot())
      && db.apps == old(db.apps) && db.apis == old(db.apis) && db.nextId == old(db.nextId)
    ensures ApiRulesOk(body) && !ChecksItems(ValidatedApi(body).response_rules) ==>
      var uid := user.id; var data := ValidatedApi(body);
      var plan := PlanInsertApi(old(db.apps), old(db.apis), uid, data);
      && (plan.Err? ==>
            && thrown == Some(ErrorHandler.FromService(plan.error))
            && db.apps == old(db.apps) && db.apis == old(db.apis) && db.nextId == old(db.nextId))
      && (plan.Ok? && !Storable(NewInterface(data, plan.value, uid, old(db.nextId))) ==>
            && thrown == Some(ErrorHandler.FromService(ValidationRejected))
            && db.apps == old(db.apps) && db.apis == old(db.apis) && db.nextId == old(db.nextId))
      && (plan.Ok? && Storable(NewInterface(data, plan.value, uid, old(db.nextId))) ==>
            && thrown.None?
            && db.apis == old(db.apis) + [NewInterface(data, plan.value, uid, old(db.nextId))]
            && db.apps == ApplicationService.AddApiCount(old(db.apps), data.app_id, 1)
            && db.nextId == old(db.nextId) + 1
            && ctx.body == Fields(BaseController.SuccessBody(Undefined, BaseController.DefaultSuccessMessage)))
    ensures ctx.Snapshot() == old(ctx.Snapshot()).(body := ctx.body, status := ctx.status)
    ensures db.users == old(db.users)
  {
    if !ApiRulesOk(body) {
      return Some(ValidationError);
    }
    if ChecksItems(ValidatedApi(body).response_rules) {
      return Some(ItemRulesMissing);
    }
    thrown := InsertAndReport(ctx, db, user.id, ValidatedApi(body));
  }

  /** The tail of `create`: the insert of validated data, then its error
      thrown or success reported. */
  method InsertAndReport(ctx: Context, db: Database, uid: nat, data: ApiFields)
    returns (thrown: Option<ErrorHandler.Thrown>)
    modifies ctx, db
    ensures var plan := PlanInsertApi(old(db.apps), old(db.apis), uid, data);
      && (plan.Err? ==>
            && thrown == Some(ErrorHandler.FromService(plan.error))
            && db.apps == old(db.apps) && db.apis == old(db.apis) && db.nextId == old(db.nextId))
      && (plan.Ok? && !Storable(NewInterface(data, plan.value, uid, old(db.nextId))) ==>
            && thrown == Some(ErrorHandler.FromService(ValidationRejected))
            && db.apps == old(db.apps) && db.apis == old(db.apis) && db.nextId == old(db.nextId))
      && (plan.Ok? && Storable(NewInterface(data, plan.value, uid, old(db.nextId))) ==>
            && thrown.None?
            && db.apis == old(db.apis) + [NewInterface(data, plan.value, uid, old(db.nextId))]
            && db.apps == ApplicationService.AddApiCount(old(db.apps), data.app_id, 1)
            && db.nextId == old(db.nextId) + 1
            && ctx.body == Fields(BaseController.SuccessBody(Undefined, BaseController.DefaultSuccessMessage)))
    ensures ctx.Snapshot() == old(ctx.Snapshot()).(body := ctx.body, status := ctx.status)
    ensures db.users == old(db.users)
  {
    var r := InsertByUid(db, uid, data);
    if r.Err? {
      return Some(ErrorHandler.FromService(r.error));
    }
    BaseController.Success(ctx, Undefined, BaseController.DefaultSuccessMessage);
    thrown := None;
  }

  /** `show`: the id guard, then the caller's interface, or null. */
  method Show(ctx: Context, db: Database, user: User, id: Option<nat>)
    modifies ctx
    ensures id.None? ==> ctx.body == Fields(BaseController.FailedBody(MissingParamMessage, BaseController.DefaultFailedCode))
    ensures id.Some? ==>
      var info := FindOwned(db.apis, id.value, user.id);
      ctx.body == Fields(BaseController.SuccessBody(if info.Some? then Project(info.value, AllFields) else Null,
                                                    BaseController.DefaultSuccessMessage))
    ensures ctx.Snapshot() == old(ctx.Snapshot()).(body := ctx.body, status := ctx.status)
  {
    if id.None? {
      BaseController.Failed(ctx, MissingParamMessage, BaseController.DefaultFailedCode);
      return;
    }
    var info := FindOwned(db.apis, id.value, user.id);
    BaseController.Success(ctx, if info.Some? then Project(info.value, AllFields) else Null,
                           BaseController.DefaultSuccessMessage);
  }

  /** `update`: `validateRules` with its defaults, the item check, the
      service, then success with the freshly
      generated data only when the store acknowledges the write with
      `ok === 1`. */
  method Update(ctx: Context, db: Database, user: User, id: nat, body: ApiFields, gen: Value -> Value, ack: int)
    returns (thrown: Option<ErrorHandler.Thrown>)
    modifies ctx, db
    ensures !ApiRulesOk(body) ==>
      thrown == Some(ValidationError) && ctx.Snapshot() == old(ctx.Snapshot()) && db.apis == old(db.apis)
    ensures ApiRulesOk(body) && ChecksItems(ValidatedApi(body).response_rules) ==>
      thrown == Some(ItemRulesMissing) && ctx.Snapshot() == old(ctx.Snapshot()) && db.apis == old(db.apis)
    ensures ApiRulesOk(body) && !ChecksItems(ValidatedApi(body).response_rules) ==>
      var data := ValidatedApi(body);
      var plan := PlanUpdateApi(old(db.apis), id, user.id, data);
      && (plan.Err? ==> thrown == Some(ErrorHandler.FromService(plan.error)) && db.apis == old(db.apis))
      && (plan.Ok? ==> thrown.None? && db.apis == UpdateApi(old(db.apis), id, data))
      && (plan.Ok? && ack == 1 ==>
            var generated := gen(if Truthy(data.response_rules) then data.response_rules else Null);
            ctx.body == Fields(BaseController.SuccessBody(Obj(map["succeed_response" := generated]),
                                                          BaseController.DefaultSuccessMessage)))
      && (plan.Ok? && ack != 1 ==>
            ctx.body == Fields(BaseController.FailedBody(UpdateFailedMessage, BaseController.DefaultFailedCode)))
    ensures ctx.Snapshot() == old(ctx.Snapshot()).(body := ctx.body, status := ctx.status)
    ensures db.apps == old(db.apps)
  {
    if !ApiRulesOk(body) {
      return Some(ValidationError);
    }
    if ChecksItems(ValidatedApi(body).response_rules) {
      return Some(ItemRulesMissing);
    }
    thrown := UpdateAndReport(ctx, db, user.id, id, ValidatedApi(body), gen, ack);
  }

  /** The tail of `update`: the service on validated data, then its error
      thrown, or the acknowledgement reported. */
  method UpdateAndReport(ctx: Context, db: Database, uid: nat, id: nat, data: ApiFields, gen: Value -> Value, ack: int)
    returns (thrown: Option<ErrorHandler.Thrown>)
    modifies ctx, db
    ensures var plan := PlanUpdateApi(old(db.apis), id, uid, data);
      && (plan.Err? ==> thrown == Some(ErrorHandler.FromService(plan.error)) && db.apis == old(db.apis))
      && (plan.Ok? ==> thrown.None? && db.apis == UpdateApi(old(db.apis), id, data))
      && (plan.Ok? && ack == 1 ==>
            var generated := gen(if Truthy(data.response_rules) then data.response_rules else Null);
            ctx.body == Fields(BaseController.SuccessBody(Obj(map["succeed_response" := generated]),
                                                          BaseController.DefaultSuccessMessage)))
      && (plan.Ok? && ack != 1 ==>
            ctx.body == Fields(BaseController.FailedBody(UpdateFailedMessage, BaseController.DefaultFailedCode)))
    ensures ctx.Snapshot() == old(ctx.Snapshot()).(body := ctx.body, status := ctx.status)
    ensures db.apps == old(db.apps)
  {
    var r := UpdateByIdAndUid(db, id, uid, data, gen);
    if r.Err? {
      return Some(ErrorHandler.FromService(r.error));
    }
    if ack == 1 {
      BaseController.Success(ctx, Obj(map["succeed_response" := r.value]), BaseController.DefaultSuccessMessage);
    } else {
      BaseController.Failed(ctx, UpdateFailedMessage, BaseController.DefaultFailedCode);
    }
    thrown := None;
  }

  /** `empty`: the slug guard, then every interface of the caller's
      application goes. */
  method Empty(ctx: Context, db: Database, user: User, app_slug: Option<string>)
    modifies ctx, db
    ensures !Given(app_slug) ==>
      && ctx.body == Fields(BaseController.FailedBody(MissingParamMessage, BaseController.DefaultFailedCode))
      && db.apis == old(db.apis) && db.apps == old(db.apps)
    ensures Given(app_slug) ==>
      && db.apis == Emptied(old(db.apis), app_slug.value, user.id)
      && db.apps == CountCleared(old(db.apps), app_slug.value, user.id)
      && ctx.body == Fields(BaseController.SuccessBody(Undefined, BaseController.DefaultSuccessMessage))
    ensures ctx.Snapshot() == old(ctx.Snapshot()).(body := ctx.body, status := ctx.status)
    ensures db.users == old(db.users) && db.nextId == old(db.nextId)
  {
    if !Given(app_slug) {
      BaseController.Failed(ctx, MissingParamMessage, BaseController.DefaultFailedCode);
      return;
    }
    EmptyByAppSlugAndUid(db, app_slug.value, user.id);
    BaseController.Success(ctx, Undefined, BaseController.DefaultSuccessMessage);
  }

  /** The guard `copy` and `move` share: a target and a non-empty id
      list. */
  predicate TransferGiven(target_app_slug: Option<string>, api_ids: Option<seq<nat>>) {
    Given(target_app_slug) && api_ids.Some? && |api_ids.value| > 0
  }

  method Copy(ctx: Context, db: Database, user: User, target_app_slug: Option<string>,
              api_ids: Option<seq<nat>>, now: string)
    returns (thrown: Option<ErrorHandler.Thrown>)
    modifies ctx, db
    ensures !TransferGiven(target_app_slug, api_ids) ==>
      && ctx.body == Fields(BaseController.FailedBody(MissingParamMessage, BaseController.DefaultFailedCode))
      && thrown.None? && db.apis == old(db.apis) && db.apps == old(db.apps)
    ensures TransferGiven(target_app_slug, api_ids) ==>
      var plan := PlanTarget(old(db.apps), target_app_slug.value, user.id);
      var list := Selected(old(db.apis), api_ids.value, user.id);
      && (plan.Err? ==> thrown == Some(ErrorHandler.FromService(plan.error)) && db.apps == old(db.apps))
      && (plan.Ok? && list == [] ==>
            thrown.None? && db.apps == old(db.apps)
            && ctx.body == Fields(BaseController.SuccessBody(Undefined, BaseController.DefaultSuccessMessage)))
      && (plan.Ok? && list != [] ==>
            && thrown == Some(ErrorHandler.FromService(ValidationRejected))
            && db.apps == ApplicationService.AddApiCount(old(db.apps), plan.value.id, -(|list| as int)))
    ensures ctx.Snapshot() == old(ctx.Snapshot()).(body := ctx.body, status := ctx.status)
    ensures db.apis == old(db.apis) && db.users == old(db.users) && db.nextId == old(db.nextId)
  {
    if !TransferGiven(target_app_slug, api_ids) {
      BaseController.Failed(ctx, MissingParamMessage, BaseController.DefaultFailedCode);
      return None;
    }
    var r := CopyApi(db, target_app_slug.value, api_ids.value, user.id, now);
    if r.Err? {
      return Some(ErrorHandler.FromService(r.error));
    }
    BaseController.Success(ctx, Undefined, BaseController.DefaultSuccessMessage);
    thrown := None;
  }

  method Move(ctx: Context, db: Database, user: User, target_app_slug: Option<string>,
              api_ids: Option<seq<nat>>, now: string)
    returns (thrown: Option<ErrorHandler.Thrown>)
    modifies ctx, db
    ensures !TransferGiven(target_app_slug, api_ids) ==>
      && ctx.body == Fields(BaseController.FailedBody(MissingParamMessage, BaseController.DefaultFailedCode))
      && thrown.None? && db.apis == old(db.apis) && db.apps == old(db.apps)
    ensures TransferGiven(target_app_slug, api_ids) ==>
      var plan := PlanTarget(old(db.apps), target_app_slug.value, user.id);
      && (plan.Err? ==> thrown == Some(ErrorHandler.FromService(plan.error)) && db.apis == old(db.apis))
      && (plan.Err? ==> db.apps == old(db.apps))
      && (plan.Ok? ==>
            var list := Selected(old(db.apis), api_ids.value, user.id);
            && thrown.None?
            && db.apis == MoveAll(old(db.apis), list, plan.value, now)
            && db.apps == ApplicationService.AddApiCount(old(db.apps), plan.value.id, |list|)
            && ctx.body == Fields(BaseController.SuccessBody(Undefined, BaseController.DefaultSuccessMessage)))
    ensures ctx.Snapshot() == old(ctx.Snapshot()).(body := ctx.body, status := ctx.status)
    ensures db.users == old(db.users) && db.nextId == old(db.nextId)
  {
    if !TransferGiven(target_app_slug, api_ids) {
      BaseController.Failed(ctx, MissingParamMessage, BaseController.DefaultFailedCode);
      return None;
    }
    var r := MoveApi(db, target_app_slug.value, api_ids.value, user.id, now);
    if r.Err? {
      return Some(ErrorHandler.FromService(r.error));
    }
    BaseController.Success(ctx, Undefined, BaseController.DefaultSuccessMessage);
    thrown := None;
  }

  /** `destroy`: the id guard, then `deleteByIdAndUid`. */
  method Destroy(ctx: Context, db: Database, user: User, id: Option<nat>)
    returns (thrown: Option<ErrorHandler.Thrown>)
    modifies ctx, db
    ensures id.None? ==>
      && ctx.body == Fields(BaseController.FailedBody(MissingParamMessage, BaseController.DefaultFailedCode))
      && thrown.None? && db.apis == old(db.apis) && db.apps == old(db.apps)
    ensures id.Some? ==>
      var k := OwnedIndex(old(db.apis), id.value, user.id);
      && (k == |old(db.apis)| ==>
            && thrown == Some(ErrorHandler.FromService(ServiceError(400, NoAccessMessage)))
            && db.apis == old(db.apis) && db.apps == old(db.apps))
      && (k < |old(db.apis)| ==>
            && thrown.None?
            && db.apis == RemoveAt(old(db.apis), k)
            && db.apps == ApplicationService.AddApiCount(old(db.apps), old(db.apis)[k].app_id, -1)
            && ctx.body == Fields(BaseController.SuccessBody(Undefined, BaseController.DefaultSuccessMessage)))
    ensures ctx.Snapshot() == old(ctx.Snapshot()).(body := ctx.body, status := ctx.status)
    ensures db.users == old(db.users) && db.nextId == old(db.nextId)
  {
    if id.None? {
      BaseController.Failed(ctx, MissingParamMessage, BaseController.DefaultFailedCode);
      return None;
    }
    var r := DeleteByIdAndUid(db, id.value, user.id);
    if r.Err? {
      return Some(ErrorHandler.FromService(r.error));
    }
    BaseController.Success(ctx, Undefined, BaseController.DefaultSuccessMessage);
    thrown := None;
  }

  /** The outcome of `debug`: a failure message, or the envelope. */
  datatype DebugOutcome = DebugRefused(message: string) | DebugServed(body: Body)

  /** `debug`'s decisions: the id guard, the caller's interface, its
      application by id with status 1, then the gateway's success envelope. */
  function Debug(apps: seq<Application>, apis: seq<Interface>, uid: nat, api_id: Option<nat>,
                 gen: Value -> Value): (o: DebugOutcome)
    ensures api_id.None? ==> o == DebugRefused(MissingParamMessage)
    ensures api_id.Some? && FindOwned(apis, api_id.value, uid).None? ==> o == DebugRefused(NoAccessMessage)
    ensures o.DebugServed? <==>
      && api_id.Some?
      && var api := FindOwned(apis, api_id.value, uid);
      && api.Some?
      && var app := ApplicationService.FindById(apps, api.value.app_id);
      && app.Some? && app.value.status == 1
    ensures o.DebugServed? ==>
      var api := FindOwned(apis, api_id.value, uid).value;
      o.body == ProcessResponse(ApplicationService.FindById(apps, api.app_id).value, api, gen)
    ensures o.DebugRefused? && api_id.Some? && FindOwned(apis, api_id.value, uid).Some? ==>
      o.message == AppUnavailableMessage
  {
    if api_id.None? then DebugRefused(MissingParamMessage)
    else
      match FindOwned(apis, api_id.value, uid)
      case None => DebugRefused(NoAccessMessage)
      case Some(api) =>
        match ApplicationService.FindById(apps, api.app_id)
        case None => DebugRefused(AppUnavailableMessage)
        case Some(app) =>
          if app.status != 1 then DebugRefused(AppUnavailableMessage)
          else DebugServed(ProcessResponse(app, api, gen))
  }

  /** The action: the failure body, or the success body around the
      envelope. */
  method DebugAction(ctx: Context, db: Database, user: User, api_id: Option<nat>, gen: Value -> Value)
    modifies ctx
    ensures var o := Debug(db.apps, db.apis, user.id, api_id, gen);
      && (o.DebugRefused? ==> ctx.body == Fields(BaseController.FailedBody(o.message, BaseController.DefaultFailedCode)))
      && (o.DebugServed? ==>
            ctx.body == Fields(BaseController.SuccessBody(Obj(o.body), BaseController.DefaultSuccessMessage)))
    ensures ctx.Snapshot() == old(ctx.Snapshot()).(body := ctx.body, status := ctx.status)
  {
    var o := Debug(db.apps, db.apis, user.id, api_id, gen);
    if o.DebugRefused? {
      BaseController.Failed(ctx, o.message, BaseController.DefaultFailedCode);
    } else {
      BaseController.Success(ctx, Obj(o.body), BaseController.DefaultSuccessMessage);
    }
  }
}
