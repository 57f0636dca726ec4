/** The console's application actions (app/controller/console/application.js):
    the parameter guards, the data `create` hands to the service, the
    detail views, and how each action answers. A service error is what the
    action throws, for the error middleware to answer. */
module ConsoleApplication {
  import opened Common
  import opened Text
  import opened Json
  import opened Tables
  import opened UserModel
  import opened ApplicationModel
  import opened Envelope
  import opened Store
  import opened HttpContext
  import opened ApplicationService
  import BaseController
  import ErrorHandler
  import UserService
  import InterfaceModel

  const MissingParamMessage := "必要参数缺失"
  const AppMissingMessage := "应用不存在或已删除"
  const UpdateFailedMessage := "编辑失败，请稍后再试！"
  const ValidationFailedMessage := "Validation Failed"

  /** The error `ctx.validate` throws when the data breaks a rule. */
  const ValidationError := ErrorHandler.Thrown(Some(422), ValidationFailedMessage, [])

  /** `Object.assign({ app_key }, body, { uid, vir_uid, number })`. */
  function CreateData(body: AppFields, generatedKey: string, user: User, number: string): (d: AppFields)
    ensures d.uid == Some(user.id) && d.vir_uid == Some(user.vir_uid) && d.number == Some(number)
    ensures d.app_key == if body.app_key.Some? then body.app_key else Some(generatedKey)
    ensures d.(app_key := body.app_key, uid := body.uid, vir_uid := body.vir_uid, number := body.number) == body
  {
    body.(app_key := if body.app_key.Some? then body.app_key else Some(generatedKey),
          uid := Some(user.id), vir_uid := Some(user.vir_uid), number := Some(number))
  }

  /** Whatever owner, public id or number the body claims, the server's
      win; two bodies that differ only there give the same data. */
  lemma ServerFieldsWin(b1: AppFields, b2: AppFields, generatedKey: string, user: User, number: string)
    requires b1.(uid := None, vir_uid := None, number := None) == b2.(uid := None, vir_uid := None, number := None)
    ensures CreateData(b1, generatedKey, user, number) == CreateData(b2, generatedKey, user, number)
  {
    assert b1 == b2.(uid := b1.uid, vir_uid := b1.vir_uid, number := b1.number);
  }

  /** The response-template object with the given code values. */
  function TemplateDoc(t: ResponseTemplate): Value {
    Obj(map[
      "code_name" := Str(t.code_name),
      "succeed_code_value" := t.succeed_code_value,
      "failed_code_value" := t.failed_code_value,
      "data_name" := Str(t.data_name),
      "message_name" := Str(t.message_name),
      "succeed_message_value" := Str(t.succeed_message_value),
      "failed_message_value" := Str(t.failed_message_value)])
  }

  /** One stored field of an application, as `toJSON` shows it: with
      `getters` the icon getter and the response-template getter apply,
      without it the stored values are shown. */
  function FieldOf(a: Application, f: string, getters: bool): Value {
    match f
    case "_id" => Num(a.id)
    case "uid" => Num(a.uid)
    case "vir_uid" => Str(a.vir_uid)
    case "number" => Str(a.number)
    case "icon" => Str(if getters then IconShown(a.icon) else a.icon)
    case "name" => Str(a.name)
    case "slug" => Str(a.slug)
    case "app_key" => Str(a.app_key)
    case "verify_rule" => Str(a.verify_rule)
    case "api_count" => Num(a.api_count)
    case "describe" => Str(a.describe)
    case "status" => Num(a.status)
    case "response_template" => TemplateDoc(if getters then TemplateOf(a) else a.response_template)
    case _ => Undefined
  }

  /** The getters change the icon and the template codes only: every other
      field shows the same either way, the icon is shown under the image
      base, and the codes are normalised. */
  lemma GettersTouchIconAndTemplate(a: Application, f: string)
    ensures f != "icon" && f != "response_template" ==> FieldOf(a, f, true) == FieldOf(a, f, false)
    ensures FieldOf(a, "icon", true) == Str(IconShown(a.icon)) && FieldOf(a, "icon", false) == Str(a.icon)
    ensures FieldOf(a, "response_template", true) == TemplateDoc(NormaliseTemplate(a.response_template))
    ensures FieldOf(a, "response_template", false) == TemplateDoc(a.response_template)
  {
  }

  const AllFields := {"_id", "uid", "vir_uid", "number", "icon", "name", "slug", "app_key",
                      "verify_rule", "api_count", "describe", "status", "response_template"}

  /** The projection `base_info` asks for. */
  const BaseInfoFields := {"_id", "number", "icon", "name", "slug", "api_count", "response_template"}

  /** An application projected onto some fields, with or without the
      getters. */
  function Project(a: Application, fields: set<string>, getters: bool): (v: Value)
    ensures v.Obj? && v.fields.Keys == fields
    ensures forall f :: f in fields ==> v.fields[f] == FieldOf(a, f, getters)
  {
    Obj(map f | f in fields :: FieldOf(a, f, getters))
  }

  /** `base_info` shows a part of what `show` shows, and the same values
      there; in particular it never shows the key or the owner. */
  lemma BaseInfoIsPartOfShow(a: Application)
    ensures var full := Project(a, AllFields, true); var part := Project(a, BaseInfoFields, true);
      && part.fields.Keys <= full.fields.Keys
      && (forall f :: f in part.fields ==> part.fields[f] == full.fields[f])
      && "app_key" !in part.fields && "uid" !in part.fields
  {
    BaseInfoFieldsWithin();
  }

  lemma BaseInfoFieldsWithin()
    ensures BaseInfoFields <= AllFields && "app_key" !in BaseInfoFields && "uid" !in BaseInfoFields
  {
  }

  /** `create`: the slug guard, the merge, validation (which trims the name
      and slug), then `insert`. */
  method Create(ctx: Context, db: Database, user: User, body: AppFields, generatedKey: string, number: string,
                dirCreated: bool, storedPath: string)
    returns (thrown: Option<ErrorHandler.Thrown>)
    modifies ctx, db
    ensures !Given(body.slug) ==>
      && ctx.body == Fields(BaseController.FailedBody(MissingParamMessage, BaseController.DefaultFailedCode))
      && thrown.None? && db.apps == old(db.apps) && db.users == old(db.users) && db.nextId == old(db.nextId)
    ensures Given(body.slug) && !CreateRulesOk(CreateData(body, generatedKey, user, number)) ==>
      && thrown == Some(ValidationError) && ctx.Snapshot() == old(ctx.Snapshot())
      && db.apps == old(db.apps) && db.users == old(db.users) && db.nextId == old(db.nextId)
    ensures Given(body.slug) && CreateRulesOk(CreateData(body, generatedKey, user, number)) ==>
      var data := Validated(CreateData(body, generatedKey, user, number));
      var plan := PlanInsert(old(db.apps), data, dirCreated, storedPath);
      && (plan.Err? ==>
            && thrown == Some(ErrorHandler.FromService(plan.error))
            && db.apps == old(db.apps) && db.users == old(db.users) && db.nextId == old(db.nextId))
      && (plan.Ok? ==>
            var app := NewApplication(data, plan.value, old(db.nextId));
            && thrown.None? && db.apps == old(db.apps) + [app]
            && db.users == UserService.AddAppsCount(old(db.users), user.id, 1) && db.nextId == old(db.nextId) + 1
            && ctx.body == Fields(BaseController.SuccessBody(Project(app, AllFields, false), BaseController.DefaultSuccessMessage)))
    ensures ctx.Snapshot() == old(ctx.Snapshot()).(body := ctx.body, status := ctx.status)
    ensures db.apis == old(db.apis)
  {
    if !Given(body.slug) {
      BaseController.Failed(ctx, MissingParamMessage, BaseController.DefaultFailedCode);
      return None;
    }
    var data := CreateData(body, generatedKey, user, number);
    if !CreateRulesOk(data) {
      return Some(ValidationError);
    }
    CreateRulesFitSchema(data, "", 0);
    thrown := InsertAndShow(ctx, db, Validated(data), dirCreated, storedPath);
  }

  /** The tail of `create`: the insert of validated data, then its error
      thrown or the new application shown. */
  method InsertAndShow(ctx: Context, db: Database, data: AppFields, dirCreated: bool, storedPath: string)
    returns (thrown: Option<ErrorHandler.Thrown>)
    requires InsertReady(data)
    modifies ctx, db
    ensures var plan := PlanInsert(old(db.apps), data, dirCreated, storedPath);
      && (plan.Err? ==>
            && thrown == Some(ErrorHandler.FromService(plan.error))
            && db.apps == old(db.apps) && db.users == old(db.users) && db.nextId == old(db.nextId))
      && (plan.Ok? ==>
            var app := NewApplication(data, plan.value, old(db.nextId));
            && thrown.None? && db.apps == old(db.apps) + [app]
            && db.users == UserService.AddAppsCount(old(db.users), data.uid.value, 1) && db.nextId == old(db.nextId) + 1
            && ctx.body == Fields(BaseController.SuccessBody(Project(app, AllFields, false), BaseController.DefaultSuccessMessage)))
    ensures ctx.Snapshot() == old(ctx.Snapshot()).(body := ctx.body, status := ctx.status)
    ensures db.apis == old(db.apis)
  {
    var r := Insert(db, data, dirCreated, storedPath);
    if r.Err? {
      return Some(ErrorHandler.FromService(r.error));
    }
    BaseController.Success(ctx, Project(r.value, AllFields, false), BaseController.DefaultSuccessMessage);
    thrown := None;
  }

  /** `show` (all fields) and `base_info` (its projection): the guard, then
      the caller's application with that slug or the not-found failure. */
  method Show(ctx: Context, db: Database, user: User, slug: Option<string>, fields: set<string>)
    modifies ctx
    ensures !Given(slug) ==> ctx.body == Fields(BaseController.FailedBody(MissingParamMessage, BaseController.DefaultFailedCode))
    ensures Given(slug) ==>
      var info := FindByUidAndSlug(db.apps, user.id, slug.value);
      && (info.None? ==> ctx.body == Fields(BaseController.FailedBody(AppMissingMessage, BaseController.DefaultFailedCode)))
      && (info.Some? ==>
            ctx.body == Fields(BaseController.SuccessBody(Project(info.value, fields, true), BaseController.DefaultSuccessMessage)))
    ensures ctx.Snapshot() == old(ctx.Snapshot()).(body := ctx.body, status := ctx.status)
  {
    if !Given(slug) {
      BaseController.Failed(ctx, MissingParamMessage, BaseController.DefaultFailedCode);
      return;
    }
    var info := FindByUidAndSlug(db.apps, user.id, slug.value);
    if info.Some? {
      BaseController.Success(ctx, Project(info.value, fields, true), BaseController.DefaultSuccessMessage);
    } else {
      BaseController.Failed(ctx, AppMissingMessage, BaseController.DefaultFailedCode);
    }
  }

  /** `update`: the id guard, `updateRules`, the service, and success only
      when the store acknowledges the write with `ok === 1`. */
  method Update(ctx: Context, db: Database, user: User, id: Option<nat>, body: AppFields,
                dirCreated: bool, storedPath: string, ack: int)
    returns (thrown: Option<ErrorHandler.Thrown>)
    modifies ctx, db
    ensures id.None? ==>
      && ctx.body == Fields(BaseController.FailedBody(MissingParamMessage, BaseController.DefaultFailedCode))
      && thrown.None? && db.apps == old(db.apps)
    ensures id.Some? && !UpdateRulesOk(body) ==>
      thrown == Some(ValidationError) && ctx.Snapshot() == old(ctx.Snapshot()) && db.apps == old(db.apps)
    ensures id.Some? && UpdateRulesOk(body) ==>
      var plan := PlanUpdate(old(db.apps), user.id, id.value, Validated(body), dirCreated, storedPath);
      && (plan.Err? ==> thrown == Some(ErrorHandler.FromService(plan.error)) && db.apps == old(db.apps))
      && (plan.Ok? ==> thrown.None? && db.apps == UpdateApp(old(db.apps), id.value, plan.value))
      && (plan.Ok? && ack == 1 ==>
            ctx.body == Fields(BaseController.SuccessBody(Undefined, BaseController.DefaultSuccessMessage)))
      && (plan.Ok? && ack != 1 ==>
            ctx.body == Fields(BaseController.FailedBody(UpdateFailedMessage, BaseController.DefaultFailedCode)))
    ensures ctx.Snapshot() == old(ctx.Snapshot()).(body := ctx.body, status := ctx.status)
    ensures db.users == old(db.users) && db.apis == old(db.apis) && db.nextId == old(db.nextId)
  {
    if id.None? {
      BaseController.Failed(ctx, MissingParamMessage, BaseController.DefaultFailedCode);
      return None;
    }
    if !UpdateRulesOk(body) {
      return Some(ValidationError);
    }
    var r := UpdateByUidAndAppid(db, user.id, id.value, Validated(body), dirCreated, storedPath);
    if r.Err? {
      return Some(ErrorHandler.FromService(r.error));
    }
    if ack == 1 {
      BaseController.Success(ctx, Undefined, BaseController.DefaultSuccessMessage);
    } else {
      BaseController.Failed(ctx, UpdateFailedMessage, BaseController.DefaultFailedCode);
    }
    thrown := None;
  }

  /** An update that passed `updateRules` and the service keeps names and
      slugs unique per user. */
  lemma ValidatedUpdateKeepsUnique(apps: seq<Application>, uid: nat, id: nat, body: AppFields,
                                   dirCreated: bool, storedPath: string)
    requires UniquePerUser(apps) && AppIdsUnique(apps) && UpdateRulesOk(body)
    requires PlanUpdate(apps, uid, id, Validated(body), dirCreated, storedPath).Ok?
    ensures UniquePerUser(UpdateApp(apps, id, PlanUpdate(apps, uid, id, Validated(body), dirCreated, storedPath).value))
  {
    UpdateRulesRequireName(body);
    UpdateKeepsUnique(apps, uid, id, Validated(body), dirCreated, storedPath);
  }

  /** `destroy`: the guard, then `deleteBySlug` on the caller's
      application. */
  method Destroy(ctx: Context, db: Database, user: User, slug: Option<string>)
    returns (thrown: Option<ErrorHandler.Thrown>)
    modifies ctx, db
    ensures !Given(slug) ==>
      && ctx.body == Fields(BaseController.FailedBody(MissingParamMessage, BaseController.DefaultFailedCode))
      && thrown.None? && db.apps == old(db.apps) && db.users == old(db.users)
    ensures Given(slug) && FindByUidAndSlug(old(db.apps), user.id, slug.value).None? ==>
      && thrown == Some(ErrorHandler.FromService(ServiceError(400, NotFoundOrForbidden)))
      && db.apps == old(db.apps) && db.users == old(db.users)
    ensures Given(slug) && FindByUidAndSlug(old(db.apps), user.id, slug.value).Some? ==>
      && thrown.None?
      && db.apps == RemoveAt(old(db.apps), SlugIndex(old(db.apps), user.id, slug.value))
      && db.users == UserService.AddAppsCount(old(db.users), user.id, -1)
      && ctx.body == Fields(BaseController.SuccessBody(Undefined, BaseController.DefaultSuccessMessage))
    ensures ctx.Snapshot() == old(ctx.Snapshot()).(body := ctx.body, status := ctx.status)
    ensures db.apis == old(db.apis) && db.nextId == old(db.nextId)
  {
    if !Given(slug) {
      BaseController.Failed(ctx, MissingParamMessage, BaseController.DefaultFailedCode);
      return None;
    }
    var r := DeleteBySlug(db, slug.value, user.id);
    if r.Err? {
      return Some(ErrorHandler.FromService(r.error));
    }
    BaseController.Success(ctx, Undefined, BaseController.DefaultSuccessMessage);
    thrown := None;
  }

  /** `change_app_key`: the id guard, then the new key is the data. */
  method ChangeKey(ctx: Context, db: Database, user: User, id: Option<nat>, newKey: string)
    returns (thrown: Option<ErrorHandler.Thrown>)
    modifies ctx, db
    ensures id.None? ==>
      && ctx.body == Fields(BaseController.FailedBody(MissingParamMessage, BaseController.DefaultFailedCode))
      && thrown.None? && db.apps == old(db.apps)
    ensures id.Some? && FindByIdAndUid(old(db.apps), id.value, user.id).None? ==>
      thrown == Some(ErrorHandler.FromService(ServiceError(400, NotFoundOrForbidden))) && db.apps == old(db.apps)
    ensures id.Some? && FindByIdAndUid(old(db.apps), id.value, user.id).Some? ==>
      && thrown.None? && db.apps == KeyChanged(old(db.apps), id.value, newKey)
      && ctx.body == Fields(BaseController.SuccessBody(Str(newKey), BaseController.DefaultSuccessMessage))
    ensures ctx.Snapshot() == old(ctx.Snapshot()).(body := ctx.body, status := ctx.status)
    ensures db.users == old(db.users) && db.apis == old(db.apis) && db.nextId == old(db.nextId)
  {
    if id.None? {
      BaseController.Failed(ctx, MissingParamMessage, BaseController.DefaultFailedCode);
      return None;
    }
    var r := ChangeAppKey(db, id.value, user.id, newKey);
    if r.Err? {
      return Some(ErrorHandler.FromService(r.error));
    }
    BaseController.Success(ctx, Str(r.value), BaseController.DefaultSuccessMessage);
    thrown := None;
  }

  /** `copy`: the guard on the source slug, the new name and the new slug,
      then `copyApp`. */
  method Copy(ctx: Context, db: Database, user: User, target_slug: Option<string>, name: Option<string>,
              slug: Option<string>, describe: Option<string>, number: string, appKey: string)
    returns (thrown: Option<ErrorHandler.Thrown>)
    modifies ctx, db
    ensures !(Given(target_slug) && Given(name) && Given(slug)) ==>
      && ctx.body == Fields(BaseController.FailedBody(MissingParamMessage, BaseController.DefaultFailedCode))
      && thrown.None? && db.apps == old(db.apps) && db.apis == old(db.apis)
      && db.users == old(db.users) && db.nextId == old(db.nextId)
    ensures Given(target_slug) && Given(name) && Given(slug) ==>
      var plan := PlanCopy(old(db.apps), target_slug.value, name.value, slug.value, user.id);
      && (plan.Err? ==>
            && thrown == Some(ErrorHandler.FromService(plan.error))
            && db.apps == old(db.apps) && db.apis == old(db.apis) && db.users == old(db.users)
            && db.nextId == old(db.nextId))
      && (plan.Ok? ==>
            var app := CopiedApp(plan.value, old(db.nextId), number, name.value, slug.value, appKey, describe);
            var list := InterfacesOf(old(db.apis), plan.value.id, user.id);
            var copies := Rehomed(list, app.id, slug.value, old(db.nextId) + 1);
            && db.apps == old(db.apps) + [app]
            && db.users == (if |list| > 0 then UserService.AddAppsCount(old(db.users), user.id, 1) else old(db.users))
            && (InterfaceModel.AllStorable(copies) ==>
                  && thrown.None?
                  && db.apis == old(db.apis) + copies && db.nextId == old(db.nextId) + 1 + |list|
                  && ctx.body == Fields(BaseController.SuccessBody(Undefined, BaseController.DefaultSuccessMessage)))
            && (!InterfaceModel.AllStorable(copies) ==>
                  && thrown == Some(ErrorHandler.FromService(InterfaceModel.ValidationRejected))
                  && db.apis == old(db.apis) && db.nextId == old(db.nextId) + 1))
    ensures ctx.Snapshot() == old(ctx.Snapshot()).(body := ctx.body, status := ctx.status)
  {
    if !(Given(target_slug) && Given(name) && Given(slug)) {
      BaseController.Failed(ctx, MissingParamMessage, BaseController.DefaultFailedCode);
      return None;
    }
    var r := CopyApp(db, target_slug.value, name.value, slug.value, describe, user.id, number, appKey);
    if r.Err? {
      return Some(ErrorHandler.FromService(r.error));
    }
    BaseController.Success(ctx, Undefined, BaseController.DefaultSuccessMessage);
    thrown := None;
  }
}
