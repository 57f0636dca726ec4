/** The application service (app/service/application.js): lookups, create
    with per-user uniqueness of name and slug and the cap of 20, update with
    its protected fields, delete, key change, copy, the demo application a
    new user gets, the `api_count` counters and the verify-rule labels of the
    exported document. */
module ApplicationService {
  import opened Common
  import opened Text
  import opened Json
  import opened Tables
  import opened UserModel
  import opened ApplicationModel
  import opened InterfaceModel
  import opened Store
  import opened UserService

  /** `maxAppCount`. */
  const MaxAppCount := 20

  const NameOrSlugTakenMessage := "应用名或应用网址标识已在您其他应用中占用，请重新设置"
  const TooManyAppsMessage := "同一账号最多创建20个应用"
  const NotFoundOrForbidden := "应用不存在或无权限"

  // ---------------------------------------------------------------------
  // Lookups

  /** `getInfoByConditions({ uid, slug })`. */
  function FindByUidAndSlug(apps: seq<Application>, uid: nat, slug: string): (r: Option<Application>)
    ensures r.Some? ==> r.value in apps && r.value.uid == uid && r.value.slug == slug
    ensures r.None? <==> forall k :: 0 <= k < |apps| ==> !(apps[k].uid == uid && apps[k].slug == slug)
  {
    FindFirst(apps, (a: Application) => a.uid == uid && a.slug == slug)
  }

  /** `findOne({ _id, uid })`. */
  function FindByIdAndUid(apps: seq<Application>, id: nat, uid: nat): (r: Option<Application>)
    ensures r.Some? ==> r.value in apps && r.value.id == id && r.value.uid == uid
    ensures r.None? <==> forall k :: 0 <= k < |apps| ==> !(apps[k].id == id && apps[k].uid == uid)
  {
    FindFirst(apps, (a: Application) => a.id == id && a.uid == uid)
  }

  /** `findById`. */
  function FindById(apps: seq<Application>, id: nat): (r: Option<Application>)
    ensures r.Some? ==> r.value in apps && r.value.id == id
    ensures r.None? <==> forall k :: 0 <= k < |apps| ==> apps[k].id != id
  {
    FindFirst(apps, (a: Application) => a.id == id)
  }

  /** `find({ uid }).countDocuments()`. */
  function CountOf(apps: seq<Application>, uid: nat): nat {
    Count(apps, (a: Application) => a.uid == uid)
  }

  /** Some application of the user already has the name or the slug. */
  predicate NameOrSlugTaken(apps: seq<Application>, uid: nat, name: string, slug: string) {
    exists k :: 0 <= k < |apps| && apps[k].uid == uid && (apps[k].name == name || apps[k].slug == slug)
  }

  /** The invariant the service keeps: no two applications of one user share
      a name or a slug. */
  predicate UniquePerUser(apps: seq<Application>) {
    forall i, j :: 0 <= i < j < |apps| && apps[i].uid == apps[j].uid ==>
      apps[i].name != apps[j].name && apps[i].slug != apps[j].slug
  }

  /** Ids are unique in a collection, as `_id` is. */
  predicate AppIdsUnique(apps: seq<Application>) {
    forall i, j :: 0 <= i < j < |apps| ==> apps[i].id != apps[j].id
  }

  // ---------------------------------------------------------------------
  // Create

  /** The fields of an application a request body may carry; absent ones
      are `None`. */
  datatype AppFields = AppFields(
    name: Option<string>,
    slug: Option<string>,
    icon: Option<string>,
    verify_rule: Option<string>,
    describe: Option<string>,
    response_template: Option<ResponseTemplate>,
    app_key: Option<string>,
    status: Option<int>,
    api_count: Option<int>,
    uid: Option<nat>,
    vir_uid: Option<string>,
    number: Option<string>)

  predicate InsertReady(data: AppFields) {
    data.name.Some? && data.slug.Some? && data.uid.Some?
  }

  /** The record `Application(data).save()` stores: the schema trims the
      name and slug and fills in the defaults. */
  function NewApplication(data: AppFields, icon: string, id: nat): Application
    requires InsertReady(data)
  {
    Application(
      id, data.uid.value, data.vir_uid.GetOr(""), data.number.GetOr(""), icon,
      Trim(data.name.value), Trim(data.slug.value), data.app_key.GetOr(""),
      data.verify_rule.GetOr(DefaultVerifyRule), data.api_count.GetOr(0),
      data.describe.GetOr(""), data.status.GetOr(ApplicationModel.DefaultStatus),
      data.response_template.GetOr(DefaultTemplate))
  }

  /** The checks of `insert`, in order, and the icon it stores. */
  function PlanInsert(apps: seq<Application>, data: AppFields, dirCreated: bool, storedPath: string): (r: Result<string>)
    requires InsertReady(data)
    ensures NameOrSlugTaken(apps, data.uid.value, Trim(data.name.value), Trim(data.slug.value)) ==>
      r == Err(ServiceError(400, NameOrSlugTakenMessage))
    ensures (!NameOrSlugTaken(apps, data.uid.value, Trim(data.name.value), Trim(data.slug.value)) &&
             CountOf(apps, data.uid.value) >= MaxAppCount) ==> r == Err(ServiceError(400, TooManyAppsMessage))
    ensures r.Ok? ==> (!NameOrSlugTaken(apps, data.uid.value, Trim(data.name.value), Trim(data.slug.value)) &&
                       CountOf(apps, data.uid.value) < MaxAppCount)
  {
    var uid := data.uid.value;
    if NameOrSlugTaken(apps, uid, Trim(data.name.value), Trim(data.slug.value)) then
      Err(ServiceError(400, NameOrSlugTakenMessage))
    else if CountOf(apps, uid) >= MaxAppCount then
      Err(ServiceError(400, TooManyAppsMessage))
    else if Given(data.icon) then
      Base64ToFile(data.icon.value, dirCreated, storedPath)
    else Ok(data.icon.GetOr(""))
  }

  /** Appending an application whose name and slug are free for its user
      keeps names and slugs unique per user. */
  lemma AppendKeepsUnique(apps: seq<Application>, a: Application)
    requires UniquePerUser(apps)
    requires !NameOrSlugTaken(apps, a.uid, a.name, a.slug)
    ensures UniquePerUser(apps + [a])
  {
    var s := apps + [a];
    forall i, j | 0 <= i < j < |s| && s[i].uid == s[j].uid
      ensures s[i].name != s[j].name && s[i].slug != s[j].slug
    {
      if j == |apps| {
        assert s[i] == apps[i];
      }
    }
  }

  /** A successful insert keeps the per-user uniqueness. */
  lemma InsertKeepsUnique(apps: seq<Application>, data: AppFields, dirCreated: bool, storedPath: string, id: nat)
    requires InsertReady(data) && UniquePerUser(apps)
    requires PlanInsert(apps, data, dirCreated, storedPath).Ok?
    ensures UniquePerUser(apps + [NewApplication(data, PlanInsert(apps, data, dirCreated, storedPath).value, id)])
  {
    AppendKeepsUnique(apps, NewApplication(data, PlanInsert(apps, data, dirCreated, storedPath).value, id));
  }

  /** A successful insert leaves the user with at most 20 applications. */
  lemma InsertKeepsCap(apps: seq<Application>, data: AppFields, dirCreated: bool, storedPath: string, id: nat)
    requires InsertReady(data)
    requires PlanInsert(apps, data, dirCreated, storedPath).Ok?
    ensures CountOf(apps + [NewApplication(data, PlanInsert(apps, data, dirCreated, storedPath).value, id)], data.uid.value) <= MaxAppCount
  {
    var a := NewApplication(data, PlanInsert(apps, data, dirCreated, storedPath).value, id);
    FilterAppend(apps, [a], (x: Application) => x.uid == data.uid.value);
  }

  /** `insert`: the new application gets the next id, and its owner's
      `apps_count` goes up by one. */
  method Insert(db: Database, data: AppFields, dirCreated: bool, storedPath: string) returns (r: Result<Application>)
    requires InsertReady(data)
    modifies db
    ensures var plan := PlanInsert(old(db.apps), data, dirCreated, storedPath);
      && (plan.Err? ==>
            && r == Err(plan.error)
            && db.users == old(db.users) && db.apps == old(db.apps) && db.apis == old(db.apis) && db.nextId == old(db.nextId))
      && (plan.Ok? ==>
            && r == Ok(NewApplication(data, plan.value, old(db.nextId)))
            && db.apps == old(db.apps) + [r.value]
            && db.users == AddAppsCount(old(db.users), data.uid.value, 1)
            && db.apis == old(db.apis) && db.nextId == old(db.nextId) + 1)
  {
    var plan := PlanInsert(db.apps, data, dirCreated, storedPath);
    if plan.Err? {
      return Err(plan.error);
    }
    var app := NewApplication(data, plan.value, db.nextId);
    var users := AddAppsCount(db.users, data.uid.value, 1);
    db.apps := db.apps + [app];
    db.nextId := db.nextId + 1;
    IncreaseAppCountByUid(db, data.uid.value);
    assert db.users == users;
    r := Ok(app);
  }

  // ---------------------------------------------------------------------
  // Update

  /** `delete data._id … delete data.number`: what is left of the body. */
  function StripProtected(data: AppFields): (d: AppFields)
    ensures d.slug.None? && d.app_key.None? && d.status.None? && d.api_count.None?
    ensures d.uid.None? && d.vir_uid.None? && d.number.None?
    ensures d.name == data.name && d.icon == data.icon && d.verify_rule == data.verify_rule
    ensures d.describe == data.describe && d.response_template == data.response_template
  {
    data.(slug := None, app_key := None, status := None, api_count := None, uid := None, vir_uid := None, number := None)
  }

  /** `updateOne({ _id }, data)`: every field `data` carries is written. */
  function ApplyFields(a: Application, d: AppFields): Application {
    a.(name := d.name.GetOr(a.name), slug := d.slug.GetOr(a.slug), icon := d.icon.GetOr(a.icon),
       verify_rule := d.verify_rule.GetOr(a.verify_rule), describe := d.describe.GetOr(a.describe),
       response_template := d.response_template.GetOr(a.response_template),
       app_key := d.app_key.GetOr(a.app_key), status := d.status.GetOr(a.status),
       api_count := d.api_count.GetOr(a.api_count), uid := d.uid.GetOr(a.uid),
       vir_uid := d.vir_uid.GetOr(a.vir_uid), number := d.number.GetOr(a.number))
  }

  /** An update never changes the id, `api_count`, `status`, `app_key`,
      `slug`, `uid`, `vir_uid` or `number`, whatever the body holds. */
  lemma UpdateKeepsProtected(a: Application, data: AppFields)
    ensures var b := ApplyFields(a, StripProtected(data));
      && b.id == a.id && b.api_count == a.api_count && b.status == a.status && b.app_key == a.app_key
      && b.slug == a.slug && b.uid == a.uid && b.vir_uid == a.vir_uid && b.number == a.number
  {
  }

  /** Some other application of the user has that name. */
  predicate NameTakenByOther(apps: seq<Application>, uid: nat, id: nat, name: string) {
    exists k :: 0 <= k < |apps| && apps[k].uid == uid && apps[k].name == name && apps[k].id != id
  }

  /** The checks of `updateByUidAndAppid`, in order, and the fields it
      writes. */
  function PlanUpdate(apps: seq<Application>, uid: nat, app_id: nat, data: AppFields,
                      dirCreated: bool, storedPath: string): (r: Result<AppFields>)
    ensures r.Ok? ==> FindByIdAndUid(apps, app_id, uid).Some?
    ensures r.Ok? && Given(data.name) && data.name.value != FindByIdAndUid(apps, app_id, uid).value.name ==>
      !NameTakenByOther(apps, uid, app_id, data.name.value)
    ensures FindByIdAndUid(apps, app_id, uid).None? ==> r == Err(ServiceError(400, NotFoundOrForbidden))
    ensures r.Ok? ==> r.value.name == data.name && r.value.slug.None? && r.value.uid.None?
  {
    match FindByIdAndUid(apps, app_id, uid)
    case None => Err(ServiceError(400, NotFoundOrForbidden))
    case Some(info) =>
      if Given(data.name) && data.name.value != info.name && NameTakenByOther(apps, uid, app_id, data.name.value) then
        Err(ServiceError(400, "应用名已在您的应用中存在，请重新设置"))
      else
        var data := if Given(data.icon) then
            match Base64ToFile(data.icon.value, dirCreated, storedPath)
            case Err(e) => Err(e)
            case Ok(path) => Ok(data.(icon := Some(path)))
          else Ok(data);
        match data
        case Err(e) => Err(e)
        case Ok(d) => Ok(StripProtected(d))
  }

  /** An application table after `updateOne({ _id: app_id }, d)`. */
  function UpdateApp(apps: seq<Application>, app_id: nat, d: AppFields): seq<Application> {
    UpdateFirst(apps, (a: Application) => a.id == app_id, (a: Application) => ApplyFields(a, d))
  }

  /** Under unique ids, an accepted update keeps names and slugs unique per
      user: a changed name is checked against the user's other applications,
      and the slug and owner never change. */
  lemma UpdateKeepsUnique(apps: seq<Application>, uid: nat, app_id: nat, data: AppFields,
                          dirCreated: bool, storedPath: string)
    requires UniquePerUser(apps)
    requires AppIdsUnique(apps)
    requires data.name != Some("")
    requires PlanUpdate(apps, uid, app_id, data, dirCreated, storedPath).Ok?
    ensures UniquePerUser(UpdateApp(apps, app_id, PlanUpdate(apps, uid, app_id, data, dirCreated, storedPath).value))
  {
    var d := PlanUpdate(apps, uid, app_id, data, dirCreated, storedPath).value;
    var p := (a: Application) => a.id == app_id;
    var t := FirstIndex(apps, p);
    var info := FindByIdAndUid(apps, app_id, uid).value;
    assert t < |apps| && apps[t].id == app_id;
    assert apps[t] == info by {
      var q := (a: Application) => a.id == app_id && a.uid == uid;
      var e := FirstIndex(apps, q);
      assert apps[e] == info;
    }
    var b := ApplyFields(info, d);
    assert UpdateApp(apps, app_id, d) == apps[t := b];
    if b.name != info.name {
      assert !NameTakenByOther(apps, uid, app_id, b.name);
      forall k | 0 <= k < |apps| && k != t && apps[k].uid == b.uid
        ensures apps[k].name != b.name
      {
        assert apps[k].id != app_id;
      }
    }
    ReplaceKeepsUnique(apps, t, b);
  }

  /** Rewriting one application keeps names and slugs unique per user when
      its owner and slug stay and its name is either kept or free among the
      owner's other applications. */
  lemma ReplaceKeepsUnique(apps: seq<Application>, t: nat, b: Application)
    requires UniquePerUser(apps) && t < |apps|
    requires b.uid == apps[t].uid && b.slug == apps[t].slug
    requires b.name == apps[t].name ||
      forall k :: 0 <= k < |apps| && k != t && apps[k].uid == b.uid ==> apps[k].name != b.name
    ensures UniquePerUser(apps[t := b])
  {
    var s := apps[t := b];
    forall i, j | 0 <= i < j < |s| && s[i].uid == s[j].uid
      ensures s[i].name != s[j].name && s[i].slug != s[j].slug
    {
      if i == t {
        assert s[j] == apps[j];
      } else if j == t {
        assert s[i] == apps[i];
      } else {
        assert s[i] == apps[i] && s[j] == apps[j];
      }
    }
  }

  /** `updateByUidAndAppid`. */
  method UpdateByUidAndAppid(db: Database, uid: nat, app_id: nat, data: AppFields,
                             dirCreated: bool, storedPath: string) returns (r: Result<AppFields>)
    modifies db
    ensures r == PlanUpdate(old(db.apps), uid, app_id, data, dirCreated, storedPath)
    ensures db.apps == if r.Ok? then UpdateApp(old(db.apps), app_id, r.value) else old(db.apps)
    ensures db.users == old(db.users) && db.apis == old(db.apis) && db.nextId == old(db.nextId)
  {
    r := PlanUpdate(db.apps, uid, app_id, data, dirCreated, storedPath);
    if r.Ok? {
      db.apps := UpdateApp(db.apps, app_id, r.value);
    }
  }

  // ---------------------------------------------------------------------
  // Counters, key change and delete

  /** `$inc: { api_count: delta }` on the application with that id. */
  function AddApiCount(apps: seq<Application>, app_id: nat, delta: int): (r: seq<Application>)
    ensures |r| == |apps|
    ensures forall k :: 0 <= k < |apps| ==>
      r[k].id == apps[k].id && r[k].uid == apps[k].uid && r[k].name == apps[k].name && r[k].slug == apps[k].slug
  {
    UpdateFirst(apps, (a: Application) => a.id == app_id, (a: Application) => a.(api_count := a.api_count + delta))
  }

  /** The counter moves one application's `api_count` by exactly `delta`. */
  lemma AddApiCountEffect(apps: seq<Application>, app_id: nat, delta: int, k: nat)
    requires k < |apps|
    ensures var r := AddApiCount(apps, app_id, delta);
      if k == FirstIndex(apps, (a: Application) => a.id == app_id)
      then apps[k].id == app_id && r[k] == apps[k].(api_count := apps[k].api_count + delta)
      else r[k] == apps[k]
  {
  }

  /** Decreasing by a count undoes increasing by it. */
  lemma AddApiCountInverse(apps: seq<Application>, app_id: nat, delta: int)
    ensures AddApiCount(AddApiCount(apps, app_id, delta), app_id, -delta) == apps
  {
    var p := (a: Application) => a.id == app_id;
    var once := AddApiCount(apps, app_id, delta);
    FirstIndexOfSameKeys(apps, once, p);
    assert forall k :: 0 <= k < |apps| ==> AddApiCount(once, app_id, -delta)[k] == apps[k];
  }

  /** `increaseApiCountByAppId`. */
  method IncreaseApiCountByAppId(db: Database, app_id: nat, count: int)
    modifies db
    ensures db.apps == AddApiCount(old(db.apps), app_id, count)
    ensures db.users == old(db.users) && db.apis == old(db.apis) && db.nextId == old(db.nextId)
  {
    db.apps := AddApiCount(db.apps, app_id, count);
  }

  /** `decreaseApiCountByAppId`. */
  method DecreaseApiCountByAppId(db: Database, app_id: nat, count: int)
    modifies db
    ensures db.apps == AddApiCount(old(db.apps), app_id, -count)
    ensures db.users == old(db.users) && db.apis == old(db.apis) && db.nextId == old(db.nextId)
  {
    db.apps := AddApiCount(db.apps, app_id, -count);
  }

  /** The application table with the new key written to the application
      with that id. */
  function KeyChanged(apps: seq<Application>, id: nat, newKey: string): seq<Application> {
    UpdateFirst(apps, (a: Application) => a.id == id, (a: Application) => a.(app_key := newKey))
  }

  /** `changeAppKey({ _id, uid })`: the new key (derived from the owner and
      slug by a salted hash, so a parameter here) replaces the old one. */
  method ChangeAppKey(db: Database, id: nat, uid: nat, newKey: string) returns (r: Result<string>)
    modifies db
    ensures FindByIdAndUid(old(db.apps), id, uid).None? ==> r == Err(ServiceError(400, NotFoundOrForbidden)) && db.apps == old(db.apps)
    ensures FindByIdAndUid(old(db.apps), id, uid).Some? ==> r == Ok(newKey)
    ensures FindByIdAndUid(old(db.apps), id, uid).Some? ==> db.apps == KeyChanged(old(db.apps), id, newKey)
    ensures db.users == old(db.users) && db.apis == old(db.apis) && db.nextId == old(db.nextId)
  {
    var info := FindByIdAndUid(db.apps, id, uid);
    if info.None? {
      return Err(ServiceError(400, NotFoundOrForbidden));
    }
    db.apps := KeyChanged(db.apps, id, newKey);
    r := Ok(newKey);
  }

  /** Where the caller's application with that slug sits; `|apps|` when
      there is none. */
  function SlugIndex(apps: seq<Application>, uid: nat, slug: string): (k: nat)
    ensures k <= |apps|
    ensures k < |apps| <==> FindByUidAndSlug(apps, uid, slug).Some?
    ensures k < |apps| ==> apps[k] == FindByUidAndSlug(apps, uid, slug).value
  {
    FirstIndex(apps, (a: Application) => a.uid == uid && a.slug == slug)
  }

  /** `deleteBySlug`: the application is removed (its interfaces stay) and
      the caller's `apps_count` goes down by one. */
  method DeleteBySlug(db: Database, slug: string, uid: nat) returns (r: Result<Application>)
    modifies db
    ensures FindByUidAndSlug(old(db.apps), uid, slug).None? ==>
      r == Err(ServiceError(400, NotFoundOrForbidden)) && db.apps == old(db.apps) && db.users == old(db.users)
    ensures FindByUidAndSlug(old(db.apps), uid, slug).Some? ==>
      var k := SlugIndex(old(db.apps), uid, slug);
      && r == Ok(old(db.apps)[k])
      && db.apps == RemoveAt(old(db.apps), k)
      && db.users == AddAppsCount(old(db.users), uid, -1)
    ensures db.apis == old(db.apis) && db.nextId == old(db.nextId)
  {
    var k := SlugIndex(db.apps, uid, slug);
    if k == |db.apps| {
      return Err(ServiceError(400, NotFoundOrForbidden));
    }
    r := Ok(db.apps[k]);
    db.apps := RemoveAt(db.apps, k);
    DecreaseAppCountByUid(db, uid);
  }

  // ---------------------------------------------------------------------
  // Copy and the demo application

  /** The interfaces `find` selects, re-homed to a new application, with
      fresh ids from `firstId` on. */
  function Rehomed(list: seq<Interface>, app_id: nat, app_slug: string, firstId: nat): (r: seq<Interface>)
    ensures |r| == |list|
  {
    seq(|list|, k requires 0 <= k < |list| => list[k].(id := firstId + k, app_id := app_id, app_slug := app_slug))
  }

  /** The `forEach` loop of `copyApp` that builds the copies. */
  method Rehome(list: seq<Interface>, app_id: nat, app_slug: string, firstId: nat) returns (out: seq<Interface>)
    ensures out == Rehomed(list, app_id, app_slug, firstId)
  {
    out := [];
    var i := 0;
    while i < |list|
      invariant 0 <= i <= |list|
      invariant out == Rehomed(list[..i], app_id, app_slug, firstId)
    {
      out := out + [list[i].(id := firstId + i, app_id := app_id, app_slug := app_slug)];
      i := i + 1;
    }
    assert list[..i] == list;
  }

  /** Every copy belongs to the new application and keeps everything of its
      original but the id; the ids are fresh and increasing. */
  lemma RehomedBelongToTarget(list: seq<Interface>, app_id: nat, app_slug: string, firstId: nat)
    ensures var out := Rehomed(list, app_id, app_slug, firstId);
      && (forall k :: 0 <= k < |out| ==> out[k].app_id == app_id && out[k].app_slug == app_slug)
      && (forall k :: 0 <= k < |out| ==> out[k].(id := list[k].id, app_id := list[k].app_id, app_slug := list[k].app_slug) == list[k])
      && (forall k :: 0 <= k < |out| ==> out[k].id >= firstId)
      && (forall j, k :: 0 <= j < k < |out| ==> out[j].id < out[k].id)
  {
  }

  /** The interfaces of an application, of one user, in order. */
  function InterfacesOf(apis: seq<Interface>, app_id: nat, uid: nat): (r: seq<Interface>)
    ensures forall x :: x in r <==> x in apis && x.app_id == app_id && x.uid == uid
  {
    Filter(apis, (i: Interface) => i.app_id == app_id && i.uid == uid)
  }

  /** The checks of `copyApp`, in order; the source application on success. */
  function PlanCopy(apps: seq<Application>, target_slug: string, name: string, slug: string, uid: nat): (r: Result<Application>)
    ensures r.Ok? ==> r.value in apps && r.value.uid == uid && r.value.slug == target_slug
    ensures r.Ok? ==> !NameOrSlugTaken(apps, uid, Trim(name), Trim(slug)) && CountOf(apps, uid) < MaxAppCount
    ensures FindByUidAndSlug(apps, uid, target_slug).None? ==> r == Err(ServiceError(400, "目标应用不存在或无权限"))
    ensures NameOrSlugTaken(apps, uid, Trim(name), Trim(slug)) ==> r.Err?
  {
    match FindByUidAndSlug(apps, uid, target_slug)
    case None => Err(ServiceError(400, "目标应用不存在或无权限"))
    case Some(source) =>
      if NameOrSlugTaken(apps, uid, Trim(name), Trim(slug)) then Err(ServiceError(400, NameOrSlugTakenMessage))
      else if CountOf(apps, uid) >= MaxAppCount then Err(ServiceError(400, TooManyAppsMessage))
      else Ok(source)
  }

  /** The application `copyApp` creates from its source. */
  function CopiedApp(source: Application, id: nat, number: string, name: string, slug: string,
                     appKey: string, describe: Option<string>): Application
  {
    source.(id := id, number := number, name := Trim(name), slug := Trim(slug),
            app_key := appKey, describe := describe.GetOr(""))
  }

  /** A copy is a new application of the same owner whose name and slug
      were free, so it keeps names and slugs unique per user. */
  lemma CopyKeepsUnique(apps: seq<Application>, target_slug: string, name: string, slug: string, uid: nat,
                        id: nat, number: string, appKey: string, describe: Option<string>)
    requires UniquePerUser(apps)
    requires PlanCopy(apps, target_slug, name, slug, uid).Ok?
    ensures UniquePerUser(apps + [CopiedApp(PlanCopy(apps, target_slug, name, slug, uid).value, id, number, name, slug, appKey, describe)])
  {
    AppendKeepsUnique(apps, CopiedApp(PlanCopy(apps, target_slug, name, slug, uid).value, id, number, name, slug, appKey, describe));
  }

  /** `copyApp`: a new application copied from the source with a new number,
      name, slug, key and description, and a copy of each of the source's
      interfaces of this user re-homed to it (keeping the slug as given). The
      owner's `apps_count` goes up only when some interface was copied. The
      application is saved before `insertMany` validates the copies: a batch
      that fails validation leaves the application and the count in place,
      stores no interface and answers `ValidationRejected`. */
  method CopyApp(db: Database, target_slug: string, name: string, slug: string, describe: Option<string>,
                 uid: nat, number: string, appKey: string) returns (r: Result<Application>)
    modifies db
    ensures var plan := PlanCopy(old(db.apps), target_slug, name, slug, uid);
      && (plan.Err? ==>
            && r == Err(plan.error) && db.users == old(db.users) && db.apps == old(db.apps) && db.apis == old(db.apis)
            && db.nextId == old(db.nextId))
      && (plan.Ok? ==>
            var list := InterfacesOf(old(db.apis), plan.value.id, uid);
            var app := CopiedApp(plan.value, old(db.nextId), number, name, slug, appKey, describe);
            var copies := Rehomed(list, app.id, slug, old(db.nextId) + 1);
            && db.apps == old(db.apps) + [app]
            && db.users == (if |list| > 0 then AddAppsCount(old(db.users), uid, 1) else old(db.users))
            && (AllStorable(copies) ==>
                  r == Ok(app) && db.apis == old(db.apis) + copies && db.nextId == old(db.nextId) + 1 + |list|)
            && (!AllStorable(copies) ==>
                  r == Err(ValidationRejected) && db.apis == old(db.apis) && db.nextId == old(db.nextId) + 1))
  {
    var plan := PlanCopy(db.apps, target_slug, name, slug, uid);
    if plan.Err? {
      return Err(plan.error);
    }
    var app := CopiedApp(plan.value, db.nextId, number, name, slug, appKey, describe);
    var stored := CopyFrom(db, app, plan.value.id, slug, uid);
    if !stored {
      return Err(ValidationRejected);
    }
    r := Ok(app);
  }

  /** The writes of `copyApp` once its checks have passed: `save`, then,
      for a non-empty list, the count and `insertMany`; `stored` is false
      when the batch failed validation. */
  method CopyFrom(db: Database, app: Application, source_id: nat, slug: string, uid: nat) returns (stored: bool)
    modifies db
    ensures var list := InterfacesOf(old(db.apis), source_id, uid);
      var copies := Rehomed(list, app.id, slug, old(db.nextId) + 1);
      && db.apps == old(db.apps) + [app]
      && db.users == (if |list| > 0 then AddAppsCount(old(db.users), uid, 1) else old(db.users))
      && stored == AllStorable(copies)
      && (stored ==> db.apis == old(db.apis) + copies && db.nextId == old(db.nextId) + 1 + |list|)
      && (!stored ==> db.apis == old(db.apis) && db.nextId == old(db.nextId) + 1)
  {
    var list := InterfacesOf(db.apis, source_id, uid);
    var copies := Rehome(list, app.id, slug, db.nextId + 1);
    db.apps := db.apps + [app];
    db.nextId := db.nextId + 1;
    stored := true;
    if |copies| > 0 {
      IncreaseAppCountByUid(db, uid);
      stored := AllStorable(copies);
      if stored {
        db.apis := db.apis + copies;
        db.nextId := db.nextId + |copies|;
      }
    }
  }

  /** A copy passes validation exactly when its original does: re-homing
      changes only the id, the application and a non-empty slug. So an
      application one of whose interfaces was moved (its uri then holds a
      `/`) can no longer be copied. */
  lemma RehomedStorable(list: seq<Interface>, app_id: nat, app_slug: string, firstId: nat)
    requires app_slug != ""
    requires forall k :: 0 <= k < |list| ==> list[k].app_slug != ""
    ensures AllStorable(Rehomed(list, app_id, app_slug, firstId)) <==> AllStorable(list)
  {
    var out := Rehomed(list, app_id, app_slug, firstId);
    forall k | 0 <= k < |list|
      ensures Storable(out[k]) <==> Storable(list[k])
    {
      assert out[k] == list[k].(id := firstId + k, app_id := app_id, app_slug := app_slug);
    }
  }

  /** An interface moved by `moveApi` has a uri holding a `/`; a copy of
      its application therefore always fails validation. */
  lemma MovedInterfaceBlocksCopy(list: seq<Interface>, app_id: nat, app_slug: string, firstId: nat, k: nat, j: nat)
    requires k < |list| && j < |list[k].uri| && list[k].uri[j] == '/'
    ensures !AllStorable(Rehomed(list, app_id, app_slug, firstId))
  {
    var c := Rehomed(list, app_id, app_slug, firstId)[k];
    assert c.uri == list[k].uri;
    NestedUriNotStorable(c, j);
  }

  /** `findOne({ slug: 'demo', vir_uid: 'virapi', status: 1 })`. */
  function FindDemo(apps: seq<Application>): (r: Option<Application>)
    ensures r.Some? ==> r.value in apps && r.value.slug == "demo" && r.value.vir_uid == "virapi" && r.value.status == 1
    ensures r.None? <==> forall k :: 0 <= k < |apps| ==> !(apps[k].slug == "demo" && apps[k].vir_uid == "virapi" && apps[k].status == 1)
  {
    FindFirst(apps, (a: Application) => a.slug == "demo" && a.vir_uid == "virapi" && a.status == 1)
  }

  /** The demo's active interfaces: `find({ app_id, status: 1 })`, of any
      owner. */
  function ActiveInterfacesOf(apis: seq<Interface>, app_id: nat): (r: seq<Interface>)
    ensures forall x :: x in r <==> x in apis && x.app_id == app_id && x.status == 1
  {
    Filter(apis, (i: Interface) => i.app_id == app_id && i.status == 1)
  }

  /** The demo's interfaces handed to a new user: owned by the user and
      re-homed to the user's copy; each keeps its creator. */
  function Adopted(list: seq<Interface>, user: User, app_id: nat, app_slug: string, firstId: nat): (r: seq<Interface>)
    ensures |r| == |list|
  {
    seq(|list|, k requires 0 <= k < |list| =>
      list[k].(id := firstId + k, uid := user.id, vir_uid := user.vir_uid, app_id := app_id, app_slug := app_slug))
  }

  /** The `forEach` loop of `createDemoAppByRegister`. */
  method AdoptDemoInterfaces(list: seq<Interface>, user: User, app_id: nat, app_slug: string, firstId: nat)
    returns (out: seq<Interface>)
    ensures out == Adopted(list, user, app_id, app_slug, firstId)
  {
    out := [];
    var i := 0;
    while i < |list|
      invariant 0 <= i <= |list|
      invariant out == Adopted(list[..i], user, app_id, app_slug, firstId)
    {
      out := out + [list[i].(id := firstId + i, uid := user.id, vir_uid := user.vir_uid, app_id := app_id, app_slug := app_slug)];
      i := i + 1;
    }
    assert list[..i] == list;
  }

  /** Every adopted interface belongs to the user and the new application,
      and keeps its creator, name, uri, verb and rules. */
  lemma AdoptedBelongToUser(list: seq<Interface>, user: User, app_id: nat, app_slug: string, firstId: nat)
    ensures var out := Adopted(list, user, app_id, app_slug, firstId);
      && (forall k :: 0 <= k < |out| ==> out[k].uid == user.id && out[k].vir_uid == user.vir_uid && out[k].app_id == app_id)
      && (forall k :: 0 <= k < |out| ==>
            out[k].creator == list[k].creator && out[k].name == list[k].name &&
            out[k].uri == list[k].uri && out[k].verb == list[k].verb && out[k].response_rules == list[k].response_rules)
  {
  }

  /** The user's copy of the demo application. */
  function DemoCopy(demo: Application, user: User, id: nat, api_count: nat, number: string, appKey: string): Application {
    demo.(id := id, uid := user.id, vir_uid := user.vir_uid, api_count := api_count, number := number, app_key := appKey)
  }

  /** `createDemoAppByRegister`: without a demo application, or when the
      user already has an application of the demo's name or slug, nothing
      happens; otherwise the user gets a copy of the demo whose `api_count`
      is the number of the demo's active interfaces, and copies of those.
      As in `copyApp`, the application and the count are written before
      `insertMany` validates the copies; `thrown` is the validation error
      when the batch is refused, and then no interface is stored. */
  method CreateDemoAppByRegister(db: Database, user: User, number: string, appKey: string)
    returns (thrown: Option<ServiceError>)
    modifies db
    ensures var demo := FindDemo(old(db.apps));
      if demo.None? || NameOrSlugTaken(old(db.apps), user.id, demo.value.name, demo.value.slug) then
        && thrown.None?
        && db.users == old(db.users) && db.apps == old(db.apps) && db.apis == old(db.apis) && db.nextId == old(db.nextId)
      else
        var list := ActiveInterfacesOf(old(db.apis), demo.value.id);
        var app := DemoCopy(demo.value, user, old(db.nextId), |list|, number, appKey);
        var copies := Adopted(list, user, app.id, app.slug, old(db.nextId) + 1);
        && db.apps == old(db.apps) + [app]
        && db.users == (if |list| > 0 then AddAppsCount(old(db.users), user.id, 1) else old(db.users))
        && (AllStorable(copies) ==>
              thrown.None? && db.apis == old(db.apis) + copies && db.nextId == old(db.nextId) + 1 + |list|)
        && (!AllStorable(copies) ==>
              thrown == Some(ValidationRejected) && db.apis == old(db.apis) && db.nextId == old(db.nextId) + 1)
  {
    var demo := FindDemo(db.apps);
    if demo.None? || NameOrSlugTaken(db.apps, user.id, demo.value.name, demo.value.slug) {
      return None;
    }
    var list := ActiveInterfacesOf(db.apis, demo.value.id);
    var app := DemoCopy(demo.value, user, db.nextId, |list|, number, appKey);
    var copies := AdoptDemoInterfaces(list, user, app.id, app.slug, db.nextId + 1);
    db.apps := db.apps + [app];
    db.nextId := db.nextId + 1;
    thrown := None;
    if |copies| > 0 {
      IncreaseAppCountByUid(db, user.id);
      if AllStorable(copies) {
        db.apis := db.apis + copies;
        db.nextId := db.nextId + |copies|;
      } else {
        thrown := Some(ValidationRejected);
      }
    }
  }

  /** An adopted copy passes validation exactly when its original does,
      for a user with a `vir_uid` and a demo with a slug. */
  lemma AdoptedStorable(list: seq<Interface>, user: User, app_id: nat, app_slug: string, firstId: nat)
    requires app_slug != "" && user.vir_uid != ""
    requires forall k :: 0 <= k < |list| ==> list[k].app_slug != "" && list[k].vir_uid != ""
    ensures AllStorable(Adopted(list, user, app_id, app_slug, firstId)) <==> AllStorable(list)
  {
    var out := Adopted(list, user, app_id, app_slug, firstId);
    forall k | 0 <= k < |list|
      ensures Storable(out[k]) <==> Storable(list[k])
    {
      assert out[k] == list[k].(id := firstId + k, uid := user.id, vir_uid := user.vir_uid, app_id := app_id, app_slug := app_slug);
    }
  }

  /** The demo copy is a new application of the user whose name and slug
      were free, so names and slugs stay unique per user. */
  lemma DemoCopyKeepsUnique(apps: seq<Application>, user: User, id: nat, api_count: nat, number: string, appKey: string)
    requires UniquePerUser(apps)
    requires FindDemo(apps).Some? && !NameOrSlugTaken(apps, user.id, FindDemo(apps).value.name, FindDemo(apps).value.slug)
    ensures UniquePerUser(apps + [DemoCopy(FindDemo(apps).value, user, id, api_count, number, appKey)])
  {
    AppendKeepsUnique(apps, DemoCopy(FindDemo(apps).value, user, id, api_count, number, appKey));
  }

  // ---------------------------------------------------------------------
  // The exported document

  /** `verify_rule_map[rule] || '未知'`. */
  function VerifyRuleLabel(rule: string): string {
    match rule
    case "header" => "请求头部Token验证"
    case "param" => "请求参数Token验证"
    case "compatible" => "兼容模式"
    case _ => "未知"
  }

  /** Each allowed rule has its own label; any other value is unknown. */
  lemma VerifyRuleLabels(rule: string)
    ensures VerifyRuleLabel(rule) == "未知" <==> !VerifyRuleOk(rule)
    ensures VerifyRuleLabel("header") != VerifyRuleLabel("param")
    ensures VerifyRuleLabel("param") != VerifyRuleLabel("compatible")
    ensures VerifyRuleLabel("header") != VerifyRuleLabel("compatible")
  {
  }

  // ---------------------------------------------------------------------
  // Request validation (`rules` and `updateRules`, checked by the console
  // controllers before they call the service)

  /** `trim: true, min: 2, max: 20` in UTF-16 code units, so non-empty
      after trimming. */
  predicate NameRuleOk(name: string) {
    2 <= Utf16Length(Trim(name)) <= 20
  }

  /** `verify_rule` is optional and, when given, one of the enum values. */
  predicate VerifyRuleRuleOk(rule: Option<string>) {
    rule.None? || VerifyRuleOk(rule.value)
  }

  /** `describe` is optional and at most 200 UTF-16 code units. */
  predicate DescribeRuleOk(describe: Option<string>) {
    describe.None? || Utf16Length(describe.value) <= 200
  }

  /** A character outside the Basic Multilingual Plane (an emoji, say)
      counts twice: a name of `n` such characters passes only for
      `1 <= n <= 10`, so 19 emoji are refused although they are 19
      characters. */
  lemma AstralNameRule(c: char, n: nat)
    requires c as int >= 0x1_0000
    ensures NameRuleOk(seq(n, _ => c)) <==> 1 <= n <= 10
  {
    var name := seq(n, _ => c);
    assert Trim(name) == name by {
      if n > 0 {
        assert name[0] == c && name[n - 1] == c;
      }
      TrimOfTrimmed(name);
    }
    Utf16LengthOfAstral(c, n);
  }

  /** `rules`: the fields `create` must carry once the server's ones are
      merged in. The slug is trimmed, then held to 2..20 characters and the
      format `^[\w\-\.]{4,20}$`. */
  predicate CreateRulesOk(d: AppFields) {
    && d.uid.Some? && Given(d.vir_uid) && Given(d.number) && Given(d.app_key)
    && d.name.Some? && NameRuleOk(d.name.value)
    && d.slug.Some? && 2 <= |Trim(d.slug.value)| <= 20 && SlugCreate(Trim(d.slug.value))
    && VerifyRuleRuleOk(d.verify_rule) && DescribeRuleOk(d.describe)
  }

  /** `updateRules`: every field optional; a given name obeys the name
      rule. */
  predicate UpdateRulesOk(d: AppFields) {
    (d.name.None? || NameRuleOk(d.name.value)) && VerifyRuleRuleOk(d.verify_rule) && DescribeRuleOk(d.describe)
  }

  /** The validator writes the trimmed name and slug back into the data. */
  function Validated(d: AppFields): (v: AppFields)
    ensures v.name.Some? <==> d.name.Some?
    ensures v.slug.Some? <==> d.slug.Some?
    ensures d.name.Some? ==> v.name.value == Trim(d.name.value)
    ensures d.slug.Some? ==> v.slug.value == Trim(d.slug.value)
    ensures v.(name := d.name, slug := d.slug) == d
  {
    d.(name := if d.name.Some? then Some(Trim(d.name.value)) else None,
       slug := if d.slug.Some? then Some(Trim(d.slug.value)) else None)
  }

  /** Data that passed `rules` is ready for `insert`, and the record it
      becomes satisfies the schema's name and slug constraints. */
  lemma CreateRulesFitSchema(d: AppFields, icon: string, id: nat)
    requires CreateRulesOk(d)
    ensures InsertReady(Validated(d))
    ensures var a := NewApplication(Validated(d), icon, id);
      ApplicationModel.NameStored(a.name) && SlugStored(a.slug) && VerifyRuleOk(a.verify_rule)
  {
    var v := Validated(d);
    assert v.name == Some(Trim(d.name.value)) && v.slug == Some(Trim(d.slug.value));
    assert v.uid == d.uid && v.verify_rule == d.verify_rule;
    var a := NewApplication(v, icon, id);
    assert a.name == Trim(Trim(d.name.value)) && a.slug == Trim(Trim(d.slug.value));
    assert a.verify_rule == d.verify_rule.GetOr(DefaultVerifyRule);
    NameRuleFitsSchema(d.name.value);
    SlugRuleFitsSchema(d.slug.value);
    VerifyRuleRuleFitsSchema(d.verify_rule);
  }

  lemma VerifyRuleRuleFitsSchema(rule: Option<string>)
    requires VerifyRuleRuleOk(rule)
    ensures VerifyRuleOk(rule.GetOr(DefaultVerifyRule))
  {
    if rule.None? {
      assert rule.GetOr(DefaultVerifyRule) == "compatible";
    }
  }

  lemma NameRuleFitsSchema(name: string)
    requires NameRuleOk(name)
    ensures ApplicationModel.NameStored(Trim(Trim(name)))
  {
    TrimOfTrimmed(Trim(name));
  }

  lemma SlugRuleFitsSchema(slug: string)
    requires SlugCreate(Trim(slug))
    ensures SlugStored(Trim(Trim(slug)))
  {
    TrimOfTrimmed(Trim(slug));
    SlugCreateIsStricter(Trim(slug));
  }

  /** A name that passed `updateRules` is never the empty string, so an
      update that renames always goes through the clash check. */
  lemma UpdateRulesRequireName(d: AppFields)
    requires UpdateRulesOk(d)
    ensures Validated(d).name != Some("")
    ensures Validated(d).name.Some? ==> Trim(Validated(d).name.value) == Validated(d).name.value
  {
    if d.name.Some? {
      TrimOfTrimmed(Trim(d.name.value));
    }
  }
}
