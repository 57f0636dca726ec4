/** The user service (app/service/user.js): lookups, the search conditions
    of `getPagination`, the profile update with its one-time `vir_uid`
    change, soft deletion, the `apps_count` counters and the prefix decision
    of `_base64ToFile`. */
module UserService {
  import opened Common
  import opened Text
  import opened Json
  import opened Tables
  import opened UserModel
  import opened ApplicationModel
  import opened InterfaceModel
  import opened Store

  // ---------------------------------------------------------------------
  // Lookups

  /** `getInfoByConditions({ vir_uid })`: the first user with that id. */
  function FindByVirUid(users: seq<User>, vir_uid: string): (r: Option<User>)
    ensures r.Some? ==> r.value in users && r.value.vir_uid == vir_uid
    ensures r.None? <==> forall k :: 0 <= k < |users| ==> users[k].vir_uid != vir_uid
  {
    FindFirst(users, (u: User) => u.vir_uid == vir_uid)
  }

  /** `findOne({ _id })`. */
  function FindById(users: seq<User>, id: nat): (r: Option<User>)
    ensures r.Some? ==> r.value in users && r.value.id == id
    ensures r.None? <==> forall k :: 0 <= k < |users| ==> users[k].id != id
  {
    FindFirst(users, (u: User) => u.id == id)
  }

  /** Whether some user already has that e-mail. */
  predicate EmailTaken(users: seq<User>, email: string) {
    exists k :: 0 <= k < |users| && users[k].email == email
  }

  /** Whether some user already has that `vir_uid`, the caller included. */
  predicate VirUidTaken(users: seq<User>, vir_uid: string) {
    exists k :: 0 <= k < |users| && users[k].vir_uid == vir_uid
  }

  // ---------------------------------------------------------------------
  // `_base64ToFile`

  const ImagePrefix := "data:image/"
  const Base64Marker := ";base64,"

  /** The length of the run of word characters `s` starts with. */
  function WordPrefixLength(s: string): (n: nat)
    ensures n <= |s|
    ensures forall k :: 0 <= k < n ==> IsWordChar(s[k])
    ensures n < |s| ==> !IsWordChar(s[n])
    decreases |s|
  {
    if s != [] && IsWordChar(s[0]) then 1 + WordPrefixLength(s[1..]) else 0
  }

  /** `/^data:image\/\w+;base64,/`: `\w+` takes every word character, and
      `;` is not one, so the marker must follow the longest run. */
  predicate IsBase64Image(s: string) {
    |ImagePrefix| <= |s| && s[..|ImagePrefix|] == ImagePrefix &&
    var rest := s[|ImagePrefix|..];
    var n := WordPrefixLength(rest);
    n >= 1 && OccursAt(rest, Base64Marker, n)
  }

  predicate AllWord(s: string) {
    forall k :: 0 <= k < |s| ==> IsWordChar(s[k])
  }

  lemma {:induction false} WordPrefixOfWordThenOther(w: string, rest: string)
    requires AllWord(w)
    requires rest != [] && !IsWordChar(rest[0])
    ensures WordPrefixLength(w + rest) == |w|
    decreases |w|
  {
    if w == [] {
      assert w + rest == rest;
    } else {
      assert (w + rest)[1..] == w[1..] + rest;
      WordPrefixOfWordThenOther(w[1..], rest);
    }
  }

  /** Every data URL of an image type made of word characters passes the
      test, whatever its payload. */
  lemma Base64ImageAccepted(kind: string, payload: string)
    requires |kind| >= 1 && AllWord(kind)
    ensures IsBase64Image(ImagePrefix + kind + Base64Marker + payload)
  {
    var s := ImagePrefix + kind + Base64Marker + payload;
    var rest := kind + (Base64Marker + payload);
    assert s[..|ImagePrefix|] == ImagePrefix;
    assert s[|ImagePrefix|..] == rest;
    WordPrefixOfWordThenOther(kind, Base64Marker + payload);
    assert rest[|kind|..|kind| + |Base64Marker|] == Base64Marker;
  }

  /** The image type must be non-empty. */
  lemma Base64ImageNeedsType(payload: string)
    ensures !IsBase64Image(ImagePrefix + Base64Marker + payload)
  {
    var s := ImagePrefix + Base64Marker + payload;
    assert s[|ImagePrefix|..] == Base64Marker + payload;
    assert !IsWordChar(s[|ImagePrefix|..][0]);
  }

  /** `_base64ToFile`: a value starting with `/` is a stored path and is
      kept; otherwise it must be an image data URL, and the image is written
      under a new directory. Whether the directory could be made and the path
      the file is written to are parameters. */
  function Base64ToFile(base64: string, dirCreated: bool, storedPath: string): (r: Result<string>)
    ensures |base64| > 0 && base64[0] == '/' ==> r == Ok(base64)
    ensures !(|base64| > 0 && base64[0] == '/') && !IsBase64Image(base64) ==> r == Err(ServiceError(400, "非法base64资源"))
    ensures !(|base64| > 0 && base64[0] == '/') && IsBase64Image(base64) && !dirCreated ==>
      r == Err(ServiceError(400, "目录创建失败"))
    ensures !(|base64| > 0 && base64[0] == '/') && IsBase64Image(base64) && dirCreated ==> r == Ok(storedPath)
    ensures r.Ok? ==> r.value == base64 || (IsBase64Image(base64) && dirCreated && r.value == storedPath)
  {
    if |base64| > 0 && base64[0] == '/' then Ok(base64)
    else if !IsBase64Image(base64) then Err(ServiceError(400, "非法base64资源"))
    else if !dirCreated then Err(ServiceError(400, "目录创建失败"))
    else Ok(storedPath)
  }

  /** A path the function returns is accepted again unchanged, so storing an
      avatar twice writes one file. */
  lemma Base64ToFileKeepsPaths(base64: string, storedPath: string, dirCreated: bool)
    requires |storedPath| > 0 && storedPath[0] == '/'
    requires Base64ToFile(base64, true, storedPath).Ok?
    ensures var p := Base64ToFile(base64, true, storedPath).value;
      |p| > 0 && p[0] == '/' ==> Base64ToFile(p, dirCreated, storedPath) == Ok(p)
  {
  }

  // ---------------------------------------------------------------------
  // `getPagination`

  /** The search parameters; absent ones are `None`, and the count bounds and
      the status are whatever value the caller passed. */
  datatype UserQuery = UserQuery(
    kw: Option<string>,
    login_dates: Option<string>,
    register_dates: Option<string>,
    uid_status: Option<string>,
    app_min_count: Value,
    app_max_count: Value,
    status: Value)

  /** `{ $gte, $lte }`, each bound optional. */
  datatype Range = Range(gte: Option<Value>, lte: Option<Value>)

  /** `{ $ne: null }` (the `vir_uid` was changed) or `{ $eq: null }`. */
  datatype ChangedFilter = ChangedOnce | NeverChanged

  /** The conditions object: `keyword` is the case-insensitive pattern tried
      on nickname, e-mail and `vir_uid`. */
  datatype UserConditions = UserConditions(
    keyword: Option<string>,
    login_date: Option<Range>,
    created: Option<Range>,
    vir_uid_updated: Option<ChangedFilter>,
    apps_count: Option<Range>,
    status: Option<Value>)

  /** `dates.split(',')` read as `[dates[0], dates[1]]`. */
  function DateRange(dates: string): (r: Range)
    ensures r.gte.Some? && r.lte.Some?
  {
    var parts := Split(dates, ',');
    Range(Some(Str(parts[0])), Some(if |parts| > 1 then Str(parts[1]) else Undefined))
  }

  /** Two dates joined by a comma give the inclusive range between them. */
  lemma DateRangeOfPair(from: string, to: string)
    requires ',' !in from && ',' !in to
    ensures DateRange(from + "," + to) == Range(Some(Str(from)), Some(Str(to)))
  {
    SplitOfPair(from, ',', to);
  }

  /** A single date gives a range with an undefined upper bound. */
  lemma DateRangeOfSingle(date: string)
    requires ',' !in date
    ensures DateRange(date) == Range(Some(Str(date)), Some(Undefined))
  {
    SplitWithoutSeparator(date, ',');
  }

  /** `querys.uid_status == 1`: loose equality converts the string to a
      number first. */
  predicate LooseEqualsOne(s: string) {
    NumberOf(s) == Some(1)
  }

  predicate Present(v: Value) {
    v != Undefined && v != Null
  }

  /** The rejection of a keyword that is not a regular expression: the
      SyntaxError carries no status, so the error handler answers 500. */
  const KeywordRejected := ServiceError(500, "Invalid regular expression")

  /** `getPagination`'s conditions, built field by field. `isPattern` says
      whether `new RegExp(p, 'i')` accepts `p`; when it refuses the trimmed
      keyword the call throws before any other condition is built. */
  method BuildConditions(q: UserQuery, isPattern: string -> bool) returns (r: Result<UserConditions>)
    ensures r.Err? <==> Given(q.kw) && Trim(q.kw.value) != "" && !isPattern(Trim(q.kw.value))
    ensures r.Err? ==> r.error == KeywordRejected
    ensures r.Ok? ==> var c := r.value;
      && (c.keyword.Some? <==> Given(q.kw) && Trim(q.kw.value) != "")
      && (c.keyword.Some? ==> c.keyword.value == Trim(q.kw.value) && Trim(c.keyword.value) == c.keyword.value
                              && isPattern(c.keyword.value))
      && c.login_date == (if Given(q.login_dates) then Some(DateRange(q.login_dates.value)) else None)
      && c.created == (if Given(q.register_dates) then Some(DateRange(q.register_dates.value)) else None)
      && (c.vir_uid_updated.Some? <==> Given(q.uid_status))
      && (c.vir_uid_updated == Some(ChangedOnce) <==> Given(q.uid_status) && LooseEqualsOne(q.uid_status.value))
      && (c.apps_count.Some? <==> Present(q.app_min_count) || Present(q.app_max_count))
      && (c.apps_count.Some? ==>
            && (c.apps_count.value.gte.Some? <==> Present(q.app_min_count))
            && (c.apps_count.value.lte.Some? <==> Present(q.app_max_count))
            && (Present(q.app_min_count) ==> c.apps_count.value.gte == Some(q.app_min_count))
            && (Present(q.app_max_count) ==> c.apps_count.value.lte == Some(q.app_max_count)))
      && c.status == (if Truthy(q.status) then Some(q.status) else None)
  {
    var keyword: Option<string> := None;
    if Given(q.kw) && Trim(q.kw.value) != "" {
      if !isPattern(Trim(q.kw.value)) {
        return Err(KeywordRejected);
      }
      TrimOfTrimmed(Trim(q.kw.value));
      keyword := Some(Trim(q.kw.value));
    }
    var login_date := if Given(q.login_dates) then Some(DateRange(q.login_dates.value)) else None;
    var created := if Given(q.register_dates) then Some(DateRange(q.register_dates.value)) else None;
    var changed := if Given(q.uid_status) then Some(if LooseEqualsOne(q.uid_status.value) then ChangedOnce else NeverChanged) else None;
    // The two bounds are added one after the other to the same range.
    var apps_count: Option<Range> := None;
    if Present(q.app_min_count) {
      apps_count := Some(Range(Some(q.app_min_count), None));
    }
    if Present(q.app_max_count) {
      apps_count := Some(Range(if apps_count.Some? then apps_count.value.gte else None, Some(q.app_max_count)));
    }
    var status := if Truthy(q.status) then Some(q.status) else None;
    r := Ok(UserConditions(keyword, login_date, created, changed, apps_count, status));
  }

  /** The slice of the matches a page shows. */
  datatype Window = Window(skip: int, limit: int)

  /** The list is fetched only when something matches, from
      `(page - 1) * page_size` on. */
  function PageWindow(total: nat, page: int, page_size: int): (w: Option<Window>)
    ensures w.Some? <==> total > 0
    ensures w.Some? ==> w.value.skip == (page - 1) * page_size && w.value.limit == page_size
  {
    if total > 0 then Some(Window((page - 1) * page_size, page_size)) else None
  }

  /** Consecutive pages are adjacent: each starts where the previous one's
      slice ends. */
  lemma PagesAdjacent(total: nat, page: int, page_size: int)
    requires total > 0
    ensures PageWindow(total, page + 1, page_size).value.skip
      == PageWindow(total, page, page_size).value.skip + PageWindow(total, page, page_size).value.limit
  {
  }

  // ---------------------------------------------------------------------
  // `updateByUid`

  /** The fields of a profile update; an absent field is `None`. */
  datatype UserPatch = UserPatch(
    vir_uid: Option<string>,
    email: Option<string>,
    nickname: Option<string>,
    avatar: Option<string>,
    password: Option<string>,
    vir_uid_updated: Option<string>)

  /** The record `findOne({ _id: uid }, '_id vir_uid email')` loads: only the
      selected fields; `vir_uid_updated` is not among them and reads as
      null. */
  function LoadForUpdate(u: User): (loaded: User)
    ensures loaded.id == u.id && loaded.vir_uid == u.vir_uid && loaded.email == u.email
    ensures loaded.vir_uid_updated.None?
  {
    u.(vir_uid_updated := None)
  }

  /** `if (user_info.vir_uid_updated) delete doc.vir_uid`. */
  function DropVirUidIfChanged(doc: UserPatch, user_info: User): (d: UserPatch)
    ensures d == doc || (user_info.vir_uid_updated.Some? && d == doc.(vir_uid := None))
  {
    if user_info.vir_uid_updated.Some? then doc.(vir_uid := None) else doc
  }

  /** The guard as written, on the record the projection loads. */
  function VirUidGuardAsWritten(u: User, doc: UserPatch): UserPatch {
    DropVirUidIfChanged(doc, LoadForUpdate(u))
  }

  /** As written the guard never fires: the projection leaves
      `vir_uid_updated` out, so a user who changed `vir_uid` once may change
      it again. */
  lemma VirUidGuardNeverFires(u: User, doc: UserPatch)
    ensures VirUidGuardAsWritten(u, doc) == doc
  {
  }

  /** A concrete case: a user stamped as having changed `vir_uid` keeps the
      requested new `vir_uid` in the update. */
  lemma VirUidGuardCounterexample()
    ensures var u := User(7, "alice", Some("2020-01-01 00:00:00"), "Al", DefaultAvatar, "a@bc.de", 0, "h", 1);
      var doc := UserPatch(Some("alice2"), None, None, None, None, None);
      VirUidGuardAsWritten(u, doc).vir_uid == Some("alice2")
  {
  }

  /** The guard as intended, on the stored record. */
  function VirUidGuard(u: User, doc: UserPatch): (d: UserPatch)
    ensures u.vir_uid_updated.Some? ==> d.vir_uid.None?
    ensures u.vir_uid_updated.None? ==> d == doc
    ensures d.(vir_uid := doc.vir_uid) == doc
  {
    DropVirUidIfChanged(doc, u)
  }

  /** The checks and rewrites `updateByUid` applies to a patch once the
      `vir_uid` guard has run on it, for the stored user `u`: the e-mail and
      `vir_uid` clashes in that order, then the password hash, the change
      stamp and the avatar file. */
  function CheckPatch(users: seq<User>, u: User, doc: UserPatch, now: string,
                      hash: string -> string, dirCreated: bool, storedPath: string): (r: Result<UserPatch>)
  {
    if Given(doc.email) && doc.email.value != u.email && EmailTaken(users, doc.email.value) then
      Err(ServiceError(400, "该Email已被占用"))
    else if Given(doc.vir_uid) && VirUidTaken(users, doc.vir_uid.value) then
      Err(ServiceError(400, "唯一ID已被占用"))
    else
      var doc := if Given(doc.password) then doc.(password := Some(hash(doc.password.value))) else doc;
      var doc := if Given(doc.vir_uid) then doc.(vir_uid_updated := Some(now)) else doc;
      if Given(doc.avatar) then
        match Base64ToFile(doc.avatar.value, dirCreated, storedPath)
        case Err(e) => Err(e)
        case Ok(path) => Ok(doc.(avatar := Some(path)))
      else Ok(doc)
  }

  /** The patch `updateByUid` writes, or the error it throws, as written:
      the guard reads the projected record. The stored avatar path, whether
      its directory could be made, the hash function and the current time
      are parameters. */
  function PlanUserUpdate(users: seq<User>, uid: nat, doc: UserPatch, now: string,
                          hash: string -> string, dirCreated: bool, storedPath: string): (r: Result<UserPatch>)
  {
    match FindById(users, uid)
    case None => Err(ServiceError(400, "更新失败，服务错误！"))
    case Some(u) => CheckPatch(users, u, VirUidGuardAsWritten(u, doc), now, hash, dirCreated, storedPath)
  }

  /** The same plan with the guard as intended, on the stored record. */
  function IntendedUserUpdate(users: seq<User>, uid: nat, doc: UserPatch, now: string,
                              hash: string -> string, dirCreated: bool, storedPath: string): (r: Result<UserPatch>)
  {
    match FindById(users, uid)
    case None => Err(ServiceError(400, "更新失败，服务错误！"))
    case Some(u) => CheckPatch(users, u, VirUidGuard(u, doc), now, hash, dirCreated, storedPath)
  }

  /** As written, a stamped user may change `vir_uid` again: the plan is the
      one for an unstamped user, and an accepted new `vir_uid` is free and
      stamped with the current time. */
  lemma VirUidChangedAgain(users: seq<User>, uid: nat, doc: UserPatch, now: string,
                           hash: string -> string, dirCreated: bool, storedPath: string)
    requires FindById(users, uid).Some?
    ensures var u := FindById(users, uid).value;
      PlanUserUpdate(users, uid, doc, now, hash, dirCreated, storedPath)
        == CheckPatch(users, u, doc, now, hash, dirCreated, storedPath)
    ensures var r := PlanUserUpdate(users, uid, doc, now, hash, dirCreated, storedPath);
      r.Ok? && Given(r.value.vir_uid) ==> !VirUidTaken(users, r.value.vir_uid.value) && r.value.vir_uid_updated == Some(now)
  {
    VirUidGuardNeverFires(FindById(users, uid).value, doc);
  }

  /** The two plans differ only for a stamped user: for a user who never
      changed `vir_uid` they agree. */
  lemma PlansAgreeWhenUnstamped(users: seq<User>, uid: nat, doc: UserPatch, now: string,
                                hash: string -> string, dirCreated: bool, storedPath: string)
    requires FindById(users, uid).None? || FindById(users, uid).value.vir_uid_updated.None?
    ensures PlanUserUpdate(users, uid, doc, now, hash, dirCreated, storedPath)
      == IntendedUserUpdate(users, uid, doc, now, hash, dirCreated, storedPath)
  {
  }

  /** Under the intended guard `vir_uid` changes at most once: once a user is
      stamped, no accepted update carries a new `vir_uid`; and an accepted
      new `vir_uid` is free and stamps the change time. */
  lemma VirUidChangedOnce(users: seq<User>, uid: nat, doc: UserPatch, now: string,
                          hash: string -> string, dirCreated: bool, storedPath: string)
    requires IntendedUserUpdate(users, uid, doc, now, hash, dirCreated, storedPath).Ok?
    ensures var d := IntendedUserUpdate(users, uid, doc, now, hash, dirCreated, storedPath).value;
      && FindById(users, uid).Some?
      && (FindById(users, uid).value.vir_uid_updated.Some? ==> d.vir_uid.None?)
      && (Given(d.vir_uid) ==> !VirUidTaken(users, d.vir_uid.value) && d.vir_uid_updated == Some(now))
  {
  }

  /** An accepted new e-mail is not another user's; an unchanged one is
      accepted. */
  lemma EmailStaysUnique(users: seq<User>, uid: nat, doc: UserPatch, now: string,
                         hash: string -> string, dirCreated: bool, storedPath: string)
    requires PlanUserUpdate(users, uid, doc, now, hash, dirCreated, storedPath).Ok?
    ensures var d := PlanUserUpdate(users, uid, doc, now, hash, dirCreated, storedPath).value;
      Given(d.email) && d.email.value != FindById(users, uid).value.email ==> !EmailTaken(users, d.email.value)
  {
  }

  /** The stored user after `updateOne`: every field the patch carries is
      written, the rest are kept. */
  function ApplyPatch(u: User, d: UserPatch): (v: User)
    ensures v.id == u.id && v.apps_count == u.apps_count && v.status == u.status
  {
    u.(vir_uid := d.vir_uid.GetOr(u.vir_uid),
       email := d.email.GetOr(u.email),
       nickname := d.nickname.GetOr(u.nickname),
       avatar := d.avatar.GetOr(u.avatar),
       password := d.password.GetOr(u.password),
       vir_uid_updated := if d.vir_uid_updated.Some? then d.vir_uid_updated else u.vir_uid_updated)
  }

  /** The user table with the patch applied to the first user with that id. */
  function PatchedUsers(users: seq<User>, uid: nat, d: UserPatch): seq<User> {
    UpdateFirst(users, (u: User) => u.id == uid, (u: User) => ApplyPatch(u, d))
  }

  /** `updateMany({ uid }, { vir_uid })` on the applications. */
  function RenamedApps(apps: seq<Application>, uid: nat, v: string): seq<Application> {
    UpdateAll(apps, (a: Application) => a.uid == uid, (a: Application) => a.(vir_uid := v))
  }

  /** `updateMany({ uid }, { vir_uid })` on the interfaces. */
  function RenamedApis(apis: seq<Interface>, uid: nat, v: string): seq<Interface> {
    UpdateAll(apis, (i: Interface) => i.uid == uid, (i: Interface) => i.(vir_uid := v))
  }

  /** `updateByUid`: on success the user's record takes the patch and, when
      a new `vir_uid` was accepted, every application and interface of the
      user takes it too. Nothing changes on an error. */
  method UpdateByUid(db: Database, uid: nat, doc: UserPatch, now: string,
                     hash: string -> string, dirCreated: bool, storedPath: string) returns (r: Result<UserPatch>)
    modifies db
    ensures r == PlanUserUpdate(old(db.users), uid, doc, now, hash, dirCreated, storedPath)
    ensures db.nextId == old(db.nextId)
    ensures r.Err? ==> db.users == old(db.users) && db.apps == old(db.apps) && db.apis == old(db.apis)
    ensures r.Ok? ==> db.users == PatchedUsers(old(db.users), uid, r.value)
    ensures r.Ok? && Given(r.value.vir_uid) ==>
      && db.apps == RenamedApps(old(db.apps), uid, r.value.vir_uid.value)
      && db.apis == RenamedApis(old(db.apis), uid, r.value.vir_uid.value)
    ensures r.Ok? && !Given(r.value.vir_uid) ==> db.apps == old(db.apps) && db.apis == old(db.apis)
  {
    r := PlanUserUpdate(db.users, uid, doc, now, hash, dirCreated, storedPath);
    if r.Ok? {
      WriteUserUpdate(db, uid, r.value);
    }
  }

  /** The writes of `updateByUid` once its checks have passed. */
  method WriteUserUpdate(db: Database, uid: nat, d: UserPatch)
    modifies db
    ensures db.users == PatchedUsers(old(db.users), uid, d) && db.nextId == old(db.nextId)
    ensures Given(d.vir_uid) ==>
      db.apps == RenamedApps(old(db.apps), uid, d.vir_uid.value) && db.apis == RenamedApis(old(db.apis), uid, d.vir_uid.value)
    ensures !Given(d.vir_uid) ==> db.apps == old(db.apps) && db.apis == old(db.apis)
  {
    db.users := PatchedUsers(db.users, uid, d);
    if Given(d.vir_uid) {
      db.apps := RenamedApps(db.apps, uid, d.vir_uid.value);
      db.apis := RenamedApis(db.apis, uid, d.vir_uid.value);
    }
  }

  /** After a rename every record of the user carries the new `vir_uid`, and
      every other record, and every other field, is as it was. */
  lemma RenameReachesEveryRecord(apps: seq<Application>, apis: seq<Interface>, uid: nat, v: string)
    ensures var ra := RenamedApps(apps, uid, v);
      && |ra| == |apps|
      && forall k :: 0 <= k < |apps| ==> ra[k] == if apps[k].uid == uid then apps[k].(vir_uid := v) else apps[k]
    ensures var ri := RenamedApis(apis, uid, v);
      && |ri| == |apis|
      && forall k :: 0 <= k < |apis| ==> ri[k] == if apis[k].uid == uid then apis[k].(vir_uid := v) else apis[k]
  {
  }

  // ---------------------------------------------------------------------
  // `delete` and the counters

  /** `delete`: the first user with that id gets status -1. */
  method Delete(db: Database, uid: nat)
    modifies db
    ensures db.users == UpdateFirst(old(db.users), (u: User) => u.id == uid, (u: User) => u.(status := -1))
    ensures db.apps == old(db.apps) && db.apis == old(db.apis) && db.nextId == old(db.nextId)
  {
    db.users := UpdateFirst(db.users, (u: User) => u.id == uid, (u: User) => u.(status := -1));
  }

  /** `$inc: { apps_count: delta }` on the user with that id. */
  function AddAppsCount(users: seq<User>, uid: nat, delta: int): (r: seq<User>)
    ensures |r| == |users|
    ensures forall k :: 0 <= k < |users| ==> r[k].id == users[k].id
  {
    UpdateFirst(users, (u: User) => u.id == uid, (u: User) => u.(apps_count := u.apps_count + delta))
  }

  /** The counter moves the user's `apps_count` by exactly `delta` and
      touches no other user and no other field. */
  lemma AddAppsCountEffect(users: seq<User>, uid: nat, delta: int, k: nat)
    requires k < |users|
    ensures var r := AddAppsCount(users, uid, delta);
      if k == FirstIndex(users, (u: User) => u.id == uid)
      then users[k].id == uid && r[k] == users[k].(apps_count := users[k].apps_count + delta)
      else r[k] == users[k]
  {
  }

  /** Decreasing undoes increasing. */
  lemma {:induction false} AddAppsCountInverse(users: seq<User>, uid: nat, delta: int)
    ensures AddAppsCount(AddAppsCount(users, uid, delta), uid, -delta) == users
  {
    var p := (u: User) => u.id == uid;
    var once := AddAppsCount(users, uid, delta);
    FirstIndexOfSameKeys(users, once, p);
    assert forall k :: 0 <= k < |users| ==> AddAppsCount(once, uid, -delta)[k] == users[k];
  }

  /** `increaseAppCountByUid`. */
  method IncreaseAppCountByUid(db: Database, uid: nat)
    modifies db
    ensures db.users == AddAppsCount(old(db.users), uid, 1)
    ensures db.apps == old(db.apps) && db.apis == old(db.apis) && db.nextId == old(db.nextId)
  {
    db.users := AddAppsCount(db.users, uid, 1);
  }

  /** `decreaseAppCountByUid`. */
  method DecreaseAppCountByUid(db: Database, uid: nat)
    modifies db
    ensures db.users == AddAppsCount(old(db.users), uid, -1)
    ensures db.apps == old(db.apps) && db.apis == old(db.apis) && db.nextId == old(db.nextId)
  {
    db.users := AddAppsCount(db.users, uid, -1);
  }
}
