/** The console's request-log query (app/controller/console/log.js): the
    filter built from the query string (application, date window, api,
    method, result) and the page and page size after clamping. */
module ConsoleLog {
  import opened Common
  import opened Json
  import opened ApplicationModel
  import opened Store
  import opened HttpContext
  import ApplicationService
  import BaseController

  const PickAppMessage := "请指定要查找的应用"
  const NoAppMessage := "未找到目标应用数据"
  const DefaultPage := 1
  const DefaultPerPage := 10
  const MaxPerPage := 100

  /** A `created` window in whole days relative to the clock: from the
      start of the day `from` days ago to the end of the day `to` days ago. */
  datatype DateWindow = DateWindow(from: nat, to: nat)

  /** The `api_id` filter: an exact id, or a match on a null `api_id`. */
  datatype ApiIdFilter = ApiIs(id: string) | NullApiId

  datatype LogConditions = LogConditions(
    app_id: nat,
    created: DateWindow,
    api_id: Option<ApiIdFilter>,
    verb: Option<string>,
    result: Option<string>)

  /** What is handed to the log listing: the filter, the page and the page
      size (strings from the query, or the numeric defaults). */
  datatype LogQuery = LogQuery(conditions: LogConditions, page: Value, per_page: Value)

  /** The controller either answers with a failure message or runs the
      query. */
  datatype Outcome = Refused(message: string) | Run(query: LogQuery)

  const Today := DateWindow(0, 0)

  /** The window a `date_type` selects; anything else is today. */
  function WindowOf(date_type: Option<string>): (w: DateWindow)
    ensures date_type == Some("yesterday") ==> w == DateWindow(1, 1)
    ensures date_type == Some("7days") ==> w == DateWindow(7, 0)
    ensures date_type == Some("30days") ==> w == DateWindow(30, 0)
    ensures date_type !in {Some("yesterday"), Some("7days"), Some("30days")} ==> w == Today
    ensures w.to <= w.from
  {
    if date_type == Some("today") then Today
    else if date_type == Some("yesterday") then DateWindow(1, 1)
    else if date_type == Some("7days") then DateWindow(7, 0)
    else if date_type == Some("30days") then DateWindow(30, 0)
    else Today
  }

  /** The query value parsed as a loose JavaScript number (`NaN` is
      `None`). */
  function LooseNumber(v: Value): Option<int> {
    match v
    case Num(n) => Some(n)
    case Str(s) => NumberOf(s)
    case _ => None
  }

  /** `page = inputs.page || 1; if (page <= 0) page = 1`. */
  function PageOf(raw: Option<string>): (p: Value)
    ensures raw.None? || raw == Some("") ==> p == Num(DefaultPage)
    ensures raw.Some? && raw.value != "" ==>
      p == if NumberOf(raw.value).Some? && NumberOf(raw.value).value <= 0 then Num(DefaultPage) else Str(raw.value)
  {
    var page := if raw.Some? && raw.value != "" then Str(raw.value) else Num(DefaultPage);
    var n := LooseNumber(page);
    if n.Some? && n.value <= 0 then Num(DefaultPage) else page
  }

  /** `per_page = inputs.per_page || 10`, then out-of-range becomes 100. */
  function PerPageOf(raw: Option<string>): (p: Value)
    ensures raw.None? || raw == Some("") ==> p == Num(DefaultPerPage)
    ensures raw.Some? && raw.value != "" ==>
      p == if NumberOf(raw.value).Some? && (NumberOf(raw.value).value <= 0 || NumberOf(raw.value).value > MaxPerPage)
           then Num(MaxPerPage) else Str(raw.value)
  {
    var per_page := if raw.Some? && raw.value != "" then Str(raw.value) else Num(DefaultPerPage);
    var n := LooseNumber(per_page);
    if n.Some? && (n.value <= 0 || n.value > MaxPerPage) then Num(MaxPerPage) else per_page
  }

  /** Whatever is asked for, a numeric page is at least 1 and a numeric page
      size lies in 1..100. */
  lemma ClampedBounds(page: Option<string>, per_page: Option<string>)
    ensures LooseNumber(PageOf(page)).Some? ==> LooseNumber(PageOf(page)).value >= 1
    ensures var n := LooseNumber(PerPageOf(per_page));
      n.Some? ==> 1 <= n.value <= MaxPerPage
  {
  }

  /** `ctx.query[name]`. */
  function Param(query: map<string, string>, name: string): Option<string> {
    if name in query then Some(query[name]) else None
  }

  /** The query the controller hands on, or its refusal: no slug, or no
      application of the caller with that slug, refuses; otherwise the
      filter holds the application's id, the date window, the `api_id`,
      method and result filters the query asks for, and the clamped page
      and page size. */
  predicate QueryFits(apps: seq<Application>, uid: nat, query: map<string, string>, o: Outcome) {
    && (Param(query, "app_slug") in {None, Some("")} ==> o == Refused(PickAppMessage))
    && (Param(query, "app_slug") !in {None, Some("")} ==>
          (ApplicationService.FindByUidAndSlug(apps, uid, query["app_slug"]).None? <==> o == Refused(NoAppMessage)))
    && (o.Run? ==>
          && "app_slug" in query
          && var app := ApplicationService.FindByUidAndSlug(apps, uid, query["app_slug"]);
          && app.Some?
          && o.query.conditions.app_id == app.value.id
          && o.query.conditions.created == WindowOf(Param(query, "date_type"))
          && (o.query.conditions.api_id.None? <==> Param(query, "api_id") in {None, Some("")})
          && (Param(query, "api_id") == Some("undefined") ==> o.query.conditions.api_id == Some(NullApiId))
          && (Param(query, "api_id") !in {None, Some(""), Some("undefined")} ==>
                o.query.conditions.api_id == Some(ApiIs(query["api_id"])))
          && o.query.conditions.verb == (if Param(query, "method") in {None, Some("")} then None else Param(query, "method"))
          && o.query.conditions.result == Param(query, "result")
          && o.query.page == PageOf(Param(query, "page"))
          && o.query.per_page == PerPageOf(Param(query, "per_page")))
  }

  /** Builds the filter field by field, as the controller does. */
  method BuildQuery(apps: seq<Application>, uid: nat, query: map<string, string>) returns (o: Outcome)
    ensures QueryFits(apps, uid, query, o)
    ensures o.Refused? ==> o.message in {PickAppMessage, NoAppMessage}
  {
    var slug := Param(query, "app_slug");
    if slug.None? || slug.value == "" {
      return Refused(PickAppMessage);
    }
    var app_info := ApplicationService.FindByUidAndSlug(apps, uid, slug.value);
    if app_info.None? {
      return Refused(NoAppMessage);
    }
    var conditions := LogConditions(app_info.value.id, WindowOf(Param(query, "date_type")), None, None, None);
    var api_id := Param(query, "api_id");
    if api_id.Some? && api_id.value != "" {
      conditions := conditions.(api_id := Some(if api_id.value != "undefined" then ApiIs(api_id.value) else NullApiId));
    }
    var verb := Param(query, "method");
    if verb.Some? && verb.value != "" {
      conditions := conditions.(verb := verb);
    }
    if "result" in query {
      conditions := conditions.(result := Some(query["result"]));
    }
    var page := PageOf(Param(query, "page"));
    var per_page := PerPageOf(Param(query, "per_page"));
    o := Run(LogQuery(conditions, page, per_page));
  }

  /** The action: a failure body, or the success body around the listing
      `fetch` returns for the query (the listing itself is not modelled). */
  method RequestLog(ctx: Context, db: Database, uid: nat, query: map<string, string>, fetch: LogQuery -> Value)
    returns (o: Outcome)
    modifies ctx
    ensures QueryFits(db.apps, uid, query, o)
    ensures o.Refused? ==> ctx.body == Fields(BaseController.FailedBody(o.message, BaseController.DefaultFailedCode))
    ensures o.Run? ==>
      ctx.body == Fields(BaseController.SuccessBody(fetch(o.query), BaseController.DefaultSuccessMessage))
    ensures ctx.Snapshot() == old(ctx.Snapshot()).(body := ctx.body, status := ctx.status)
  {
    o := BuildQuery(db.apps, uid, query);
    if o.Refused? {
      BaseController.Failed(ctx, o.message, BaseController.DefaultFailedCode);
    } else {
      BaseController.Success(ctx, fetch(o.query), BaseController.DefaultSuccessMessage);
    }
  }
}
