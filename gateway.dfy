/** The mock-serving gateway (app/middleware/validateAppUrl.js and
    app/controller/api/http.js): a request to `/api/{vir_uid}/{slug}/{uri}`
    is checked against the owner, the application, its token and the
    interface table, answered with the interface's success envelope, and
    recorded in the request log. */
module Gateway {
  import opened Common
  import opened Text
  import opened Json
  import opened UserModel
  import opened ApplicationModel
  import opened InterfaceModel
  import opened Envelope
  import opened Store
  import opened Router
  import opened HttpContext
  import UserService
  import ApplicationService
  import InterfaceService

  /** The parts of a request the gateway reads. `ips` is the proxy chain
      (`ctx.ips`, empty unless proxies are trusted), `peerIp` the direct
      peer (`ctx.ip`). */
  datatype Request = Request(
    verb: string,
    path: string,
    url: string,
    ips: seq<string>,
    peerIp: string,
    headers: map<string, string>,
    query: map<string, Value>,
    body: Value)

  /** `ctx.get(name)`: the header, or `""` when it is absent. */
  function Header(req: Request, name: string): string {
    if name in req.headers then req.headers[name] else ""
  }

  /** `ctx.query[name]`: undefined when absent. */
  function QueryParam(req: Request, name: string): Value {
    if name in req.query then req.query[name] else Undefined
  }

  /** The client address: the first proxy entry unless it is the loopback
      address, in which case the second (undefined when there is none);
      without proxy entries the direct peer. */
  function ClientIp(ips: seq<string>, peerIp: string): (ip: Value)
    ensures |ips| == 0 ==> ip == Str(peerIp)
    ensures |ips| > 0 && ips[0] != "127.0.0.1" ==> ip == Str(ips[0])
    ensures |ips| > 0 && ips[0] == "127.0.0.1" ==> ip == (if |ips| > 1 then Str(ips[1]) else Undefined)
  {
    if |ips| > 0 then
      if ips[0] != "127.0.0.1" then Str(ips[0])
      else if |ips| > 1 then Str(ips[1]) else Undefined
    else Str(peerIp)
  }

  /** The token the application's `verify_rule` selects: the `app-token`
      header, the `_token` query parameter, or (for any other rule) the
      header when it is non-empty and the parameter otherwise. */
  function Token(rule: string, req: Request): (token: Value)
    ensures rule == "header" ==> token == Str(Header(req, "app-token"))
    ensures rule == "param" ==> token == QueryParam(req, "_token")
    ensures rule != "header" && rule != "param" ==>
      token == if Header(req, "app-token") != "" then Str(Header(req, "app-token")) else QueryParam(req, "_token")
  {
    if rule == "header" then Str(Header(req, "app-token"))
    else if rule == "param" then QueryParam(req, "_token")
    else
      var h := Header(req, "app-token");
      if h != "" then Str(h) else QueryParam(req, "_token")
  }

  /** The `header` rule reads nothing but the header, the `param` rule
      nothing but the query parameter. */
  lemma TokenSources(r1: Request, r2: Request)
    ensures Header(r1, "app-token") == Header(r2, "app-token") ==> Token("header", r1) == Token("header", r2)
    ensures QueryParam(r1, "_token") == QueryParam(r2, "_token") ==> Token("param", r1) == Token("param", r2)
    ensures Header(r1, "app-token") == Header(r2, "app-token") != "" ==> Token("compatible", r1) == Token("compatible", r2)
  {
  }

  /** What the gateway answers: the HTTP status and a plain-text or an
      object body. */
  datatype Response = Response(status: int, payload: Payload)

  /** One entry of the request log (app/model/interface_request_log.js). */
  datatype LogRecord = LogRecord(
    app_id: nat,
    app_slug: string,
    api_id: nat,
    uri: string,
    verb: string,
    params: Value,
    response: Body,
    result: int,
    referer: string,
    ip: Value,
    device: string)

  const UserMissingText := "APPLICATION NOT EXIST!"
  const AppMissingText := "The application does not exist or is invalid!"
  const TokenErrorMessage := "[VirApi] token error!"
  const InterfaceErrorMessage := "Interface error or invalid!"

  /** The 401 and 400 bodies: the failure code, and the fixed message when
      the template has a message field. */
  function FailureBody(t: ResponseTemplate, message: string): (body: Body)
    requires message != ""
    ensures body.Keys == FailedKeys(t)
    ensures DistinctNames(t) ==> body[t.code_name] == t.failed_code_value
    ensures t.message_name != "" ==> body[t.message_name] == Str(message)
  {
    InterfaceFailed(t, Str(message))
  }

  /** `ctx.request.url.replace(/\/api/, '')`: the first `/api` anywhere in
      the url is dropped. */
  function LogUri(url: string): string {
    ReplaceFirst(url, "/api", "")
  }

  /** For a gateway url the logged uri is the url without its `/api`
      prefix. */
  lemma LogUriOfGatewayUrl(url: string)
    requires |url| >= 4 && url[..4] == "/api"
    ensures LogUri(url) == url[4..]
  {
    ReplaceFirstAtStart(url, "/api");
  }

  /** The logged parameters: the body for POST and PUT, the query
      otherwise. */
  function LoggedParams(req: Request): (v: Value)
    ensures req.verb == "POST" || req.verb == "PUT" ==> v == req.body
    ensures req.verb != "POST" && req.verb != "PUT" ==> v == Obj(req.query)
  {
    if req.verb == "POST" || req.verb == "PUT" then req.body else Obj(req.query)
  }

  /** What `validateAppUrl` and the handler answer for a gateway request
      on the given tables, and the log record written after a served one. */
  function Outcome(users: seq<User>, apps: seq<Application>, apis: seq<Interface>, c: Captures, req: Request,
                   gen: Value -> Value): (Response, Option<LogRecord>)
  {
    var user := UserService.FindByVirUid(users, c.vir_uid);
    if user.None? || user.value.status != 1 then (Response(404, Text(UserMissingText)), None)
    else
      var app := ApplicationService.FindByUidAndSlug(apps, user.value.id, c.slug);
      if app.None? || app.value.status != 1 then (Response(404, Text(AppMissingText)), None)
      else
        var t := TemplateOf(app.value);
        if Str(app.value.app_key) != Token(app.value.verify_rule, req) then
          (Response(401, Fields(FailureBody(t, TokenErrorMessage))), None)
        else
          var api := InterfaceService.LatestMatch(apis, app.value.id, req.verb, c.uri);
          if api.None? then (Response(400, Fields(FailureBody(t, InterfaceErrorMessage))), None)
          else
            var body := InterfaceService.ProcessResponse(app.value, api.value, gen);
            (Response(200, Fields(body)),
             Some(LogRecord(app.value.id, app.value.slug, api.value.id, LogUri(req.url), req.verb,
                            LoggedParams(req), body, ResultFlag(body, t), Header(req, "referer"),
                            ClientIp(req.ips, req.peerIp), Header(req, "user-agent"))))
  }

  /** `validateAppUrl` followed by the handler: the early exits in order,
      and on the path that passed every check the handler's body and the log
      record written after it. The application's status is not looked at
      again after the interface match. */
  method ValidateAppUrl(db: Database, c: Captures, req: Request, gen: Value -> Value)
    returns (resp: Response, log: Option<LogRecord>)
    ensures var user := UserService.FindByVirUid(db.users, c.vir_uid);
      user.None? || user.value.status != 1 ==> resp == Response(404, Text(UserMissingText)) && log.None?
    ensures var user := UserService.FindByVirUid(db.users, c.vir_uid);
      user.Some? && user.value.status == 1 ==>
        var app := ApplicationService.FindByUidAndSlug(db.apps, user.value.id, c.slug);
        && (app.None? || app.value.status != 1 ==> resp == Response(404, Text(AppMissingText)) && log.None?)
        && (app.Some? && app.value.status == 1 ==>
              var t := TemplateOf(app.value);
              && (Str(app.value.app_key) != Token(app.value.verify_rule, req) ==>
                    resp == Response(401, Fields(FailureBody(t, TokenErrorMessage))) && log.None?)
              && (Str(app.value.app_key) == Token(app.value.verify_rule, req) ==>
                    var api := InterfaceService.LatestMatch(db.apis, app.value.id, req.verb, c.uri);
                    && (api.None? ==> resp == Response(400, Fields(FailureBody(t, InterfaceErrorMessage))) && log.None?)
                    && (api.Some? ==>
                          var body := InterfaceService.ProcessResponse(app.value, api.value, gen);
                          && resp == Response(200, Fields(body))
                          && log == Some(LogRecord(app.value.id, app.value.slug, api.value.id, LogUri(req.url),
                                                   req.verb, LoggedParams(req), body, ResultFlag(body, t),
                                                   Header(req, "referer"), ClientIp(req.ips, req.peerIp),
                                                   Header(req, "user-agent"))))))
    ensures log.Some? <==> resp.status == 200
    ensures (resp, log) == Outcome(db.users, db.apps, db.apis, c, req, gen)
  {
    var ip := ClientIp(req.ips, req.peerIp);
    var user := UserService.FindByVirUid(db.users, c.vir_uid);
    if user.None? || user.value.status != 1 {
      return Response(404, Text(UserMissingText)), None;
    }
    var app := ApplicationService.FindByUidAndSlug(db.apps, user.value.id, c.slug);
    if app.None? || app.value.status != 1 {
      return Response(404, Text(AppMissingText)), None;
    }
    var token := Token(app.value.verify_rule, req);
    var t := TemplateOf(app.value);
    if Str(app.value.app_key) != token {
      return Response(401, Fields(FailureBody(t, TokenErrorMessage))), None;
    }
    var api := InterfaceService.LatestMatch(db.apis, app.value.id, req.verb, c.uri);
    if api.None? {
      return Response(400, Fields(FailureBody(t, InterfaceErrorMessage))), None;
    }
    // next(): the HTTP controller's handler sets the body.
    var body := InterfaceService.ProcessResponse(app.value, api.value, gen);
    resp := Response(200, Fields(body));
    log := Some(LogRecord(app.value.id, app.value.slug, api.value.id, LogUri(req.url), req.verb,
                          LoggedParams(req), body, ResultFlag(body, t), Header(req, "referer"), ip,
                          Header(req, "user-agent")));
  }

  /** A served request is logged as a success exactly when the template's
      success code is defined, provided its names do not overwrite one
      another. */
  lemma ServedIsLoggedAsSuccess(app: Application, api: Interface, gen: Value -> Value)
    requires DistinctNames(TemplateOf(app))
    ensures var body := InterfaceService.ProcessResponse(app, api, gen);
      ResultFlag(body, TemplateOf(app)) == 1 <==> TemplateOf(app).succeed_code_value != Undefined
  {
    SucceedIsLoggedAsSuccess(TemplateOf(app), gen(api.response_rules));
  }

  /** A HEAD request reaches the gateway through the GET route, but no
      stored interface has that method, so it is never served. */
  lemma HeadIsNeverServed(users: seq<User>, apps: seq<Application>, apis: seq<Interface>, c: Captures,
                          req: Request, gen: Value -> Value)
    requires req.verb == "HEAD"
    requires forall k :: 0 <= k < |apis| ==> MethodOk(apis[k].verb)
    ensures Outcome(users, apps, apis, c, req, gen).0.status != 200
    ensures Outcome(users, apps, apis, c, req, gen).1.None?
  {
    var user := UserService.FindByVirUid(users, c.vir_uid);
    if user.Some? && user.value.status == 1 {
      var app := ApplicationService.FindByUidAndSlug(apps, user.value.id, c.slug);
      if app.Some? && app.value.status == 1 {
        var api := InterfaceService.LatestMatch(apis, app.value.id, req.verb, c.uri);
        assert api.None?;
      }
    }
  }

  /** The request log: the fire-and-forget `insert` becomes an append. */
  class RequestLog {
    var entries: seq<LogRecord>

    constructor ()
      ensures entries == []
    {
      entries := [];
    }

    /** `interfaceRequestLog.insert`. */
    method Insert(r: LogRecord)
      modifies this
      ensures entries == old(entries) + [r]
    {
      entries := entries + [r];
    }
  }

  /** A request through the router: a gateway path runs the pipeline and
      the handler, and a served one is appended to the log. Paths outside
      the gateway's pattern, or other methods, are not the gateway's. */
  method Serve(db: Database, requestLog: RequestLog, req: Request, gen: Value -> Value)
    returns (resp: Option<Response>)
    modifies requestLog
    ensures resp.Some? <==> GatewayRoute(req.verb, req.path).Some?
    ensures resp.Some? ==>
      var o := Outcome(db.users, db.apps, db.apis, GatewayRoute(req.verb, req.path).value, req, gen);
      && resp.value == o.0
      && (o.1.Some? ==> requestLog.entries == old(requestLog.entries) + [o.1.value])
      && (o.1.None? ==> requestLog.entries == old(requestLog.entries))
    ensures resp.Some? && resp.value.status == 200 ==> |requestLog.entries| == |old(requestLog.entries)| + 1
    ensures resp.None? || resp.value.status != 200 ==> requestLog.entries == old(requestLog.entries)
  {
    var c := GatewayRoute(req.verb, req.path);
    if c.None? {
      return None;
    }
    var r, log := ValidateAppUrl(db, c.value, req, gen);
    if log.Some? {
      requestLog.Insert(log.value);
    }
    resp := Some(r);
  }
}
