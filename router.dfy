/** The route table (app/router.js): the gateway pattern that splits
    `/api/{vir_uid}/{slug}/{uri}` into its three captures, the four verbs that
    reach the gateway, and the console routes with the session guard. */
module Router {
  import opened Common
  import opened Text
  import opened InterfaceModel

  /** The three captures of the gateway pattern. */
  datatype Captures = Captures(vir_uid: string, slug: string, uri: string)

  /** `[\w-.]+`: one path segment. */
  predicate SegmentOk(s: string) {
    |s| > 0 && forall i :: 0 <= i < |s| ==> IsUriChar(s[i])
  }

  /** `[\w-.\/]+`: the rest of the path, slashes allowed. */
  predicate TailOk(s: string) {
    |s| > 0 && forall i :: 0 <= i < |s| ==> IsUriChar(s[i]) || s[i] == '/'
  }

  const GatewayPrefix := "/api/"

  /** The text before the first `/` and the text after it; none when there
      is no `/`. */
  function CutAtSlash(s: string): (r: Option<(string, string)>)
    ensures r.Some? ==> s == r.value.0 + "/" + r.value.1 && '/' !in r.value.0
    ensures r.None? ==> '/' !in s
  {
    var i := IndexOf(s, '/');
    if i == |s| then None
    else
      SplitAtIndexOf(s, '/');
      assert forall k :: 0 <= k < i ==> s[..i][k] == s[k];
      Some((s[..i], s[i + 1..]))
  }

  lemma CutAtSlashOf(a: string, b: string)
    requires '/' !in a
    ensures CutAtSlash(a + "/" + b) == Some((a, b))
  {
    IndexOfAfter(a, '/', b);
    var s := a + "/" + b;
    assert s[..|a|] == a && s[|a| + 1..] == b;
  }

  /** `^/api/([\w-.]+)/([\w-.]+)/([\w-.\/]+)$`. The first two groups cannot
      hold a `/`, so each ends at the next `/`. */
  function ParseGatewayPath(path: string): Option<Captures> {
    if |path| < |GatewayPrefix| || path[..|GatewayPrefix|] != GatewayPrefix then None
    else
      match CutAtSlash(path[|GatewayPrefix|..])
      case None => None
      case Some((vir_uid, after)) =>
        match CutAtSlash(after)
        case None => None
        case Some((slug, uri)) =>
          if CapturesOk(Captures(vir_uid, slug, uri)) then Some(Captures(vir_uid, slug, uri)) else None
  }

  /** The path a set of captures stands for. */
  function GatewayPath(c: Captures): string {
    GatewayPrefix + c.vir_uid + "/" + c.slug + "/" + c.uri
  }

  predicate CapturesOk(c: Captures) {
    SegmentOk(c.vir_uid) && SegmentOk(c.slug) && TailOk(c.uri)
  }

  /** Every parsed path is the path of its captures, and the captures are of
      the pattern's character classes. */
  lemma ParseGatewayPathSound(path: string)
    requires ParseGatewayPath(path).Some?
    ensures var c := ParseGatewayPath(path).value; CapturesOk(c) && GatewayPath(c) == path
  {
    var rest := path[|GatewayPrefix|..];
    var cut1 := CutAtSlash(rest);
    var cut2 := CutAtSlash(cut1.value.1);
    var c := Captures(cut1.value.0, cut2.value.0, cut2.value.1);
    assert ParseGatewayPath(path) == Some(c);
    assert path == GatewayPrefix + rest by {
      assert path == path[..|GatewayPrefix|] + rest;
    }
    GatewayPathParts(c, rest);
  }

  lemma GatewayPathParts(c: Captures, rest: string)
    requires rest == c.vir_uid + "/" + (c.slug + "/" + c.uri)
    ensures GatewayPath(c) == GatewayPrefix + rest
  {
  }

  lemma SegmentHasNoSlash(s: string)
    requires SegmentOk(s)
    ensures '/' !in s
  {
    forall k | 0 <= k < |s| ensures s[k] != '/' {
      assert IsUriChar(s[k]);
    }
  }

  /** Every path of well-formed captures parses back to those captures, so
      the split of a matching path into (vir_uid, slug, uri) is unique. */
  lemma ParseGatewayPathComplete(c: Captures)
    requires CapturesOk(c)
    ensures ParseGatewayPath(GatewayPath(c)) == Some(c)
  {
    var path := GatewayPath(c);
    var after := c.slug + "/" + c.uri;
    var rest := c.vir_uid + "/" + after;
    assert path == GatewayPrefix + rest;
    assert path[..|GatewayPrefix|] == GatewayPrefix;
    assert path[|GatewayPrefix|..] == rest;
    SegmentHasNoSlash(c.vir_uid);
    SegmentHasNoSlash(c.slug);
    CutAtSlashOf(c.vir_uid, after);
    CutAtSlashOf(c.slug, c.uri);
  }

  /** Whether a route registered for `routeVerb` takes a request with
      `verb`: the router also answers HEAD on every GET route. */
  predicate VerbMatches(routeVerb: string, verb: string) {
    routeVerb == verb || (routeVerb == "GET" && verb == "HEAD")
  }

  /** The verbs the gateway routes take: GET, POST, PUT and DELETE, and HEAD
      through the GET route. */
  predicate GatewayVerb(verb: string) {
    MethodOk(verb) || verb == "HEAD"
  }

  /** The gateway routes, each through the same middleware and handler. */
  function GatewayRoute(verb: string, path: string): (r: Option<Captures>)
    ensures r.Some? ==> GatewayVerb(verb) && CapturesOk(r.value) && GatewayPath(r.value) == path
    ensures r.Some? <==> GatewayVerb(verb) && ParseGatewayPath(path).Some?
  {
    if GatewayVerb(verb) then
      var p := ParseGatewayPath(path);
      if p.Some? then ParseGatewayPathSound(path); p else None
    else None
  }

  /** A console route: the verb, the pattern's segments (`:name` matches any
      non-empty segment), the action, and whether `validateUser` guards it. */
  datatype Route = Route(verb: string, segments: seq<string>, action: string, guarded: bool)

  const LoginRoute := Route("POST", ["ajax", "login"], "oauth.login", false)

  /** The routes registered without `validateUser`, in order. */
  const OpenRoutes: seq<Route> := [
    Route("GET", [""], "common.index", false),
    Route("GET", ["console"], "common.index", false),
    LoginRoute
  ]

  /** A console endpoint under `/ajax`: its verb, the segments after `ajax`
      and the action. */
  datatype Endpoint = Endpoint(verb: string, segments: seq<string>, action: string)

  /** The endpoints registered behind `validateUser`, in order; `resources`
      expands to the five actions the controllers define (index, create,
      show, update, destroy), with update on both PATCH and PUT. */
  const GuardedEndpoints: seq<Endpoint> := [
    Endpoint("GET", ["account"], "user.my_account"),
    Endpoint("DELETE", ["session"], "user.logout"),
    Endpoint("POST", ["user", "profile"], "user.update"),
    Endpoint("GET", ["request_log"], "log.request_log"),
    Endpoint("GET", ["statistics"], "statistics.index"),
    Endpoint("GET", ["application", "list"], "application.list"),
    Endpoint("POST", ["change_application_key"], "application.change_app_key"),
    Endpoint("POST", ["application", "copy"], "application.copy"),
    Endpoint("GET", ["application", ":slug", "base_info"], "application.base_info"),
    Endpoint("POST", ["interface", "empty"], "interface.empty"),
    Endpoint("POST", ["interface", "copy"], "interface.copy"),
    Endpoint("POST", ["interface", "move"], "interface.move"),
    Endpoint("GET", ["interface", "list"], "interface.list"),
    Endpoint("GET", ["interface_map"], "interface.map"),
    Endpoint("POST", ["interface_debug"], "interface.debug"),
    Endpoint("GET", ["application"], "application.index"),
    Endpoint("POST", ["application"], "application.create"),
    Endpoint("GET", ["application", ":id"], "application.show"),
    Endpoint("PATCH", ["application", ":id"], "application.update"),
    Endpoint("PUT", ["application", ":id"], "application.update"),
    Endpoint("DELETE", ["application", ":id"], "application.destroy"),
    Endpoint("GET", ["interface"], "interface.index"),
    Endpoint("POST", ["interface"], "interface.create"),
    Endpoint("GET", ["interface", ":id"], "interface.show"),
    Endpoint("PATCH", ["interface", ":id"], "interface.update"),
    Endpoint("PUT", ["interface", ":id"], "interface.update"),
    Endpoint("DELETE", ["interface", ":id"], "interface.destroy")
  ]

  /** `router.<verb>('/ajax/...', validateUser, action)`. */
  function Guarded(e: Endpoint): Route {
    Route(e.verb, ["ajax"] + e.segments, e.action, true)
  }

  predicate IsParam(seg: string) {
    |seg| > 0 && seg[0] == ':'
  }

  /** The segments of a path after its leading `/`. */
  function PathSegments(path: string): seq<string>
    requires |path| > 0
  {
    Split(path[1..], '/')
  }

  predicate SegmentsMatch(pattern: seq<string>, segs: seq<string>) {
    |pattern| == |segs| &&
    forall k :: 0 <= k < |pattern| ==> if IsParam(pattern[k]) then segs[k] != "" else segs[k] == pattern[k]
  }

  /** The path as the console routes compare it (path-to-regexp's
      `strict: false` and `sensitive: false`): one trailing `/` after a
      non-empty segment is dropped, and ASCII letters are compared in lower
      case. The patterns are lower-case ASCII, so folding ASCII letters is
      the whole of the regular expression's case-insensitivity here. */
  function Normalised(path: string): (p: string)
    requires |path| > 0
    ensures |p| > 0 && p[0] == LowerChar(path[0])
  {
    var n := |path|;
    AsciiLower(if n > 1 && path[n - 1] == '/' && path[n - 2] != '/' then path[..n - 1] else path)
  }

  predicate RouteMatches(r: Route, verb: string, path: string) {
    |path| > 0 && path[0] == '/' && VerbMatches(r.verb, verb) && SegmentsMatch(r.segments, PathSegments(Normalised(path)))
  }

  /** `r` is the first of `routes` that matches: koa-router runs the
      matching layers in registration order and the first one answers. */
  predicate FirstMatch(routes: seq<Route>, r: Route, verb: string, path: string) {
    exists k :: 0 <= k < |routes| && routes[k] == r && RouteMatches(r, verb, path) &&
      forall j :: 0 <= j < k ==> !RouteMatches(routes[j], verb, path)
  }

  /** `e` is the first guarded endpoint whose route matches. */
  predicate FirstGuarded(es: seq<Endpoint>, e: Endpoint, verb: string, path: string) {
    exists k :: 0 <= k < |es| && es[k] == e && RouteMatches(Guarded(e), verb, path) &&
      forall j :: 0 <= j < k ==> !RouteMatches(Guarded(es[j]), verb, path)
  }

  /** The first route that matches, in registration order. */
  function Lookup(routes: seq<Route>, verb: string, path: string): (r: Option<Route>)
    ensures r.Some? ==> FirstMatch(routes, r.value, verb, path)
    ensures r.None? <==> forall k :: 0 <= k < |routes| ==> !RouteMatches(routes[k], verb, path)
    decreases |routes|
  {
    if routes == [] then None
    else if RouteMatches(routes[0], verb, path) then Some(routes[0])
    else
      var r := Lookup(routes[1..], verb, path);
      LookupSkipsHead(routes, verb, path, r);
      r
  }

  /** A first match of the tail is a first match of the whole when the
      head does not match, and so is the absence of a match. */
  lemma LookupSkipsHead(routes: seq<Route>, verb: string, path: string, r: Option<Route>)
    requires |routes| > 0 && !RouteMatches(routes[0], verb, path)
    requires r.Some? ==> FirstMatch(routes[1..], r.value, verb, path)
    requires r.None? <==> forall k :: 0 <= k < |routes[1..]| ==> !RouteMatches(routes[1..][k], verb, path)
    ensures r.Some? ==> FirstMatch(routes, r.value, verb, path)
    ensures r.None? <==> forall k :: 0 <= k < |routes| ==> !RouteMatches(routes[k], verb, path)
  {
    if r.Some? {
      var k :| 0 <= k < |routes[1..]| && routes[1..][k] == r.value && RouteMatches(r.value, verb, path) &&
        forall j :: 0 <= j < k ==> !RouteMatches(routes[1..][j], verb, path);
      assert routes[k + 1] == r.value;
      forall j | 0 <= j < k + 1
        ensures !RouteMatches(routes[j], verb, path)
      {
        if j > 0 { assert routes[j] == routes[1..][j - 1]; }
      }
    } else {
      forall k | 0 <= k < |routes|
        ensures !RouteMatches(routes[k], verb, path)
      {
        if k > 0 { assert routes[k] == routes[1..][k - 1]; }
      }
    }
  }

  /** The first guarded endpoint whose route matches, in registration order. */
  function LookupGuarded(es: seq<Endpoint>, verb: string, path: string): (r: Option<Endpoint>)
    ensures r.Some? ==> FirstGuarded(es, r.value, verb, path)
    ensures r.None? <==> forall k :: 0 <= k < |es| ==> !RouteMatches(Guarded(es[k]), verb, path)
    decreases |es|
  {
    if es == [] then None
    else if RouteMatches(Guarded(es[0]), verb, path) then Some(es[0])
    else
      var r := LookupGuarded(es[1..], verb, path);
      LookupGuardedSkipsHead(es, verb, path, r);
      r
  }

  /** The same for the guarded endpoints. */
  lemma LookupGuardedSkipsHead(es: seq<Endpoint>, verb: string, path: string, r: Option<Endpoint>)
    requires |es| > 0 && !RouteMatches(Guarded(es[0]), verb, path)
    requires r.Some? ==> FirstGuarded(es[1..], r.value, verb, path)
    requires r.None? <==> forall k :: 0 <= k < |es[1..]| ==> !RouteMatches(Guarded(es[1..][k]), verb, path)
    ensures r.Some? ==> FirstGuarded(es, r.value, verb, path)
    ensures r.None? <==> forall k :: 0 <= k < |es| ==> !RouteMatches(Guarded(es[k]), verb, path)
  {
    if r.Some? {
      var k :| 0 <= k < |es[1..]| && es[1..][k] == r.value && RouteMatches(Guarded(r.value), verb, path) &&
        forall j :: 0 <= j < k ==> !RouteMatches(Guarded(es[1..][j]), verb, path);
      assert es[k + 1] == r.value;
      forall j | 0 <= j < k + 1
        ensures !RouteMatches(Guarded(es[j]), verb, path)
      {
        if j > 0 { assert es[j] == es[1..][j - 1]; }
      }
    } else {
      forall k | 0 <= k < |es|
        ensures !RouteMatches(Guarded(es[k]), verb, path)
      {
        if k > 0 { assert es[k] == es[1..][k - 1]; }
      }
    }
  }

  /** Where a request goes: the gateway, a console action, or nowhere. */
  datatype Target = Gateway(captures: Captures) | Console(route: Route) | NoRoute

  /** No open route matches the request. */
  predicate NoOpenMatch(open: seq<Route>, verb: string, path: string) {
    forall k :: 0 <= k < |open| ==> !RouteMatches(open[k], verb, path)
  }

  /** No guarded endpoint matches the request. */
  predicate NoGuardedMatch(guarded: seq<Endpoint>, verb: string, path: string) {
    forall k :: 0 <= k < |guarded| ==> !RouteMatches(Guarded(guarded[k]), verb, path)
  }

  /** Where a request goes, given the open routes and the guarded
      endpoints: the gateway first, then the first matching open route,
      then the first matching guarded endpoint; nowhere only when nothing
      matches. */
  function DispatchIn(open: seq<Route>, guarded: seq<Endpoint>, verb: string, path: string): (t: Target)
    ensures t.Gateway? <==> GatewayRoute(verb, path).Some?
    ensures t.Gateway? ==> t.captures == GatewayRoute(verb, path).value
    ensures t.Console? ==> RouteMatches(t.route, verb, path)
    ensures t.Console? ==> t.route in open || exists e :: e in guarded && t.route == Guarded(e)
    ensures t.NoRoute? <==>
      GatewayRoute(verb, path).None? && NoOpenMatch(open, verb, path) && NoGuardedMatch(guarded, verb, path)
    ensures GatewayRoute(verb, path).None? && !NoOpenMatch(open, verb, path) ==>
      t.Console? && FirstMatch(open, t.route, verb, path)
    ensures GatewayRoute(verb, path).None? && NoOpenMatch(open, verb, path) && !NoGuardedMatch(guarded, verb, path) ==>
      t.Console? && exists e :: FirstGuarded(guarded, e, verb, path) && t.route == Guarded(e)
  {
    var g := GatewayRoute(verb, path);
    if g.Some? then Gateway(g.value)
    else
      match Lookup(open, verb, path)
      case Some(r) => Console(r)
      case None =>
        match LookupGuarded(guarded, verb, path)
        case Some(e) => Console(Guarded(e))
        case None => NoRoute
  }

  /** The gateway routes and the console routes never match the same path,
      so their relative order does not matter; among the console routes the
      open ones come first, and within each list the first match wins. */
  function Dispatch(verb: string, path: string): (t: Target)
    ensures t.Gateway? <==> GatewayRoute(verb, path).Some?
    ensures t.Gateway? ==> t.captures == GatewayRoute(verb, path).value
    ensures t.Console? ==> RouteMatches(t.route, verb, path)
    ensures t.Console? ==> t.route in OpenRoutes || exists e :: e in GuardedEndpoints && t.route == Guarded(e)
    ensures t.NoRoute? <==>
      GatewayRoute(verb, path).None? && NoOpenMatch(OpenRoutes, verb, path) && NoGuardedMatch(GuardedEndpoints, verb, path)
    ensures GatewayRoute(verb, path).None? && !NoOpenMatch(OpenRoutes, verb, path) ==>
      t.Console? && FirstMatch(OpenRoutes, t.route, verb, path)
    ensures GatewayRoute(verb, path).None? && NoOpenMatch(OpenRoutes, verb, path) && !NoGuardedMatch(GuardedEndpoints, verb, path) ==>
      t.Console? && exists e :: FirstGuarded(GuardedEndpoints, e, verb, path) && t.route == Guarded(e)
  {
    DispatchIn(OpenRoutes, GuardedEndpoints, verb, path)
  }

  /** The login route matches nothing but POST on a path that reads
      `/ajax/login` once normalised. */
  lemma LoginRouteOnly(verb: string, path: string)
    requires RouteMatches(LoginRoute, verb, path)
    ensures verb == "POST" && Normalised(path) == "/ajax/login"
  {
    var p := Normalised(path);
    var segs := PathSegments(p);
    assert SegmentsMatch(["ajax", "login"], segs);
    assert segs == ["ajax", "login"];
    TwoSegmentPath(p, "ajax", "login");
  }

  /** A path of two segments is those segments behind slashes. */
  lemma TwoSegmentPath(p: string, a: string, b: string)
    requires |p| > 0 && p[0] == '/' && PathSegments(p) == [a, b]
    ensures p == "/" + a + "/" + b
  {
    PathOfSegments(p);
    JoinOfPair(a, b, '/');
  }

  /** A path is its segments joined back behind the leading `/`. */
  lemma PathOfSegments(p: string)
    requires |p| > 0 && p[0] == '/'
    ensures p == "/" + Join(PathSegments(p), '/')
  {
    JoinSplit(p[1..], '/');
    assert p == [p[0]] + p[1..];
  }

  /** And it matches every such path, trailing slash and capitals
      included. */
  lemma LoginRouteMatches(path: string)
    requires |path| > 0 && path[0] == '/' && Normalised(path) == "/ajax/login"
    ensures RouteMatches(LoginRoute, "POST", path)
  {
    assert Normalised(path)[1..] == "ajax" + ['/'] + "login";
    SplitOfPair("ajax", '/', "login");
  }

  /** `POST /AJAX/Login/` reaches the login route. */
  lemma LoginRouteTakesVariants()
    ensures RouteMatches(LoginRoute, "POST", "/AJAX/Login/")
  {
    var path := "/AJAX/Login/";
    assert path[..|path| - 1] == "/AJAX/Login";
    assert Normalised(path) == "/ajax/login";
    LoginRouteMatches(path);
  }

  /** A request a console route accepts whose normalised path starts with
      `/ajax` passes `validateUser` first, unless it is the login route. */
  lemma AjaxRequestsGuarded(verb: string, path: string)
    requires Dispatch(verb, path).Console?
    requires |path| > 0 && PathSegments(Normalised(path))[0] == "ajax"
    ensures Dispatch(verb, path).route.guarded || (verb == "POST" && Normalised(path) == "/ajax/login")
  {
    var r := Dispatch(verb, path).route;
    if !r.guarded {
      LoginRouteOnly(verb, path);
    }
  }

  /** An open route that matches is taken before every guarded endpoint:
      such a request never passes `validateUser`. */
  lemma OpenRoutesFirst(verb: string, path: string, k: nat)
    requires k < |OpenRoutes| && RouteMatches(OpenRoutes[k], verb, path)
    ensures Dispatch(verb, path).Console? ==> !Dispatch(verb, path).route.guarded
    ensures GatewayRoute(verb, path).None? ==> Dispatch(verb, path).Console? && Dispatch(verb, path).route in OpenRoutes
  {
    var t := Dispatch(verb, path);
    if GatewayRoute(verb, path).None? {
      assert !NoOpenMatch(OpenRoutes, verb, path);
      var i :| 0 <= i < |OpenRoutes| && OpenRoutes[i] == t.route && RouteMatches(t.route, verb, path) &&
        forall j :: 0 <= j < i ==> !RouteMatches(OpenRoutes[j], verb, path);
    }
  }

  /** The path of `application.list`. */
  const ListPath := "/ajax/application/list"

  /** `/ajax/application/list` is already normalised. */
  lemma ListPathNormalised()
    ensures Normalised(ListPath) == ListPath
  {
    AsciiLowerOfLower(ListPath);
  }

  /** A path of three separator-free names has those names as its
      segments. */
  lemma ThreeSegmentsOf(a: string, b: string, c: string)
    requires '/' !in a && '/' !in b && '/' !in c
    ensures PathSegments("/" + a + "/" + b + "/" + c) == [a, b, c]
  {
    var p := "/" + a + "/" + b + "/" + c;
    assert p[1..] == a + ['/'] + (b + ['/'] + c);
    SplitOfCons(a, '/', b + ['/'] + c);
    SplitOfPair(b, '/', c);
  }

  /** The segments of `/ajax/application/list` are the three names it
      spells. */
  lemma ListPathSegments()
    ensures PathSegments(ListPath) == ["ajax", "application", "list"]
  {
    assert ListPath == "/" + "ajax" + "/" + "application" + "/" + "list";
    ThreeSegmentsOf("ajax", "application", "list");
  }

  /** The gateway does not take `/ajax/application/list`. */
  lemma ListPathNotGateway()
    ensures GatewayRoute("GET", ListPath).None?
  {
    assert ListPath[..|GatewayPrefix|][2] != GatewayPrefix[2];
  }

  /** A path whose segments are `ajax`, `application`, `list`. */
  predicate IsListPath(path: string) {
    |path| > 0 && path[0] == '/' && Normalised(path) == path && PathSegments(path) == ["ajax", "application", "list"]
  }

  /** Which routes a GET on such a path matches: no open route, none of
      the first five guarded endpoints, and `application/list` (the
      sixth). */
  lemma ListPathMatches(path: string)
    requires IsListPath(path)
    ensures NoOpenMatch(OpenRoutes, "GET", path)
    ensures forall j :: 0 <= j < 5 ==> !RouteMatches(Guarded(GuardedEndpoints[j]), "GET", path)
    ensures RouteMatches(Guarded(GuardedEndpoints[5]), "GET", path)
    ensures Guarded(GuardedEndpoints[5]) == Route("GET", ["ajax", "application", "list"], "application.list", true)
  {
    ListPathMissesFirstFive(path);
    assert GuardedEndpoints[5] == Endpoint("GET", ["application", "list"], "application.list");
  }

  /** None of the first five guarded endpoints takes a GET on such a path:
      four have two segments and one is a POST. */
  lemma ListPathMissesFirstFive(path: string)
    requires IsListPath(path)
    ensures forall j :: 0 <= j < 5 ==> !RouteMatches(Guarded(GuardedEndpoints[j]), "GET", path)
  {
    var first := GuardedEndpoints[..5];
    assert first == [
      Endpoint("GET", ["account"], "user.my_account"),
      Endpoint("DELETE", ["session"], "user.logout"),
      Endpoint("POST", ["user", "profile"], "user.update"),
      Endpoint("GET", ["request_log"], "log.request_log"),
      Endpoint("GET", ["statistics"], "statistics.index")
    ];
    forall j | 0 <= j < 5
      ensures !RouteMatches(Guarded(first[j]), "GET", path)
    {
      assert |first[j].segments| == 1 || first[j].verb != "GET";
    }
  }

  /** `/ajax/application/list` is such a path. */
  lemma ListPathIsListPath()
    ensures IsListPath(ListPath)
  {
    ListPathNormalised();
    ListPathSegments();
  }

  /** The guarded endpoint found is the one at `k` when it matches and no
      earlier one does. */
  lemma LookupGuardedAt(es: seq<Endpoint>, k: nat, verb: string, path: string)
    requires k < |es| && RouteMatches(Guarded(es[k]), verb, path)
    requires forall j :: 0 <= j < k ==> !RouteMatches(Guarded(es[j]), verb, path)
    ensures LookupGuarded(es, verb, path) == Some(es[k])
  {
    var r := LookupGuarded(es, verb, path);
    var i :| 0 <= i < |es| && es[i] == r.value && RouteMatches(Guarded(r.value), verb, path) &&
      forall j :: 0 <= j < i ==> !RouteMatches(Guarded(es[j]), verb, path);
    assert i == k;
  }

  /** A request the gateway and the open routes do not take goes to the
      guarded endpoint at `k` when it matches and no earlier one does. */
  lemma DispatchInGuardedAt(open: seq<Route>, es: seq<Endpoint>, k: nat, verb: string, path: string)
    requires GatewayRoute(verb, path).None? && NoOpenMatch(open, verb, path)
    requires k < |es| && RouteMatches(Guarded(es[k]), verb, path)
    requires forall j :: 0 <= j < k ==> !RouteMatches(Guarded(es[j]), verb, path)
    ensures DispatchIn(open, es, verb, path) == Console(Guarded(es[k]))
  {
    LookupGuardedAt(es, k, verb, path);
  }

  /** A GET on such a path that the gateway does not take reaches
      `application.list`: the first guarded endpoint that matches. */
  lemma ListPathDispatch(path: string)
    requires IsListPath(path)
    requires GatewayRoute("GET", path).None?
    ensures Dispatch("GET", path) == Console(Route("GET", ["ajax", "application", "list"], "application.list", true))
  {
    ListPathMatches(path);
    DispatchInGuardedAt(OpenRoutes, GuardedEndpoints, 5, "GET", path);
  }

  /** `application/:id` matches such a path too. */
  lemma ListPathMatchesShow(path: string)
    requires IsListPath(path)
    ensures RouteMatches(Route("GET", ["ajax", "application", ":id"], "application.show", true), "GET", path)
    ensures Route("GET", ["ajax", "application", ":id"], "application.show", true) == Guarded(GuardedEndpoints[17])
  {
  }

  /** `GET /ajax/application/list` reaches `application.list`, the sixth
      guarded endpoint. */
  lemma ApplicationListWins()
    ensures Dispatch("GET", ListPath) == Console(Route("GET", ["ajax", "application", "list"], "application.list", true))
  {
    ListPathIsListPath();
    ListPathNotGateway();
    ListPathDispatch(ListPath);
  }

  /** The later `application/:id` route matches that request too, so it is
      registration order that sends it to `application.list` rather than
      `application.show`. */
  lemma ShowRouteAlsoMatches()
    ensures RouteMatches(Route("GET", ["ajax", "application", ":id"], "application.show", true), "GET", ListPath)
    ensures Route("GET", ["ajax", "application", ":id"], "application.show", true) == Guarded(GuardedEndpoints[17])
  {
    ListPathIsListPath();
    ListPathMatchesShow(ListPath);
  }

  /** The two index pages need no session. */
  lemma IndexPagesOpen(path: string)
    requires path == "/" || path == "/console"
    ensures Dispatch("GET", path) == Console(Route("GET", PathSegments(path), "common.index", false))
  {
    assert GatewayRoute("GET", path).None? by {
      if path == "/console" {
        assert path[..|GatewayPrefix|][1] != GatewayPrefix[1];
      }
    }
    if path == "/" {
      RootPageRoute();
    } else {
      ConsolePageRoute();
    }
  }

  lemma RootPageRoute()
    ensures PathSegments("/") == [""]
    ensures Lookup(OpenRoutes, "GET", "/") == Some(OpenRoutes[0])
  {
    assert PathSegments("/") == [""];
    assert RouteMatches(OpenRoutes[0], "GET", "/");
  }

  lemma ConsolePageRoute()
    ensures PathSegments("/console") == ["console"]
    ensures Lookup(OpenRoutes, "GET", "/console") == Some(OpenRoutes[1])
  {
    var path := "/console";
    assert Normalised(path) == path by {
      AsciiLowerOfLower(path);
    }
    assert path[1..] == "console";
    SplitWithoutSeparator("console", '/');
    assert PathSegments(path) == ["console"];
    assert OpenRoutes[0].segments == [""] && |PathSegments(path)[0]| == 7;
    assert !RouteMatches(OpenRoutes[0], "GET", path);
    assert RouteMatches(OpenRoutes[1], "GET", path);
    assert OpenRoutes[1..][0] == OpenRoutes[1];
  }
}
