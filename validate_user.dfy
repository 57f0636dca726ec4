/** The console's login guard (app/middleware/validateUser.js): the
    session's user id must equal the signed `v_token` cookie and name an
    active user; otherwise the session is dropped and the client gets a 401
    body or a redirect to the login page. */
module ValidateUser {
  import opened Common
  import opened Text
  import opened Json
  import opened UserModel
  import opened Envelope
  import opened Store
  import opened HttpContext
  import UserService

  const SessionErrorMessage := "登录信息异常或失效，请重新登录"
  const SessionErrorCode := 401
  const SessionCookie := "Vir_SESSION"
  const TokenCookie := "v_token"
  const LoginPage := "/login?err_msg="

  /** `ctx.get(name)` on the request headers: absent is empty. */
  function HeaderOf(headers: map<string, string>, name: string): string {
    if name in headers then headers[name] else ""
  }

  /** `_expectsJson`: an XMLHttpRequest, a pjax request, or an `accept`
      header naming a JSON type after its first character. */
  predicate ExpectsJson(headers: map<string, string>) {
    || HeaderOf(headers, "x-requested-with") == "XMLHttpRequest"
    || HeaderOf(headers, "x-pjax") != ""
    || IndexOfSub(HeaderOf(headers, "accept"), "/json") > 0
  }

  /** The context after `_responseErr(code, message)`: on a 401 the session
      and both login cookies are cleared; a JSON client gets `{code,
      message}`, any other one a redirect to the login page carrying the
      encoded message. */
  function Rejected(s: State, headers: map<string, string>, code: int, message: string,
                    encodeUri: string -> string): (r: State)
    ensures code == SessionErrorCode ==> r.session.None? && SessionCookie !in r.cookies && TokenCookie !in r.cookies
    ensures code != SessionErrorCode ==> r.session == s.session && r.cookies == s.cookies
    ensures ExpectsJson(headers) ==>
      r.body == Fields(map["code" := Num(code), "message" := Str(message)]) && r.location == s.location
    ensures !ExpectsJson(headers) ==>
      r.location == Some(LoginPage + encodeUri(message)) && r.status == 302 && r.body == s.body
    ensures r.current == s.current
  {
    var cleared :=
      if code == SessionErrorCode then s.(session := None, cookies := s.cookies - {SessionCookie, TokenCookie})
      else s;
    if ExpectsJson(headers) then
      cleared.(body := Fields(map["code" := Num(code), "message" := Str(message)]),
               status := if s.status == 404 then 200 else s.status)
    else
      cleared.(location := Some(LoginPage + encodeUri(message)), status := 302)
  }

  method ResponseErr(ctx: Context, headers: map<string, string>, code: int, message: string,
                     encodeUri: string -> string)
    modifies ctx
    ensures ctx.Snapshot() == Rejected(old(ctx.Snapshot()), headers, code, message, encodeUri)
  {
    if code == SessionErrorCode {
      ctx.session := None;
      ctx.cookies := ctx.cookies - {SessionCookie, TokenCookie};
    }
    if ExpectsJson(headers) {
      ctx.SetBody(Fields(map["code" := Num(code), "message" := Str(message)]));
    } else {
      ctx.location := Some(LoginPage + encodeUri(message));
      ctx.SetStatus(302);
    }
  }

  /** The session names a user and the signed cookie names the same one. */
  predicate SessionMatches(session: Option<nat>, token: Option<nat>) {
    session.Some? && session == token
  }

  /** The session's user exists and is active. */
  predicate UserActive(users: seq<User>, id: nat) {
    var u := UserService.FindById(users, id);
    u.Some? && u.value.status == 1
  }

  /** The guard: `proceed` exactly when the session matches the cookie and
      names an active user, who is then left in the context; otherwise the
      401 rejection. `token` is the signed cookie as decrypted. */
  method Validate(ctx: Context, db: Database, headers: map<string, string>, token: Option<nat>,
                  encodeUri: string -> string)
    returns (proceed: bool)
    modifies ctx
    ensures proceed <==> SessionMatches(old(ctx.session), token) && UserActive(db.users, old(ctx.session).value)
    ensures proceed ==>
      ctx.Snapshot() == old(ctx.Snapshot()).(current := UserService.FindById(db.users, old(ctx.session).value))
    ensures !proceed ==>
      ctx.Snapshot() == Rejected(old(ctx.Snapshot()), headers, SessionErrorCode, SessionErrorMessage, encodeUri)
  {
    if !SessionMatches(ctx.session, token) {
      ResponseErr(ctx, headers, SessionErrorCode, SessionErrorMessage, encodeUri);
      return false;
    }
    var userInfo := UserService.FindById(db.users, ctx.session.value);
    if userInfo.None? || userInfo.value.status != 1 {
      ResponseErr(ctx, headers, SessionErrorCode, SessionErrorMessage, encodeUri);
      return false;
    }
    ctx.current := userInfo;
    proceed := true;
  }

  /** A request the guard lets through carries an active user, and one it
      turns away loses its session. */
  lemma GuardOutcomes(s: State, users: seq<User>, headers: map<string, string>, token: Option<nat>,
                      encodeUri: string -> string)
    ensures SessionMatches(s.session, token) && UserActive(users, s.session.value) ==>
      var u := UserService.FindById(users, s.session.value);
      u.Some? && u.value.status == 1 && u.value.id == s.session.value
    ensures Rejected(s, headers, SessionErrorCode, SessionErrorMessage, encodeUri).session.None?
  {
  }
}
