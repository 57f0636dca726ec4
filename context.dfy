/** The request context the console side works on (Koa's `ctx`): the
    status and body a handler sets, a redirect, the session's user id, the
    cookies, and the user `validateUser` leaves in `ctx._g`. */
module HttpContext {
  import opened Common
  import opened Json
  import opened UserModel
  import opened Envelope

  /** A response body: none yet, plain text, or a JSON object. */
  datatype Payload = NoBody | Text(text: string) | Fields(fields: Body)

  /** Everything a context holds, as one value. */
  datatype State = State(
    status: int,
    body: Payload,
    location: Option<string>,
    session: Option<nat>,
    cookies: map<string, string>,
    current: Option<User>)

  class Context {
    var status: int
    var body: Payload
    var location: Option<string>
    var session: Option<nat>
    var cookies: map<string, string>
    var current: Option<User>

    /** A fresh context for a request carrying this session and these
        cookies; Koa's status before any body is set is 404. */
    constructor (session: Option<nat>, cookies: map<string, string>)
      ensures Snapshot() == State(404, NoBody, None, session, cookies, None)
    {
      this.status := 404;
      this.body := NoBody;
      this.location := None;
      this.session := session;
      this.cookies := cookies;
      this.current := None;
    }

    function Snapshot(): State
      reads this
    {
      State(status, body, location, session, cookies, current)
    }

    /** `ctx.body = body`; Koa then answers 200 unless a status was set. */
    method SetBody(body: Payload)
      modifies this
      ensures Snapshot() == old(Snapshot()).(body := body, status := if old(status) == 404 then 200 else old(status))
    {
      this.body := body;
      if status == 404 {
        status := 200;
      }
    }

    /** `ctx.status = status`. */
    method SetStatus(status: int)
      modifies this
      ensures Snapshot() == old(Snapshot()).(status := status)
    {
      this.status := status;
    }
  }
}
