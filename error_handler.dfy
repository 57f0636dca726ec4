/** The console's error middleware (app/middleware/errorHandler.js): an
    error thrown by a handler becomes a `{code, message}` body answered with
    HTTP 200; in production the message of a 500 is hidden, and a
    validation error (422) lists its failing fields. */
module ErrorHandler {
  import opened Common
  import opened Text
  import opened Json
  import opened Envelope
  import opened HttpContext

  /** One entry of a validation error's `errors` list. */
  datatype FieldError = FieldError(field: string, message: string)

  /** A thrown error: its `status` (absent on a plain `Error`), its
      `message`, and for a validation error the failing fields. */
  datatype Thrown = Thrown(status: Option<int>, message: string, errors: seq<FieldError>)

  const HiddenMessage := "Internal Server Error"
  const ProductionEnv := "prod"

  /** The error a service or a `ctx.throw` raises. */
  function FromService(e: ServiceError): Thrown {
    Thrown(Some(e.status), e.message, [])
  }

  /** `err.status || 500`: a missing or zero status is a 500. */
  function StatusOf(err: Thrown): (status: int)
    ensures err.status.Some? && err.status.value != 0 ==> status == err.status.value
    ensures err.status.None? || err.status.value == 0 ==> status == 500
  {
    if err.status.Some? && err.status.value != 0 then err.status.value else 500
  }

  /** `${field} ${message}` for one failing field. */
  function Entry(e: FieldError): string {
    e.field + " " + e.message
  }

  /** `errors.map(entry).join(',')`. */
  function Details(errors: seq<FieldError>): (s: string)
    ensures |errors| == 1 ==> s == Entry(errors[0])
    decreases |errors|
  {
    if |errors| == 0 then ""
    else if |errors| == 1 then Entry(errors[0])
    else Entry(errors[0]) + "," + Details(errors[1..])
  }

  /** The details of a longer list are the first entry, a comma, and the
      details of the rest. */
  lemma DetailsOfCons(e: FieldError, rest: seq<FieldError>)
    requires |rest| >= 1
    ensures Details([e] + rest) == Entry(e) + "," + Details(rest)
  {
    assert ([e] + rest)[1..] == rest;
  }

  /** The message the middleware answers with. */
  function ErrorMessage(err: Thrown, env: string): (m: string)
    ensures StatusOf(err) == 500 && env == ProductionEnv ==> m == HiddenMessage
    ensures StatusOf(err) == 422 ==> m == err.message + " ERR:" + Details(err.errors)
    ensures StatusOf(err) != 500 && StatusOf(err) != 422 ==> m == err.message
    ensures StatusOf(err) == 500 && env != ProductionEnv ==> m == err.message
  {
    var status := StatusOf(err);
    var base := if status == 500 && env == ProductionEnv then HiddenMessage else err.message;
    if status == 422 then base + " ERR:" + Details(err.errors) else base
  }

  function ErrorBody(err: Thrown, env: string): (b: Body)
    ensures b.Keys == {"code", "message"}
    ensures b["code"] == Num(StatusOf(err)) && b["message"] == Str(ErrorMessage(err, env))
  {
    map["code" := Num(StatusOf(err)), "message" := Str(ErrorMessage(err, env))]
  }

  /** Outside production the thrown message is always passed on, at the
      head of the answered message. */
  lemma MessageKeptOutsideProduction(err: Thrown, env: string)
    requires env != ProductionEnv
    ensures var m := ErrorMessage(err, env);
      |err.message| <= |m| && m[..|err.message|] == err.message
  {
  }

  /** In production only a 500's message is withheld. */
  lemma OnlyServerErrorsHidden(e1: Thrown, e2: Thrown)
    requires StatusOf(e1) == 500 && StatusOf(e2) == 500
    ensures ErrorBody(e1, ProductionEnv) == ErrorBody(e2, ProductionEnv)
  {
  }

  /** The middleware: the error's body, and HTTP 200 whatever the error. */
  method HandleError(ctx: Context, err: Thrown, env: string)
    modifies ctx
    ensures ctx.Snapshot() == old(ctx.Snapshot()).(body := Fields(ErrorBody(err, env)), status := 200)
  {
    ctx.SetBody(Fields(ErrorBody(err, env)));
    ctx.SetStatus(200);
  }

  /** A handler's outcome through the middleware: a thrown error replaces
      whatever body the handler had set; otherwise the context is left as
      the handler left it. */
  method Run(ctx: Context, thrown: Option<Thrown>, env: string)
    modifies ctx
    ensures thrown.None? ==> ctx.Snapshot() == old(ctx.Snapshot())
    ensures thrown.Some? ==> ctx.body == Fields(ErrorBody(thrown.value, env)) && ctx.status == 200
  {
    if thrown.Some? {
      HandleError(ctx, thrown.value, env);
    }
  }
}
