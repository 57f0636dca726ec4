/** The console controllers' base class (app/controller/base.js): the
    `{code, message, data}` success body, the `{code, message}` failure
    body, and `notFound`. */
module BaseController {
  import opened Common
  import opened Json
  import opened Envelope
  import opened HttpContext

  const DefaultSuccessMessage := "Success"
  const DefaultFailedMessage := "Failed"
  const DefaultFailedCode := 1000
  const DefaultNotFoundMessage := "not found"

  /** `success(data, message)`: the code is always 200. */
  function SuccessBody(data: Value, message: string): (b: Body)
    ensures b.Keys == {"code", "message", "data"}
    ensures b["code"] == Num(200) && b["message"] == Str(message) && b["data"] == data
  {
    map["code" := Num(200), "message" := Str(message), "data" := data]
  }

  /** `failed(message, code)`: no data key. */
  function FailedBody(message: string, code: int): (b: Body)
    ensures b.Keys == {"code", "message"}
    ensures b["code"] == Num(code) && b["message"] == Str(message)
  {
    map["code" := Num(code), "message" := Str(message)]
  }

  /** A failure body never has the shape of a success body, and with its
      default code it never carries the success code. */
  lemma FailedIsNotSuccess(data: Value, message: string, failure: string, code: int)
    ensures FailedBody(failure, code) != SuccessBody(data, message)
    ensures "data" !in FailedBody(failure, code)
    ensures FailedBody(failure, DefaultFailedCode)["code"] != SuccessBody(data, message)["code"]
  {
    assert "data" in SuccessBody(data, message);
  }

  method Success(ctx: Context, data: Value, message: string)
    modifies ctx
    ensures ctx.body == Fields(SuccessBody(data, message))
    ensures ctx.Snapshot() == old(ctx.Snapshot()).(body := ctx.body, status := ctx.status)
    ensures ctx.status == if old(ctx.status) == 404 then 200 else old(ctx.status)
  {
    ctx.SetBody(Fields(SuccessBody(data, message)));
  }

  method Failed(ctx: Context, message: string, code: int)
    modifies ctx
    ensures ctx.body == Fields(FailedBody(message, code))
    ensures ctx.Snapshot() == old(ctx.Snapshot()).(body := ctx.body, status := ctx.status)
    ensures ctx.status == if old(ctx.status) == 404 then 200 else old(ctx.status)
  {
    ctx.SetBody(Fields(FailedBody(message, code)));
  }

  /** `notFound(msg)`: the error it throws, 404 with `msg || 'not found'`. */
  function NotFound(msg: string): (e: ServiceError)
    ensures e.status == 404
    ensures msg != "" ==> e.message == msg
    ensures msg == "" ==> e.message == DefaultNotFoundMessage
  {
    ServiceError(404, if msg != "" then msg else DefaultNotFoundMessage)
  }
}
