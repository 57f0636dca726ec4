/** The response helpers (app/extend/helper.js): `{code: 200, data, msg}`
    and `{code, msg}`, both answered with HTTP 200. */
module Helper {
  import opened Json
  import opened Envelope
  import opened HttpContext
  import BaseController

  const DefaultSuccessMessage := "Success"
  const DefaultFailedMessage := "Failed"
  const DefaultFailedCode := 1000

  function SuccessBody(res: Value, msg: string): (b: Body)
    ensures b.Keys == {"code", "data", "msg"}
    ensures b["code"] == Num(200) && b["data"] == res && b["msg"] == Str(msg)
  {
    map["code" := Num(200), "data" := res, "msg" := Str(msg)]
  }

  function FailedBody(msg: string, code: int): (b: Body)
    ensures b.Keys == {"code", "msg"}
    ensures b["code"] == Num(code) && b["msg"] == Str(msg)
  {
    map["code" := Num(code), "msg" := Str(msg)]
  }

  /** The helpers name the message `msg` where the base controller says
      `message`, so the two bodies never coincide. */
  lemma HelperDiffersFromBase(res: Value, msg: string, code: int)
    ensures SuccessBody(res, msg) != BaseController.SuccessBody(res, msg)
    ensures FailedBody(msg, code) != BaseController.FailedBody(msg, code)
  {
    assert "msg" in SuccessBody(res, msg) && "msg" !in BaseController.SuccessBody(res, msg);
    assert "msg" in FailedBody(msg, code) && "msg" !in BaseController.FailedBody(msg, code);
  }

  /** `success(ctx, res = null, msg = 'Success')`: HTTP 200 whatever the
      code. */
  method Success(ctx: Context, res: Value, msg: string)
    modifies ctx
    ensures ctx.Snapshot() == old(ctx.Snapshot()).(body := Fields(SuccessBody(res, msg)), status := 200)
  {
    ctx.SetBody(Fields(SuccessBody(res, msg)));
    ctx.SetStatus(200);
  }

  /** `failed(ctx, msg = 'Failed', code = 1000)`: HTTP 200 whatever the
      code. */
  method Failed(ctx: Context, msg: string, code: int)
    modifies ctx
    ensures ctx.Snapshot() == old(ctx.Snapshot()).(body := Fields(FailedBody(msg, code)), status := 200)
  {
    ctx.SetBody(Fields(FailedBody(msg, code)));
    ctx.SetStatus(200);
  }
}
