/** The gateway's HTTP controller (app/controller/api/http.js): its four
    verb handlers, each answering with the interface's success envelope, and
    its own `success` builder. The matched application and interface are
    those the gateway left in `ctx._g`. */
module HttpController {
  import opened Json
  import opened ApplicationModel
  import opened InterfaceModel
  import opened Envelope
  import opened HttpContext
  import InterfaceService

  /** `get`, `post`, `put` and `delete`: the body is `processResponse(app,
      api)` whichever the method. */
  method Handle(ctx: Context, verb: string, app: Application, api: Interface, gen: Value -> Value)
    requires MethodOk(verb)
    modifies ctx
    ensures ctx.body == Fields(InterfaceService.ProcessResponse(app, api, gen))
    ensures ctx.Snapshot() == old(ctx.Snapshot()).(body := ctx.body, status := ctx.status)
  {
    ctx.SetBody(Fields(InterfaceService.ProcessResponse(app, api, gen)));
  }

  /** `success(data)`: the envelope of the application's template, with the
      data only when it is truthy. */
  method Success(ctx: Context, app: Application, data: Value)
    modifies ctx
    ensures ctx.body == Fields(HttpSuccess(TemplateOf(app), data))
    ensures ctx.Snapshot() == old(ctx.Snapshot()).(body := ctx.body, status := ctx.status)
  {
    ctx.SetBody(Fields(HttpSuccess(TemplateOf(app), data)));
  }

  /** For truthy generated data the controller's own builder gives the very
      body the handlers set; for falsy data such as 0 it drops the data the
      handlers keep. */
  lemma SuccessMatchesHandlers(app: Application, api: Interface, gen: Value -> Value)
    requires TemplateOf(app).data_name != ""
    ensures Truthy(gen(api.response_rules)) ==>
      HttpSuccess(TemplateOf(app), gen(api.response_rules)) == InterfaceService.ProcessResponse(app, api, gen)
  {
    SucceedBuildersDiffer(TemplateOf(app), gen(api.response_rules));
  }
}
