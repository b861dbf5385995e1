/** `CustodyController` (route `/api/v1/custody`): the guarded two-leg
    handler whose callback reads `response.url`, then `result.url`, and
    runs the daily expiration check inside a `try` of its own. */
module CustodyController {
  import opened PyJson
  import opened Http

  const FailText: string := "Falha ao iniciar a requisição de relatório de Custódia."
  const Processed: Reply := Reply(OK, Message("Relatório processado e e-mails enviados."))
  const CheckFailed: Reply :=
    Reply(INTERNAL_SERVER_ERROR, Error("Erro ao processar o relatório de Custódia ou enviar e-mails."))

  /** `_extract_csv_url`: `data.get("response", {}).get("url", "") or
      data.get("result", {}).get("url", "")`.  The second lookup runs only
      when the first yields a falsy value. */
  function ExtractCsvUrl(data: Json): Eval<Json> {
    if !data.Obj? then Raised
    else
      var first :- Get(GetOr(data.fields, "response", EmptyObj), "url", Str(""));
      if Truthy(first) then Ok(first)
      else Get(GetOr(data.fields, "result", EmptyObj), "url", Str(""))
  }

  /** Reference: the URL a callback body hands to the expiration check —
      `response.url` when truthy, else `result.url` when truthy.  Both
      members must be dicts wherever they are read. */
  function CallbackUrl(data: Json): Option<Json> {
    if MemberUrl(data, "response").Some? then MemberUrl(data, "response")
    else if MemberObject(data, "response").Some? then MemberUrl(data, "result")
    else None
  }

  /** `_process_webhook`; `check` is the outcome of
      `execute_daily_expiration_check(url)`, caught by its own `try`. */
  function WebhookLeg(data: Json, check: Json -> Eval<Json>): Leg {
    match ExtractCsvUrl(data)
    case Raised => Leg(Raised, [])
    case Ok(url) =>
      if !Truthy(url) then Leg(Ok(UrlNotFound), [])
      else Leg(Ok(if check(url).Ok? then Processed else CheckFailed), [Process(url)])
  }

  /** `handler`, with `custody` the outcome of `get_custody`.  A body that
      carries only `result` is a trigger, since dispatch looks for the
      `"response"` key; the callback never answers 204. */
  function Handle(req: Request, custody: Eval<Json>, check: Json -> Eval<Json>): (h: Handled)
    ensures HandlerStatus(h.reply.status) && h.reply.status != NO_CONTENT
    ensures SilentJson(req).Obj? && "response" !in SilentJson(req).fields ==> h.calls == [Trigger]
    ensures TakesTriggerLeg(req) ==> h.calls == [Trigger]
    ensures TakesTriggerLeg(req) ==>
      h.reply == (if custody.Raised? then InternalError
                  else if Truthy(custody.value) then Accepted
                  else Reply(INTERNAL_SERVER_ERROR, Error(FailText)))
    ensures ProcessedUrl(h.calls) == CallbackUrl(SilentJson(req))
    ensures CallbackUrl(SilentJson(req)).Some? ==>
      h.reply == (if check(CallbackUrl(SilentJson(req)).value).Ok? then Processed else CheckFailed)
    ensures h.reply.status == OK ==> h.reply == Processed
    ensures var d := SilentJson(req);
      h.reply.status == BAD_REQUEST <==>
        MemberObject(d, "response").Some? && CallbackUrl(d).None?
        && ("result" !in d.fields || d.fields["result"].Obj?)
  {
    var leg := GuardedDispatch(req, d => WebhookLeg(d, check), TriggerLeg(Service(Some(custody), check), FailText));
    Catch(leg, InternalError)
  }
}
