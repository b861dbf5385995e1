/** The two fixed-income report controllers whose callback legs depart
    from the standard one. */

/** `FixedIncomeController` (route `/api/v1/rf-fixed-income`): the
    callback reads the top-level `url` first, then `response.url`, and
    catches a failing service with a message of its own. */
module FixedIncomeController {
  import opened PyJson
  import opened Http

  const FailText: string := "Falha ao iniciar a requisição de relatório RF por parceiro."
  const NoDataText: string := "Não foram encontrados dados para o relatório RF por parceiro."
  const ProcessingFailed: Reply := Reply(INTERNAL_SERVER_ERROR, Error("Erro ao processar CSV"))

  /** `_extract_csv_url`: top-level `url` if truthy, else `response.url`
      if truthy, else "".  The `response` lookup raises only when it is
      reached and is not a dict. */
  function ExtractCsvUrl(data: Json): Eval<Json> {
    if !data.Obj? then Raised
    else
      var top := GetOr(data.fields, "url", Null);
      if Truthy(top) then Ok(top)
      else
        var nested :- Get(GetOr(data.fields, "response", EmptyObj), "url", Null);
        Ok(if Truthy(nested) then nested else Str(""))
  }

  /** Reference: the URL a callback body hands to the service. */
  function CallbackUrl(data: Json): Option<Json> {
    if TopUrl(data).Some? then TopUrl(data) else MemberUrl(data, "response")
  }

  function WebhookLeg(data: Json, process: Json -> Eval<Json>): Leg {
    match ExtractCsvUrl(data)
    case Raised => Leg(Raised, [])
    case Ok(url) =>
      if !Truthy(url) then Leg(Ok(UrlNotFound), [])
      else
        var reply := match process(url)
          case Raised => ProcessingFailed
          case Ok(d) => if Truthy(d) then Reply(OK, d) else Reply(NO_CONTENT, Message(NoDataText));
        Leg(Ok(reply), [Process(url)])
  }

  /** `handler`, with `report` the outcome of `get_fixed_income_report`.
      A callback whose top-level `url` is truthy is served from it even
      when `response` is not a dict. */
  function Handle(req: Request, report: Eval<Json>, process: Json -> Eval<Json>): (h: Handled)
    ensures HandlerStatus(h.reply.status)
    ensures TakesTriggerLeg(req) ==> h.calls == [Trigger]
    ensures TakesTriggerLeg(req) ==>
      h.reply == (if report.Raised? then InternalError
                  else if Truthy(report.value) then Accepted
                  else Reply(INTERNAL_SERVER_ERROR, Error(FailText)))
    ensures ProcessedUrl(h.calls) == (if TakesTriggerLeg(req) then None else CallbackUrl(SilentJson(req)))
    ensures var u := CallbackUrl(SilentJson(req));
      !TakesTriggerLeg(req) && u.Some? ==>
      h.reply == (match process(u.value)
                  case Raised => ProcessingFailed
                  case Ok(d) => if Truthy(d) then Reply(OK, d) else Reply(NO_CONTENT, Message(NoDataText)))
    ensures var d := SilentJson(req);
      (!TakesTriggerLeg(req) && d.Obj? && TopUrl(d).None? && MemberObject(d, "response").Some?
       && MemberUrl(d, "response").None?) ==> h.reply == UrlNotFound
  {
    var leg := GuardedDispatch(req, d => WebhookLeg(d, process), TriggerLeg(Service(Some(report), process), FailText));
    Catch(leg, InternalError)
  }
}

/** `DebenturesController` (route `/api/v1/rf-debentures`): the callback
    reads the top-level `url` only.  It was written to accept list
    payloads, but it logs `data.values()` first, which raises on a list. */
module DebenturesController {
  import opened PyJson
  import opened Http

  const FailText: string := "Falha ao iniciar a requisição de relatório RF de Debentures."
  const NoDataText: string := "Não foram encontrados dados para o relatório RF de Debentures."
  const InvalidPayload: Reply := Reply(BAD_REQUEST, Error("Invalid payload"))

  /** `data.values()`: only a dict has it. */
  function Values(data: Json): Eval<Json> {
    if data.Obj? then Ok(data) else Raised
  }

  /** The tail of `_process_webhook` once a dict payload is in hand. */
  function ServeDict(data: Json, process: Json -> Eval<Json>): Leg
    requires data.Obj?
  {
    var url := if "url" in data.fields then data.fields["url"] else Str("");
    if !Truthy(url) then Leg(Ok(UrlNotFound), [])
    else
      match process(url)
      case Raised => Leg(Raised, [Process(url)])
      case Ok(d) =>
        Leg(Ok(if Truthy(d) then Reply(OK, d) else Reply(NO_CONTENT, Message(NoDataText))), [Process(url)])
  }

  /** `_process_webhook` as written: the `values()` call comes first. */
  function WebhookLegAsWritten(data: Json, process: Json -> Eval<Json>): Leg {
    match Values(data)
    case Raised => Leg(Raised, [])
    case Ok(_) => ServeDict(data, process)
  }

  /** `_process_webhook` without the `values()` log line: a one-element
      list is unwrapped to that element, a longer one to its second, and a
      payload that is then not a dict is a 400. */
  function WebhookLeg(data: Json, process: Json -> Eval<Json>): Leg {
    var payload: Eval<Json> :=
      if !data.Arr? then Ok(data)
      else if |data.items| == 1 then Ok(data.items[0])
      else if |data.items| >= 2 then Ok(data.items[1])
      else Raised;
    match payload
    case Raised => Leg(Raised, [])
    case Ok(p) => if p.Obj? then ServeDict(p, process) else Leg(Ok(InvalidPayload), [])
  }

  function Dispatch(req: Request, report: Eval<Json>, webhook: Json -> Leg, process: Json -> Eval<Json>): Leg {
    GuardedDispatch(req, webhook, TriggerLeg(Service(Some(report), process), FailText))
  }

  /** `handler` as written.  Every list body that reaches the callback
      leg ends in the generic 500, and a dict callback is served from its
      top-level `url` only: `{"response": {"url": u}}` alone is a 400. */
  function HandleAsWritten(req: Request, report: Eval<Json>, process: Json -> Eval<Json>): (h: Handled)
    ensures HandlerStatus(h.reply.status)
    ensures TakesTriggerLeg(req) ==> h.calls == [Trigger]
    ensures !TakesTriggerLeg(req) && SilentJson(req).Arr? ==> h == Handled(InternalError, [])
    ensures h.reply.status == BAD_REQUEST ==> h.reply == UrlNotFound
    ensures ProcessedUrl(h.calls) == (if TakesTriggerLeg(req) then None else TopUrl(SilentJson(req)))
    ensures !TakesTriggerLeg(req) && SilentJson(req).Obj? && TopUrl(SilentJson(req)).None? ==>
      h.reply == UrlNotFound
    ensures var u := TopUrl(SilentJson(req));
      !TakesTriggerLeg(req) && u.Some? && process(u.value).Ok? ==>
      h.reply == (if Truthy(process(u.value).value) then Reply(OK, process(u.value).value)
                  else Reply(NO_CONTENT, Message(NoDataText)))
  {
    Catch(Dispatch(req, report, d => WebhookLegAsWritten(d, process), process), InternalError)
  }

  /** The callback payload `["response", {"url": "u"}]` — a list the
      dispatch accepts — is refused as written, though the list branch
      exists to serve exactly it. */
  lemma ListPayloadRefusedAsWritten(report: Eval<Json>, process: Json -> Eval<Json>)
    ensures var body := Arr([Str("response"), Obj(map["url" := Str("u")])]);
      HandleAsWritten(Request(true, Some(body)), report, process) == Handled(InternalError, [])
  {
    var body := Arr([Str("response"), Obj(map["url" := Str("u")])]);
    assert Str("response") == body.items[0];
  }

  /** `handler` with the list handling reachable.  A list callback is
      served from its unwrapped element; a payload that unwraps to a
      non-dict is the 400 "Invalid payload". */
  function Handle(req: Request, report: Eval<Json>, process: Json -> Eval<Json>): (h: Handled)
    ensures HandlerStatus(h.reply.status)
    ensures TakesTriggerLeg(req) ==> h.calls == [Trigger]
    ensures var d := SilentJson(req);
      !TakesTriggerLeg(req) && d.Arr? && |d.items| >= 2 && TopUrl(d.items[1]).Some? ==>
        ProcessedUrl(h.calls) == TopUrl(d.items[1])
    ensures var d := SilentJson(req);
      !TakesTriggerLeg(req) && d.Arr? && |d.items| == 1 ==> h.reply == InvalidPayload
    ensures var d := SilentJson(req);
      !TakesTriggerLeg(req) && d.Str? ==> h == Handled(InvalidPayload, [])
    ensures !TakesTriggerLeg(req) && SilentJson(req).Obj? ==>
      h == HandleAsWritten(req, report, process)
  {
    Catch(Dispatch(req, report, d => WebhookLeg(d, process), process), InternalError)
  }

  lemma ListPayloadServed(report: Eval<Json>, process: Json -> Eval<Json>)
    ensures var body := Arr([Str("response"), Obj(map["url" := Str("u")])]);
      ProcessedUrl(Handle(Request(true, Some(body)), report, process).calls) == Some(Str("u"))
  {
    var body := Arr([Str("response"), Obj(map["url" := Str("u")])]);
    assert Str("response") == body.items[0];
  }
}
