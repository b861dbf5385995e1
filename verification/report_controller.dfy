/** The standard two-leg report handler (`AbstractReportController` and
    the controllers written in its image: pre-operations, CRA/CRI and
    credit card).  One POST route serves both legs: a request that is not a
    callback asks the upstream for the report (the trigger leg); a callback
    carries `response.url`, which is handed to the report's service. */
module ReportController {
  import opened PyJson
  import opened Http

  /** The texts that tell one standard controller from another. */
  datatype Texts = Texts(triggerFailed: string, noData: string)

  /** Texts of a subclass of the abstract controller, built from its
      `report_name`. */
  function ManagementTexts(reportName: string): Texts {
    Texts("Falha ao iniciar a requisição de relatório gerencial " + reportName + ".",
          "Não foram encontrados dados para o relatório " + reportName + ".")
  }

  /** `_extract_csv_url`: `data.get("response", {}).get("url", "")`.
      It raises when the body or its `response` member is not a dict. */
  function ExtractCsvUrl(data: Json): (r: Eval<Json>)
    ensures r.Raised? <==> !data.Obj? || ("response" in data.fields && !data.fields["response"].Obj?)
    ensures r.Ok? && Truthy(r.value) <==> MemberUrl(data, "response").Some?
    ensures MemberUrl(data, "response").Some? ==> r == Ok(MemberUrl(data, "response").value)
  {
    var response :- Get(data, "response", EmptyObj);
    Get(response, "url", Str(""))
  }

  /** The callback leg, `_process_webhook`. */
  function WebhookLeg(texts: Texts, data: Json, s: Service): Leg {
    match ExtractCsvUrl(data)
    case Raised => Leg(Raised, [])
    case Ok(url) =>
      if !Truthy(url) then Leg(Ok(UrlNotFound), [])
      else
        match s.process(url)
        case Raised => Leg(Raised, [Process(url)])
        case Ok(d) =>
          Leg(Ok(if Truthy(d) then Reply(OK, d) else Reply(NO_CONTENT, Message(texts.noData))), [Process(url)])
  }

  /** The body of `handler`'s `try` block. */
  function Dispatch(texts: Texts, req: Request, s: Service): Leg {
    GuardedDispatch(req, d => WebhookLeg(texts, d, s), TriggerLeg(s, texts.triggerFailed))
  }

  /** What a standard callback answers once the service has been handed
      `url`: the data itself when truthy, the no-data message otherwise,
      the generic 500 when the service raises. */
  function CallbackReply(texts: Texts, outcome: Eval<Json>): Reply {
    match outcome
    case Raised => InternalError
    case Ok(d) => if Truthy(d) then Reply(OK, d) else Reply(NO_CONTENT, Message(texts.noData))
  }

  /** `handler`.  The trigger leg is taken exactly for the bodies
      `TakesTriggerLeg` names; the service's `process_csv_from_url` is
      called exactly when the body is a dict whose `response` dict holds a
      truthy `url`, and with that URL; a dict `response` without one is a
      400; every exception becomes the generic 500. */
  function Handle(texts: Texts, req: Request, s: Service): (h: Handled)
    ensures HandlerStatus(h.reply.status)
    ensures |h.calls| <= 1
    ensures Trigger in h.calls ==> TakesTriggerLeg(req)
    ensures TakesTriggerLeg(req) ==> h.calls == (if s.trigger.Some? then [Trigger] else [])
    ensures TakesTriggerLeg(req) ==>
      h.reply == (if s.trigger.Some? && s.trigger.value.Ok? then
                    (if Truthy(s.trigger.value.value) then Accepted
                     else Reply(INTERNAL_SERVER_ERROR, Error(texts.triggerFailed)))
                  else InternalError)
    ensures ProcessedUrl(h.calls) == MemberUrl(SilentJson(req), "response")
    ensures MemberUrl(SilentJson(req), "response").Some? ==>
      h.reply == CallbackReply(texts, s.process(MemberUrl(SilentJson(req), "response").value))
    ensures h.reply.status == BAD_REQUEST <==>
      MemberObject(SilentJson(req), "response").Some? && MemberUrl(SilentJson(req), "response").None?
    ensures h.reply.status == BAD_REQUEST ==> h.reply == UrlNotFound && h.calls == []
    ensures !TakesTriggerLeg(req) && MemberObject(SilentJson(req), "response").None? ==> h == Handled(InternalError, [])
    ensures h.reply.status == ACCEPTED ==> TakesTriggerLeg(req)
  {
    Catch(Dispatch(texts, req, s), InternalError)
  }
}

/** `MonthlyTIRController`: the abstract controller with `report_name`
    "TIR mensal" and a `MonthlyTIRReportService`.  That service's trigger
    method is `get_monthly_tir_report`, while the abstract controller calls
    `generate_report`. */
module MonthlyTirController {
  import opened PyJson
  import opened Http
  import ReportController

  const TirTexts: ReportController.Texts := ReportController.ManagementTexts("TIR mensal")

  /** The handler as written: the service has no `generate_report`, so
      the trigger leg raises before any upstream call. */
  function HandleAsWritten(req: Request, process: Json -> Eval<Json>): (h: Handled)
    ensures TakesTriggerLeg(req) ==> h == Handled(InternalError, [])
  {
    ReportController.Handle(TirTexts, req, Service(None, process))
  }

  /** A plain POST (not JSON) to the TIR route never starts a report. */
  lemma TriggerAlwaysFailsAsWritten(process: Json -> Eval<Json>)
    ensures HandleAsWritten(Request(false, None), process).reply == InternalError
    ensures Trigger !in HandleAsWritten(Request(false, None), process).calls
  {
  }

  /** The handler with the trigger leg calling the service's
      `get_monthly_tir_report`, whose outcome is `report`. */
  function Handle(req: Request, report: Eval<Json>, process: Json -> Eval<Json>): (h: Handled)
    ensures TakesTriggerLeg(req) ==> h.calls == [Trigger]
    ensures TakesTriggerLeg(req) && report.Ok? && Truthy(report.value) ==> h.reply == Accepted
    ensures TakesTriggerLeg(req) && report.Ok? && !Truthy(report.value) ==>
      h.reply == Reply(INTERNAL_SERVER_ERROR,
                       Error("Falha ao iniciar a requisição de relatório gerencial TIR mensal."))
    ensures MemberUrl(SilentJson(req), "response").Some? ==>
      h.reply == ReportController.CallbackReply(TirTexts, process(MemberUrl(SilentJson(req), "response").value))
    ensures MemberUrl(SilentJson(req), "response").Some? && process(MemberUrl(SilentJson(req), "response").value) == Ok(Arr([])) ==>
      h.reply == Reply(NO_CONTENT, Message("Não foram encontrados dados para o relatório TIR mensal."))
  {
    assert TirTexts.triggerFailed == "Falha ao iniciar a requisição de relatório gerencial TIR mensal.";
    assert TirTexts.noData == "Não foram encontrados dados para o relatório TIR mensal.";
    ReportController.Handle(TirTexts, req, Service(Some(report), process))
  }
}
