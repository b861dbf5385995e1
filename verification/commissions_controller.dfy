/** `CommissionsController` (route `/api/v1/rg-commissions`): the guarded
    two-leg handler whose callback answers 204 only when the service
    returns `None`, and never echoes the processed data. */
module CommissionsController {
  import opened PyJson
  import opened Http
  import ReportController

  const FailText: string := "Falha ao iniciar a requisição de relatório de Comissões."
  const NoDataText: string := "Não foram encontrados dados para o relatório de Comissões."
  const Generated: Reply := Reply(OK, Message("Relatório de Comissões gerado."))

  function WebhookLeg(data: Json, process: Json -> Eval<Json>): Leg {
    match ReportController.ExtractCsvUrl(data)
    case Raised => Leg(Raised, [])
    case Ok(url) =>
      if !Truthy(url) then Leg(Ok(UrlNotFound), [])
      else
        match process(url)
        case Raised => Leg(Raised, [Process(url)])
        case Ok(d) => Leg(Ok(if d.Null? then Reply(NO_CONTENT, Message(NoDataText)) else Generated), [Process(url)])
  }

  /** `handler`, with `report` the outcome of `get_commissions_report` and
      `process` that of `process_csv_from_url`.  An empty but non-`None`
      result (an empty table) is still a 200. */
  function Handle(req: Request, report: Eval<Json>, process: Json -> Eval<Json>): (h: Handled)
    ensures HandlerStatus(h.reply.status)
    ensures TakesTriggerLeg(req) ==> h.calls == [Trigger]
    ensures TakesTriggerLeg(req) ==>
      h.reply == (if report.Raised? then InternalError
                  else if Truthy(report.value) then Accepted
                  else Reply(INTERNAL_SERVER_ERROR, Error(FailText)))
    ensures ProcessedUrl(h.calls) == MemberUrl(SilentJson(req), "response")
    ensures var u := MemberUrl(SilentJson(req), "response");
      u.Some? ==>
        h.reply == (match process(u.value)
                    case Raised => InternalError
                    case Ok(d) => if d.Null? then Reply(NO_CONTENT, Message(NoDataText)) else Generated)
    ensures h.reply.status == OK ==> h.reply == Generated
    ensures h.reply.status == BAD_REQUEST <==>
      MemberObject(SilentJson(req), "response").Some? && MemberUrl(SilentJson(req), "response").None?
  {
    var leg := GuardedDispatch(req, d => WebhookLeg(d, process), TriggerLeg(Service(Some(report), process), FailText));
    Catch(leg, InternalError)
  }
}
