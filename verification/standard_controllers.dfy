/** Controllers that repeat `AbstractReportController`'s handler line for
    line and differ from it only in their texts and service. */

/** `PreOperationsController` (route `/api/v1/pre-operations`). */
module PreOperationsController {
  import opened PyJson
  import opened Http
  import ReportController

  const FailText: string := "Falha ao iniciar a requisição do relatório de todas Pré-Operações do parceiro"
  const NoDataText: string := "Não foram encontrados dados para o relatório de todas Pré-Operações do parceiro."

  /** `handler`, with `report` the outcome of `get_pre_operations_report`
      and `process` that of `process_csv_from_url`. */
  function Handle(req: Request, report: Eval<Json>, process: Json -> Eval<Json>): (h: Handled)
    ensures !req.isJson ==> h.calls == [Trigger]
    ensures TakesTriggerLeg(req) && report.Ok? && !Truthy(report.value) ==>
      h.reply == Reply(INTERNAL_SERVER_ERROR, Error(FailText))
    ensures TakesTriggerLeg(req) && report.Ok? && Truthy(report.value) ==> h.reply == Accepted
    ensures h.reply.status == BAD_REQUEST ==> h.calls == []
    ensures var u := MemberUrl(SilentJson(req), "response");
      u.Some? && process(u.value).Ok? ==>
        h.reply == (if Truthy(process(u.value).value) then Reply(OK, process(u.value).value)
                    else Reply(NO_CONTENT, Message(NoDataText)))
    ensures var u := MemberUrl(SilentJson(req), "response");
      u.Some? && process(u.value).Raised? ==> h.reply == InternalError
  {
    ReportController.Handle(ReportController.Texts(FailText, NoDataText), req, Service(Some(report), process))
  }
}

/** `CraCriController` (route `/api/v1/rf-cra-cri`). */
module CraCriController {
  import opened PyJson
  import opened Http
  import ReportController

  const FailText: string := "Falha ao iniciar a requisição de relatório RF de CRA-CRI."
  const NoDataText: string := "Não foram encontrados dados para o relatório RF de CRA-CRI."

  /** `handler`, with `report` the outcome of `get_cra_cri_report`. */
  function Handle(req: Request, report: Eval<Json>, process: Json -> Eval<Json>): (h: Handled)
    ensures !req.isJson ==> h.calls == [Trigger]
    ensures TakesTriggerLeg(req) && report.Ok? && !Truthy(report.value) ==>
      h.reply == Reply(INTERNAL_SERVER_ERROR, Error(FailText))
    ensures TakesTriggerLeg(req) && report.Ok? && Truthy(report.value) ==> h.reply == Accepted
    ensures h.reply.status == BAD_REQUEST ==> h.calls == []
    ensures var u := MemberUrl(SilentJson(req), "response");
      u.Some? && process(u.value).Ok? ==>
        h.reply == (if Truthy(process(u.value).value) then Reply(OK, process(u.value).value)
                    else Reply(NO_CONTENT, Message(NoDataText)))
    ensures var u := MemberUrl(SilentJson(req), "response");
      u.Some? && process(u.value).Raised? ==> h.reply == InternalError
  {
    ReportController.Handle(ReportController.Texts(FailText, NoDataText), req, Service(Some(report), process))
  }
}

/** `CreditCardController` (route `/api/v1/rg-credit-card`). */
module CreditCardController {
  import opened PyJson
  import opened Http
  import ReportController

  const FailText: string := "Falha ao iniciar a requisição de relatório gerencial Credit Card."
  const NoDataText: string := "Não foram encontrados dados para o relatório Credit Card."

  /** `handler`, with `report` the outcome of `get_credit_card_report`. */
  function Handle(req: Request, report: Eval<Json>, process: Json -> Eval<Json>): (h: Handled)
    ensures !req.isJson ==> h.calls == [Trigger]
    ensures TakesTriggerLeg(req) && report.Ok? && !Truthy(report.value) ==>
      h.reply == Reply(INTERNAL_SERVER_ERROR, Error(FailText))
    ensures TakesTriggerLeg(req) && report.Ok? && Truthy(report.value) ==> h.reply == Accepted
    ensures h.reply.status == BAD_REQUEST ==> h.calls == []
    ensures var u := MemberUrl(SilentJson(req), "response");
      u.Some? && process(u.value).Ok? ==>
        h.reply == (if Truthy(process(u.value).value) then Reply(OK, process(u.value).value)
                    else Reply(NO_CONTENT, Message(NoDataText)))
    ensures var u := MemberUrl(SilentJson(req), "response");
      u.Some? && process(u.value).Raised? ==> h.reply == InternalError
  {
    ReportController.Handle(ReportController.Texts(FailText, NoDataText), req, Service(Some(report), process))
  }
}
