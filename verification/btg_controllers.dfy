/** The two controllers registered through a route decorator, whose
    dispatch is `"response" in data` with no truthiness guard, and whose
    callback leg has a `try` of its own. */

/** `BaseBTGController` (route `/api/v1/rg-base-btg`), and the handler
    shape it shares with `RelationshipController`. */
module BaseBtgController {
  import opened PyJson
  import opened Http
  import ReportController

  const BaseBtgTexts: ReportController.Texts :=
    ReportController.Texts("Falha ao iniciar a requisição de relatório gerencial Base BTG.",
                           "Nenhuma foram encontrados dados para Base BTG.")

  /** The bodies the unguarded dispatch sends to the trigger leg: any
      non-JSON request, and a JSON body on which `in` is defined but finds
      no `"response"`. */
  predicate TakesTriggerLeg(req: Request) {
    !req.isJson || (!SilentJson(req).Null? && !SilentJson(req).Num? && !SilentJson(req).Bool?
                    && !NamesResponse(SilentJson(req)))
  }

  /** `_process_webhook`: `data.get("response", {}).get("url")`; its own
      `except` answers the same generic 500 as the route's. */
  function WebhookLeg(texts: ReportController.Texts, data: Json, process: Json -> Eval<Json>): Leg {
    var url := (var response :- Get(data, "response", EmptyObj); Get(response, "url", Null));
    match url
    case Raised => Leg(Ok(InternalError), [])
    case Ok(u) =>
      if !Truthy(u) then Leg(Ok(UrlNotFound), [])
      else
        match process(u)
        case Raised => Leg(Ok(InternalError), [Process(u)])
        case Ok(d) => Leg(Ok(if Truthy(d) then Reply(OK, d) else Reply(NO_CONTENT, Message(texts.noData))), [Process(u)])
  }

  function Dispatch(texts: ReportController.Texts, req: Request, s: Service): Leg {
    if !req.isJson then TriggerLeg(s, texts.triggerFailed)
    else
      match UnguardedIsCallback(SilentJson(req))
      case Raised => Leg(Raised, [])
      case Ok(isCallback) =>
        if isCallback then WebhookLeg(texts, SilentJson(req), s.process) else TriggerLeg(s, texts.triggerFailed)
  }

  /** The route handler shared by both controllers.  A JSON request whose
      body is missing, undecodable or `null` ends in the generic 500
      without any upstream call. */
  function Run(texts: ReportController.Texts, req: Request, s: Service): (h: Handled)
    ensures HandlerStatus(h.reply.status)
    ensures req.isJson && (SilentJson(req).Null? || SilentJson(req).Num? || SilentJson(req).Bool?) ==>
      h == Handled(InternalError, [])
    ensures TakesTriggerLeg(req) ==> h.calls == (if s.trigger.Some? then [Trigger] else [])
    ensures TakesTriggerLeg(req) ==>
      h.reply == (if s.trigger.Some? && s.trigger.value.Ok? then
                    (if Truthy(s.trigger.value.value) then Accepted
                     else Reply(INTERNAL_SERVER_ERROR, Error(texts.triggerFailed)))
                  else InternalError)
    ensures ProcessedUrl(h.calls) == (if req.isJson then MemberUrl(SilentJson(req), "response") else None)
    ensures var u := MemberUrl(SilentJson(req), "response");
      req.isJson && u.Some? ==>
        h.reply == (match s.process(u.value)
                    case Raised => InternalError
                    case Ok(d) => if Truthy(d) then Reply(OK, d) else Reply(NO_CONTENT, Message(texts.noData)))
    ensures h.reply.status == BAD_REQUEST <==>
      req.isJson && MemberObject(SilentJson(req), "response").Some? && MemberUrl(SilentJson(req), "response").None?
  {
    Catch(Dispatch(texts, req, s), InternalError)
  }

  /** The Base BTG route handler, with `report` the outcome of
      `get_base_btg_report`. */
  function Handle(req: Request, report: Eval<Json>, process: Json -> Eval<Json>): (h: Handled)
    ensures req.isJson && req.body.None? ==> h == Handled(InternalError, [])
    ensures TakesTriggerLeg(req) && report.Ok? && !Truthy(report.value) ==>
      h.reply == Reply(INTERNAL_SERVER_ERROR, Error("Falha ao iniciar a requisição de relatório gerencial Base BTG."))
    ensures TakesTriggerLeg(req) && report.Ok? && Truthy(report.value) ==> h.reply == Accepted
    ensures var u := MemberUrl(SilentJson(req), "response");
      req.isJson && u.Some? && process(u.value) == Ok(Null) ==>
        h.reply == Reply(NO_CONTENT, Message("Nenhuma foram encontrados dados para Base BTG."))
  {
    Run(BaseBtgTexts, req, Service(Some(report), process))
  }
}

/** `RelationshipController` (route `/api/v1/relationship-accounts`).  Its
    trigger leg calls `get_account_advisors_relationship`, while
    `RelationshipService` defines `get_account_advisors_link`. */
module AccountAdvisorsController {
  import opened PyJson
  import opened Http
  import ReportController
  import BaseBtgController

  const RelationshipTexts: ReportController.Texts :=
    ReportController.Texts("Falha ao iniciar a requisição de contas vinculadas.",
                           "Nenhuma conta vinculada encontrada.")

  /** The route handler as written: every trigger ends in the generic 500
      before any upstream call. */
  function HandleAsWritten(req: Request, process: Json -> Eval<Json>): (h: Handled)
    ensures BaseBtgController.TakesTriggerLeg(req) ==> h == Handled(InternalError, [])
    ensures h.reply != Accepted
  {
    BaseBtgController.Run(RelationshipTexts, req, Service(None, process))
  }

  /** The route handler with the trigger calling the service's
      `get_account_advisors_link`, whose outcome is `link`.  The service's
      `process_csv_from_url` answers `True` or `None`, so a callback is a
      200 carrying `true` or a 204. */
  function Handle(req: Request, link: Eval<Json>, process: Json -> Eval<Json>): (h: Handled)
    ensures BaseBtgController.TakesTriggerLeg(req) ==> h.calls == [Trigger]
    ensures BaseBtgController.TakesTriggerLeg(req) && link.Ok? && Truthy(link.value) ==> h.reply == Accepted
    ensures BaseBtgController.TakesTriggerLeg(req) && link.Ok? && !Truthy(link.value) ==>
      h.reply == Reply(INTERNAL_SERVER_ERROR, Error("Falha ao iniciar a requisição de contas vinculadas."))
    ensures var u := MemberUrl(SilentJson(req), "response");
      req.isJson && u.Some? && process(u.value) == Ok(Bool(true)) ==> h.reply == Reply(OK, Bool(true))
    ensures var u := MemberUrl(SilentJson(req), "response");
      req.isJson && u.Some? && process(u.value) == Ok(Null) ==>
        h.reply == Reply(NO_CONTENT, Message("Nenhuma conta vinculada encontrada."))
  {
    BaseBtgController.Run(RelationshipTexts, req, Service(Some(link), process))
  }
}
