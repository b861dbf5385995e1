/** The upstream API as the report services see it: a report request is
    accepted with 202 and answered later by a webhook callback. */
module Upstream {
  import opened PyJson
  import opened Http
  import opened Rows
  import ReportController

  /** What one report request gave a service: a response with its status,
      a `RequestException`, or a failure of `get_headers()` before the
      request was sent (the token refresh raises a plain `Exception` or a
      `TokenServiceError`, neither a `RequestException`). */
  datatype Response = Answered(status: int) | RequestError | HeadersFailed

  /** A file download by `requests.get`: the status and what decoding the
      body gave (decoding is outside the model and may raise), or a
      `RequestException`. */
  datatype Download = Fetched(status: int, table: Eval<Table>) | DownloadError

  /** A zip-archive download: the status and what reading its delimited
      members gave, in archive order (reading is outside the model and
      may raise), or a `RequestException`. */
  datatype ZipDownload = Zipped(status: int, members: Eval<seq<seq<Row>>>) | ZipDownloadError

  /** The rows of all members, member after member. */
  function Flatten(members: seq<seq<Row>>): seq<Row>
    decreases |members|
  {
    if |members| == 0 then [] else Flatten(members[..|members| - 1]) + members[|members| - 1]
  }

  /** The report-request rule shared by `get_custody`,
      `get_commissions_report`, `get_closed_commissions_report`,
      `get_monthly_nnm_report` and `get_monthly_tir_report`: Python `True`
      on 202, `None` on any other status and on a `RequestException`; a
      header failure inside the `try` is not caught by the
      `except requests.RequestException` and escapes the method. */
  function RequestReport(r: Response): (v: Eval<Json>)
    ensures v.Raised? <==> r.HeadersFailed?
    ensures v.Ok? ==> v.value == Bool(true) || v.value == Null
    ensures v.Ok? && Truthy(v.value) <==> r == Answered(ACCEPTED)
  {
    match r
    case Answered(status) => Ok(if status == ACCEPTED then Bool(true) else Null)
    case RequestError => Ok(Null)
    case HeadersFailed => Raised
  }

  const BaseUrl: string := "https://api.btgpactual.com"

  /** The instance attributes a `ConfigService` whose own `__init__` ran
      carries: its own and those `TokenService.__init__` sets.  When the
      shared instance is a bare `TokenService`, `SharedInstance` says what
      can be read instead. */
  const ConfigAttributes: set<string> :=
    {"_base_url", "_uuid", "_token", "_headers", "_initialized", "_token_data", "_cache_path"}

  /** `self.config_service.<attribute>`: the base URL for `_base_url`; an
      `AttributeError` for a name the instance does not carry.  The values
      of the other attributes are not modelled: the empty string stands in
      for them, and only whether the read raises is meaningful. */
  function ConfigAttribute(attribute: string): (r: Eval<string>)
    ensures r.Ok? <==> attribute in ConfigAttributes
    ensures attribute == "_base_url" ==> r == Ok(BaseUrl)
  {
    if attribute == "_base_url" then Ok(BaseUrl)
    else if attribute in ConfigAttributes then Ok("")
    else Raised
  }

  /** The report URL, `f"{self.config_service.base_url}{endpoint}"`, built
      before the method's `try`, so a failed lookup escapes the method. */
  function ReportUrlAsWritten(endpoint: string): (r: Eval<string>)
    ensures r == Raised
  {
    match ConfigAttribute("base_url")
    case Raised => Raised
    case Ok(base) => Ok(base + endpoint)
  }

  /** A report request as written: the URL lookup raises before any
      request is made, whatever the upstream would have answered. */
  function RequestReportAsWritten(endpoint: string, r: Response): (v: Eval<Json>)
    ensures v == Raised
  {
    match ReportUrlAsWritten(endpoint)
    case Raised => Raised
    case Ok(_) => RequestReport(r)
  }

  /** The URL built from the attribute `ConfigService` does set. */
  function ReportUrl(endpoint: string): (r: Eval<string>)
    ensures r.Ok? && r.value == BaseUrl + endpoint
  {
    match ConfigAttribute("_base_url")
    case Raised => Raised
    case Ok(base) => Ok(base + endpoint)
  }

  /** A report request reading `_base_url`: the URL lookup succeeds, so
      only a header failure raises and otherwise the 202 rule decides. */
  function RequestReportFixed(endpoint: string, r: Response): (v: Eval<Json>)
    ensures v.Raised? <==> r.HeadersFailed?
    ensures v.Ok? ==> (Truthy(v.value) <==> r == Answered(ACCEPTED))
  {
    match ReportUrl(endpoint)
    case Raised => Raised
    case Ok(_) => RequestReport(r)
  }

  /** As written, every trigger request of a standard controller ends in
      the generic 500, after the trigger call was attempted. */
  lemma TriggerFailsAsWritten(texts: ReportController.Texts, req: Request, endpoint: string,
                              r: Response, process: Json -> Eval<Json>)
    requires TakesTriggerLeg(req)
    ensures ReportController.Handle(texts, req, Service(Some(RequestReportAsWritten(endpoint, r)), process))
            == Handled(InternalError, [Trigger])
  {
    assert RequestReportAsWritten(endpoint, r) == Raised;
  }

  /** With the URL read from `_base_url`, a trigger request is accepted
      exactly when the upstream answers 202; an answered non-202 or a
      request error carries the controller's own failure text, and a
      header failure the generic 500. */
  lemma TriggerAcceptedOn202(texts: ReportController.Texts, req: Request, endpoint: string,
                             r: Response, process: Json -> Eval<Json>)
    requires TakesTriggerLeg(req)
    ensures var h := ReportController.Handle(texts, req, Service(Some(RequestReportFixed(endpoint, r)), process));
      h.calls == [Trigger]
      && (h.reply == Accepted <==> r == Answered(ACCEPTED))
      && (h.reply != Accepted && !r.HeadersFailed? ==> h.reply == Reply(INTERNAL_SERVER_ERROR, Error(texts.triggerFailed)))
      && (r.HeadersFailed? ==> h.reply == InternalError)
  {
    assert RequestReportFixed(endpoint, r) == RequestReport(r);
  }
}
