/** The monthly management-report services: `ClosedCommissionsService`
    and `MonthlyNNMService` ask for a reference month; `MonthlyTIRReportService`
    checks the callback URL before downloading. */
module MonthlyReports {
  import opened PyJson
  import opened Http
  import opened Rows
  import opened Calendar
  import opened Upstream
  import UrlParse
  import ReportController
  import MonthlyTirController

  /** What a monthly report request sends and what it returns. */
  datatype Sent = Sent(period: Period, result: Json)

  /** `get_closed_commissions_report` and `get_monthly_nnm_report` with the
      URL read from `_base_url` and the year taken from the reference
      date.  `relativedelta`'s `ValueError` (year below 1) is raised
      before the `try`; a header failure inside it escapes too. */
  function RequestMonthly(endpoint: string, today: Date, answer: Response): (r: Eval<Sent>)
    requires Valid(today)
    ensures r.Ok? <==> ReferencePeriod(today).Ok? && !answer.HeadersFailed?
    ensures r.Ok? ==> PeriodMonthNumber(r.value.period) == Some(MonthNumber(today) - MonthsBack(today))
    ensures r.Ok? ==> (Truthy(r.value.result) <==> answer == Answered(ACCEPTED))
  {
    match ReportUrl(endpoint)
    case Raised => Raised
    case Ok(_) =>
      match ReferencePeriod(today)
      case Raised => Raised
      case Ok(period) =>
        match RequestReport(answer)
        case Raised => Raised
        case Ok(result) => Ok(Sent(period, result))
  }

  /** The values a DataFrame yields when iterated: its column labels. */
  function ColumnsJson(t: Table): (j: Json)
    ensures j.Arr? && |j.items| == |t.columns|
    ensures forall i :: 0 <= i < |t.columns| ==> j.items[i] == Str(t.columns[i])
  {
    Arr(seq(|t.columns|, i requires 0 <= i < |t.columns| => Str(t.columns[i])))
  }

  /** The shared shape of `process_csv_from_url`: `None` on a
      `RequestException`; a non-200 download raises a plain `Exception`
      that the `except requests.RequestException` does not catch; a
      decoding failure raises too; otherwise `shape` of the decoded
      table. */
  function Process(d: Download, shape: Table -> Json): (r: Eval<Json>)
    ensures d.DownloadError? ==> r == Ok(Null)
    ensures r.Raised? <==> d.Fetched? && (d.status != OK || d.table.Raised?)
    ensures r.Ok? && d.Fetched? ==> r.value == shape(d.table.value)
  {
    match d
    case DownloadError => Ok(Null)
    case Fetched(status, table) =>
      if status != OK then Raised
      else
        match table
        case Raised => Raised
        case Ok(t) => Ok(shape(t))
  }

  /** `ClosedCommissionsService.process_csv_from_url`: the list built by
      iterating the DataFrame, that is its column labels. */
  function ProcessClosedCommissions(d: Download): (r: Eval<Json>)
    ensures d.DownloadError? ==> r == Ok(Null)
    ensures d.Fetched? && d.status != OK ==> r.Raised?
    ensures d.Fetched? && d.status == OK && d.table.Ok? ==> r == Ok(ColumnsJson(d.table.value))
  {
    Process(d, ColumnsJson)
  }

  /** The records a `csv.DictReader` yields, as a JSON list. */
  function RecordsJson(t: Table): Json {
    RowsJson(t.rows)
  }

  /** `MonthlyNNMService.process_csv_from_url`: the records in file
      order. */
  function ProcessNnm(d: Download): (r: Eval<Json>)
    ensures d.DownloadError? ==> r == Ok(Null)
    ensures d.Fetched? && d.status != OK ==> r.Raised?
    ensures d.Fetched? && d.status == OK && d.table.Ok? ==> r == Ok(RowsJson(d.table.value.rows))
  {
    Process(d, RecordsJson)
  }

  /** A standard callback fed by the NNM download: the records as a 200,
      the no-data 204 for an empty file or a request error, the generic
      500 for a failed download. */
  lemma NnmCallback(texts: ReportController.Texts, d: Download)
    ensures var reply := ReportController.CallbackReply(texts, ProcessNnm(d));
      (reply.status == OK <==> d.Fetched? && d.status == OK && d.table.Ok? && |d.table.value.rows| > 0)
      && (reply == InternalError <==> d.Fetched? && (d.status != OK || d.table.Raised?))
      && (reply.status == OK ==> reply.body == RowsJson(d.table.value.rows))
  {
  }

  /** `MonthlyTIRReportService.process_csv_from_url`: a falsy or invalid
      URL is a `ValueError`, caught and answered `None` before anything is
      downloaded; otherwise the records in file order. */
  function ProcessTir(url: Json, d: Download): (r: Eval<Json>)
    ensures !Truthy(url) || !UrlParse.ValidateUrl(url) ==> r == Ok(Null)
    ensures Truthy(url) && UrlParse.ValidateUrl(url) ==> r == ProcessNnm(d)
  {
    if !Truthy(url) || !UrlParse.ValidateUrl(url) then Ok(Null)
    else ProcessNnm(d)
  }

  /** The gate does not depend on the download: whatever the server
      would have sent, an invalid URL is answered the same. */
  lemma {:induction false} InvalidUrlNotDownloaded(url: Json, d1: Download, d2: Download)
    requires !UrlParse.ValidateUrl(url)
    ensures ProcessTir(url, d1) == ProcessTir(url, d2) == Ok(Null)
  {
  }

  /** Through the TIR controller, a callback whose `response.url` is a
      bare host name is the no-data 204. */
  lemma {:induction false} TirCallbackWithoutScheme(host: string, d: Download, report: Eval<Json>)
    requires host != "" && ':' !in host
    ensures var req := Request(true, Some(Obj(map["response" := Obj(map["url" := Str(host)])])));
      MonthlyTirController.Handle(req, report, u => ProcessTir(u, d)).reply
        == Reply(NO_CONTENT, Message("Não foram encontrados dados para o relatório TIR mensal."))
  {
    var req := Request(true, Some(Obj(map["response" := Obj(map["url" := Str(host)])])));
    CallbackUrl(host);
    UrlParse.NoColonRejected(host);
    assert ProcessTir(Str(host), d) == Ok(Null);
    var texts := MonthlyTirController.TirTexts;
    assert texts.noData == "Não foram encontrados dados para o relatório TIR mensal.";
    assert ReportController.CallbackReply(texts, Ok(Null)) == Reply(NO_CONTENT, Message(texts.noData));
  }

  /** The URL a callback body carries in `response.url`. */
  lemma CallbackUrl(host: string)
    requires host != ""
    ensures MemberUrl(SilentJson(Request(true, Some(Obj(map["response" := Obj(map["url" := Str(host)])])))), "response")
      == Some(Str(host))
  {
    var req := Request(true, Some(Obj(map["response" := Obj(map["url" := Str(host)])])));
    assert SilentJson(req) == Obj(map["response" := Obj(map["url" := Str(host)])]);
  }
}
