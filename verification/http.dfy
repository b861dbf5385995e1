/** The shapes the webhook handlers exchange with Flask: the incoming
    request as the handlers see it, the `(body, status)` pair they return,
    and the trace of upstream service calls a handler makes. */
module Http {
  import opened PyJson

  /** An incoming POST.  `isJson` is Flask's `request.is_json` (a check of
      the mimetype only); `body` is the decoded document, or `None` when
      the body is empty or is not valid JSON. */
  datatype Request = Request(isJson: bool, body: Option<Json>)

  /** `request.get_json(silent=True)`: Python `None` for a non-JSON
      mimetype or an undecodable body, otherwise the decoded document. */
  function SilentJson(r: Request): Json {
    if r.isJson && r.body.Some? then r.body.value else Null
  }

  /** `request.get_json(force=True)`: the mimetype is ignored and an
      undecodable body raises. */
  function ForcedJson(r: Request): Eval<Json> {
    if r.body.Some? then Ok(r.body.value) else Raised
  }

  const OK: int := 200
  const ACCEPTED: int := 202
  const NO_CONTENT: int := 204
  const BAD_REQUEST: int := 400
  const INTERNAL_SERVER_ERROR: int := 500

  /** The statuses a webhook handler can answer with. */
  predicate HandlerStatus(status: int) {
    status == OK || status == ACCEPTED || status == NO_CONTENT
    || status == BAD_REQUEST || status == INTERNAL_SERVER_ERROR
  }

  /** A handler's return value: the JSON body and the HTTP status. */
  datatype Reply = Reply(status: int, body: Json)

  function Field(key: string, value: Json): Json {
    Obj(map[key := value])
  }

  function Message(text: string): Json {
    Field("message", Str(text))
  }

  function Error(text: string): Json {
    Field("error", Str(text))
  }

  const AcceptedText: string := "Requisição aceita. Aguardando processamento via webhook."
  const Accepted: Reply := Reply(ACCEPTED, Message(AcceptedText))
  const UrlNotFound: Reply := Reply(BAD_REQUEST, Error("CSV URL not found."))
  const InternalError: Reply := Reply(INTERNAL_SERVER_ERROR, Error("Internal server error"))

  /** An upstream call a handler makes: asking for a report (the trigger
      leg) or handing a download URL to the report's service (the
      callback leg). */
  datatype Call = Trigger | Process(url: Json)

  /** The URL handed to the report's service, if any call did so. */
  function ProcessedUrl(calls: seq<Call>): Option<Json> {
    if |calls| == 0 then None
    else if calls[0].Process? then Some(calls[0].url)
    else ProcessedUrl(calls[1..])
  }

  /** What the body of a handler's `try` block produced, and the calls it
      made before producing it. */
  datatype Leg = Leg(result: Eval<Reply>, calls: seq<Call>)

  /** A handler's final answer: its `except Exception` clause turns a
      raising leg into `fallback`, so a handler never raises. */
  datatype Handled = Handled(reply: Reply, calls: seq<Call>)

  function Catch(leg: Leg, fallback: Reply): Handled {
    Handled(if leg.result.Ok? then leg.result.value else fallback, leg.calls)
  }

  /** A report service as a handler sees it: the outcome of the method the
      trigger leg calls (`None` when the service does not define that
      method, so the attribute lookup raises before any request is made)
      and the outcome of `process_csv_from_url` for each URL. */
  datatype Service = Service(trigger: Option<Eval<Json>>, process: Json -> Eval<Json>)

  /** The trigger leg every handler shares: a truthy answer from the
      service is a 202, a falsy one is a 500 carrying the controller's own
      failure text. */
  function TriggerLeg(s: Service, failText: string): (leg: Leg)
    ensures leg.calls == (if s.trigger.Some? then [Trigger] else [])
    ensures leg.result.Ok? <==> s.trigger.Some? && s.trigger.value.Ok?
    ensures leg.result.Ok? ==>
      (leg.result.value == Accepted <==> Truthy(s.trigger.value.value))
    ensures leg.result.Ok? && !Truthy(s.trigger.value.value) ==>
      leg.result.value == Reply(INTERNAL_SERVER_ERROR, Error(failText))
  {
    match s.trigger
    case None => Leg(Raised, [])
    case Some(Raised) => Leg(Raised, [Trigger])
    case Some(Ok(v)) =>
      Leg(Ok(if Truthy(v) then Accepted else Reply(INTERNAL_SERVER_ERROR, Error(failText))), [Trigger])
  }

  /** Reference reading of `"response" in data` on a value where `in` is
      defined: key membership, list membership of the string, or substring. */
  predicate NamesResponse(data: Json) {
    match data
    case Obj(fields) => "response" in fields
    case Arr(items) => Str("response") in items
    case Str(s) => IsInfix("response", s)
    case _ => false
  }

  /** `data and "response" in data`: the guarded dispatch.  The guard
      short-circuits on a falsy body, so the only bodies on which it raises
      are the truthy ones `in` rejects: a non-zero number or `True`. */
  function GuardedIsCallback(data: Json): (r: Eval<bool>)
    ensures r.Raised? <==> Truthy(data) && (data.Num? || data.Bool?)
    ensures r.Ok? ==> (r.value <==> Truthy(data) && NamesResponse(data))
  {
    if !Truthy(data) then Ok(false) else Contains(data, "response")
  }

  /** `"response" in data` without the truthiness guard: it raises on
      `None`, on every number and on both booleans. */
  function UnguardedIsCallback(data: Json): (r: Eval<bool>)
    ensures r.Raised? <==> data.Null? || data.Num? || data.Bool?
    ensures r.Ok? ==> (r.value <==> NamesResponse(data))
  {
    Contains(data, "response")
  }

  /** The bodies the guarded dispatch `data and "response" in data`
      sends to the trigger leg, by shape: falsy bodies, and bodies in
      which `"response"` is not a key, not a list element, not a
      substring.  A list of callback objects is therefore a trigger. */
  predicate TakesTriggerLeg(req: Request) {
    match SilentJson(req)
    case Null => true
    case Bool(b) => !b
    case Num(n) => n == 0
    case Str(s) => !IsInfix("response", s)
    case Arr(items) => Str("response") !in items
    case Obj(fields) => "response" !in fields
  }

  /** The `try` body of a handler whose dispatch is guarded: a non-JSON
      request or a body `TakesTriggerLeg` names runs `trigger`; a truthy
      number or `True` makes `in` raise; every other body runs the
      callback leg. */
  function GuardedDispatch(req: Request, webhook: Json -> Leg, trigger: Leg): (leg: Leg)
    ensures TakesTriggerLeg(req) ==> leg == trigger
    ensures !TakesTriggerLeg(req) ==>
      leg == (if SilentJson(req).Num? || SilentJson(req).Bool? then Leg(Raised, []) else webhook(SilentJson(req)))
  {
    if !req.isJson then trigger
    else
      match GuardedIsCallback(SilentJson(req))
      case Raised => Leg(Raised, [])
      case Ok(isCallback) => if isCallback then webhook(SilentJson(req)) else trigger
  }

  /** The member `key` of a dict body, if it is itself a dict. */
  function MemberObject(data: Json, key: string): Option<map<string, Json>> {
    if data.Obj? && key in data.fields && data.fields[key].Obj?
    then Some(data.fields[key].fields)
    else None
  }

  /** `data[key]["url"]` of a dict body, when both levels are dicts and
      the URL is present and truthy. */
  function MemberUrl(data: Json, key: string): Option<Json> {
    var r := MemberObject(data, key);
    if r.Some? && "url" in r.value && Truthy(r.value["url"]) then Some(r.value["url"]) else None
  }

  /** The top-level `url` of a dict body, when present and truthy. */
  function TopUrl(data: Json): Option<Json> {
    if data.Obj? && "url" in data.fields && Truthy(data.fields["url"]) then Some(data.fields["url"]) else None
  }
}
