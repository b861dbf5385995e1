/** The two `Logger` helpers.  Each reads the request's JSON body and
    answers `(body, status)` for a webhook event, with its own URL and
    error conventions. */

/** `utils/logging_requests.Logger`: silent JSON decoding, URL precedence
    `result.url`, `response.url`, top-level `url`. */
module RequestLogger {
  import opened PyJson
  import opened Http

  /** The first truthy URL in precedence order: `result.url`,
      `response.url`, top-level `url`. */
  function Precedence(data: Json): Option<Json> {
    if MemberUrl(data, "result").Some? then MemberUrl(data, "result")
    else if MemberUrl(data, "response").Some? then MemberUrl(data, "response")
    else TopUrl(data)
  }

  /** `data[key]`, when present, is a dict (so `.get` on it is defined). */
  predicate DictOrAbsent(data: Json, key: string)
    requires data.Obj?
  {
    key !in data.fields || data.fields[key].Obj?
  }

  /** A dict body on which every lookup `extract_url` may make is defined. */
  predicate Readable(data: Json) {
    data.Obj? && DictOrAbsent(data, "result") && DictOrAbsent(data, "response")
  }

  /** `extract_url`: `data.get("result", {}).get("url", "") or
      data.get("response", {}).get("url", "") or data.get("url", "")`.
      `or` short-circuits, so a later lookup runs (and can raise) only when
      every earlier one gave a falsy value. */
  function ExtractUrl(data: Json): (r: Eval<Json>)
    ensures r.Ok? && Truthy(r.value) ==> Precedence(data) == Some(r.value)
    ensures MemberUrl(data, "result").Some? ==> r == Ok(MemberUrl(data, "result").value)
    ensures Readable(data) ==> r.Ok? && (Truthy(r.value) <==> Precedence(data).Some?)
    ensures r.Raised? ==> !Readable(data)
  {
    if !data.Obj? then Raised
    else
      var first :- Get(GetOr(data.fields, "result", EmptyObj), "url", Str(""));
      if Truthy(first) then Ok(first)
      else
        var second :- Get(GetOr(data.fields, "response", EmptyObj), "url", Str(""));
        if Truthy(second) then Ok(second)
        else Ok(GetOr(data.fields, "url", Str("")))
  }

  /** `(errors or [{}])[0]`: a falsy `errors` reads as `{}`; a truthy list
      gives its first element; any other truthy value raises (a dict has no
      key `0`, a string's first character has no `.get`, a number cannot
      be indexed). */
  function FirstError(errors: Json): Eval<Json> {
    if !Truthy(errors) then Ok(EmptyObj)
    else if errors.Arr? then Ok(errors.items[0])
    else Raised
  }

  /** `extract_error_info`: `(message, code)` of the first error, with
      "Unknown error" / "Unknown code" for whatever is missing. */
  function ExtractErrorInfo(data: Json): (r: Eval<(Json, Json)>)
    ensures data.Obj? && ("errors" !in data.fields || !Truthy(data.fields["errors"])) ==>
      r == Ok((Str("Unknown error"), Str("Unknown code")))
    ensures data.Obj? && "errors" in data.fields && data.fields["errors"].Arr?
            && |data.fields["errors"].items| > 0 && data.fields["errors"].items[0].Obj? ==>
      var e := data.fields["errors"].items[0].fields;
      r == Ok((if "message" in e then e["message"] else Str("Unknown error"),
               if "code" in e then e["code"] else Str("Unknown code")))
    ensures r.Ok? ==> data.Obj?
  {
    var errors :- Get(data, "errors", Null);
    var error :- FirstError(errors);
    if !error.Obj? then Raised
    else Ok((GetOr(error.fields, "message", Str("Unknown error")), GetOr(error.fields, "code", Str("Unknown code"))))
  }

  function Problem(code: Json, message: Json): Json {
    Obj(map["status" := code, "message" := message])
  }

  function EventProcessed(url: Json): Json {
    Obj(map["status" := Str("success"), "message" := Str("Event processed"), "url" := url])
  }

  /** `process_payload`.  A non-empty list is reduced to its first element
      (once); a payload without a URL is a 400 carrying the first error's
      code and message; one with a URL is a 200 echoing it. */
  function ProcessPayload(data: Json): (r: Eval<Reply>)
    ensures data.Arr? && |data.items| > 0 && !data.items[0].Arr? ==> r == ProcessPayload(data.items[0])
    ensures r.Ok? ==> r.value.status == OK || r.value.status == BAD_REQUEST
    ensures r.Ok? && r.value.status == OK ==>
      exists u :: Truthy(u) && r.value.body == EventProcessed(u)
    ensures Readable(data) && Precedence(data).Some? ==> r == Ok(Reply(OK, EventProcessed(Precedence(data).value)))
    ensures Readable(data) && Precedence(data).None? && ExtractErrorInfo(data).Ok? ==>
      var (message, code) := ExtractErrorInfo(data).value;
      r == Ok(Reply(BAD_REQUEST, Problem(code, message)))
  {
    var d := if data.Arr? && |data.items| > 0 then data.items[0] else data;
    var url :- ExtractUrl(d);
    if !Truthy(url) then
      var (message, code) :- ExtractErrorInfo(d);
      Ok(Reply(BAD_REQUEST, Problem(code, message)))
    else
      Ok(Reply(OK, EventProcessed(url)))
  }

  const ServerError: Reply := Reply(INTERNAL_SERVER_ERROR, Obj(map["status" := Str("error"), "message" := Str("Internal server error")]))

  /** `log_and_respond`.  It never raises: a missing or falsy body is a
      200 naming the event (never a 400), and any exception in processing
      is a 500. */
  function LogAndRespond(req: Request, eventName: string): (r: Reply)
    ensures r.status == OK || r.status == BAD_REQUEST || r.status == INTERNAL_SERVER_ERROR
    ensures !Truthy(SilentJson(req)) ==>
      r == Reply(OK, Obj(map["status" := Str("success"), "message" := Str(eventName)]))
    ensures Truthy(SilentJson(req)) && ProcessPayload(SilentJson(req)).Raised? ==> r == ServerError
    ensures Truthy(SilentJson(req)) && ProcessPayload(SilentJson(req)).Ok? ==>
      r == ProcessPayload(SilentJson(req)).value
  {
    var data := SilentJson(req);
    if Truthy(data) then
      match ProcessPayload(data)
      case Ok(reply) => reply
      case Raised => ServerError
    else
      Reply(OK, Obj(map["status" := Str("success"), "message" := Str(eventName)]))
  }

  /** A list whose first element is not a dict makes processing raise,
      which `log_and_respond` answers with a 500. */
  lemma NonDictFirstElementIsServerError(x: Json, rest: seq<Json>, eventName: string)
    requires !x.Obj? && !x.Arr?
    ensures LogAndRespond(Request(true, Some(Arr([x] + rest))), eventName) == ServerError
  {
  }
}

/** `utils/logging.Logger`: forced JSON decoding, and a URL read from
    `result.url` only. */
module EventLogger {
  import opened PyJson
  import opened Http
  import RequestLogger

  const NoPayload: Reply :=
    Reply(BAD_REQUEST, Obj(map["status" := Str("Invalid request"), "message" := Str("No JSON payload found")]))

  /** `errors[0] if isinstance(errors, list) and errors else {}`, where
      `errors = data.get("errors", [{}])`. */
  function FirstError(fields: map<string, Json>): Json {
    var errors := GetOr(fields, "errors", Arr([EmptyObj]));
    if errors.Arr? && |errors.items| > 0 then errors.items[0] else EmptyObj
  }

  /** The `try` body after the falsy check: the list unwrap, then
      `data.get("result", {}).get("url")`. */
  function Respond(data: Json): Eval<Reply> {
    var d := if data.Arr? && |data.items| > 0 then data.items[0] else data;
    if !d.Obj? then Raised
    else
      var url :- Get(GetOr(d.fields, "result", EmptyObj), "url", Null);
      if Truthy(url) then Ok(Reply(OK, RequestLogger.EventProcessed(url)))
      else
        var error := FirstError(d.fields);
        if !error.Obj? then Raised
        else
          var message := GetOr(error.fields, "message", Str("Unknown error"));
          var code := GetOr(error.fields, "code", Str("Unknown code"));
          Ok(Reply(BAD_REQUEST, RequestLogger.Problem(code, message)))
  }

  /** `log_and_respond`.  A body that does not parse raises under
      `force=True` and is a 500; a falsy body is the 400 "No JSON payload
      found"; only `result.url` counts as a URL. */
  function LogAndRespond(req: Request, eventName: string): (r: Reply)
    ensures r.status == OK || r.status == BAD_REQUEST || r.status == INTERNAL_SERVER_ERROR
    ensures req.body.None? ==> r == RequestLogger.ServerError
    ensures req.body.Some? && !Truthy(req.body.value) ==> r == NoPayload
    ensures req.body.Some? && req.body.value.Obj? && MemberUrl(req.body.value, "result").Some? ==>
      r == Reply(OK, RequestLogger.EventProcessed(MemberUrl(req.body.value, "result").value))
    ensures r.status == OK ==> req.body.Some? && Truthy(req.body.value)
    ensures req.body.Some? && req.body.value.Obj? && |req.body.value.fields| > 0
            && "result" !in req.body.value.fields && "errors" !in req.body.value.fields ==>
      r == Reply(BAD_REQUEST, RequestLogger.Problem(Str("Unknown code"), Str("Unknown error")))
  {
    match ForcedJson(req)
    case Raised => RequestLogger.ServerError
    case Ok(data) =>
      if !Truthy(data) then NoPayload
      else
        match Respond(data)
        case Ok(reply) => reply
        case Raised => RequestLogger.ServerError
  }

  /** `response.url` and the top-level `url`, which the other logger
      accepts, are ignored: a callback carrying only those is a 400 here
      and a 200 there. */
  lemma ResponseUrlIgnored(u: Json, eventName: string)
    requires Truthy(u)
    ensures var body := Obj(map["response" := Obj(map["url" := u])]);
      LogAndRespond(Request(true, Some(body)), eventName).status == BAD_REQUEST
      && RequestLogger.LogAndRespond(Request(true, Some(body)), eventName) == Reply(OK, RequestLogger.EventProcessed(u))
  {
    var body := Obj(map["response" := Obj(map["url" := u])]);
    assert MemberUrl(body, "response") == Some(u);
  }
}
