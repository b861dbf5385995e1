/** `EmailService`: recipient parsing and the decisions `send_email`
    makes around one call to the mail provider. */
module EmailService {
  import opened PyJson
  import opened Text
  import opened Grouping

  const FromEmail: string := "compliance@topinvgroup.com"
  const ApiKeyVariable: string := "SENDGRID_API_KEY"

  /** A constructed service: the provider key it read. */
  datatype Service = Service(apiKey: string)

  /** `__init__` with the default configuration: an unset or empty key
      variable raises `EmailServiceException`. */
  function New(env: map<string, string>): (r: Eval<Service>)
    ensures r.Ok? <==> ApiKeyVariable in env && env[ApiKeyVariable] != ""
    ensures r.Ok? ==> r.value.apiKey == env[ApiKeyVariable]
  {
    if ApiKeyVariable in env && env[ApiKeyVariable] != "" then Ok(Service(env[ApiKeyVariable])) else Raised
  }

  /** `[e.strip() for e in items if e.strip()]`. */
  function Clean(items: seq<string>): (r: seq<string>)
    ensures |r| <= |items|
    ensures forall i :: 0 <= i < |r| ==> r[i] != "" && IsStripped(r[i])
    decreases |items|
  {
    if |items| == 0 then []
    else
      var s := Strip(items[0]);
      (if s != "" then [s] else []) + Clean(items[1..])
  }

  /** Every item stripped, in order. */
  function StripAll(items: seq<string>): (r: seq<string>)
    ensures |r| == |items| && forall i :: 0 <= i < |items| ==> r[i] == Strip(items[i])
  {
    seq(|items|, i requires 0 <= i < |items| => Strip(items[i]))
  }

  function NonEmpty(): string -> bool {
    s => s != ""
  }

  /** The comprehension is "strip every item, then drop the empty ones". */
  lemma {:induction false} CleanIsFilterOfStripped(items: seq<string>)
    ensures Clean(items) == Filter(StripAll(items), NonEmpty())
    decreases |items|
  {
    if |items| > 0 {
      CleanIsFilterOfStripped(items[1..]);
      assert StripAll(items) == [Strip(items[0])] + StripAll(items[1..]);
      assert ([Strip(items[0])] + StripAll(items[1..]))[1..] == StripAll(items[1..]);
    }
  }

  /** Items that are already stripped and non-empty are kept as they are. */
  lemma {:induction false} CleanOfClean(items: seq<string>)
    requires forall i :: 0 <= i < |items| ==> items[i] != "" && IsStripped(items[i])
    ensures Clean(items) == items
    decreases |items|
  {
    if |items| > 0 {
      StripOfStripped(items[0]);
      CleanOfClean(items[1..]);
      assert [items[0]] + items[1..] == items;
    }
  }

  /** The strings of a list of JSON values, if every element is one. */
  function Strings(items: seq<Json>): (r: Option<seq<string>>)
    ensures r.Some? <==> forall i :: 0 <= i < |items| ==> items[i].Str?
    ensures r.Some? ==> |r.value| == |items| && forall i :: 0 <= i < |items| ==> r.value[i] == items[i].s
  {
    if forall i :: 0 <= i < |items| ==> items[i].Str? then
      Some(seq(|items|, i requires 0 <= i < |items| && items[i].Str? => items[i].s))
    else None
  }

  /** `_parse_email_addresses`: a string is split on `,`; a list is taken
      element by element; either way each piece is stripped and the empty
      ones dropped, in order.  A list element that is not a string has no
      `strip` and anything else (`None` for an unset variable, a number)
      cannot be iterated, so both raise. */
  function ParseAddresses(emails: Json): (r: Eval<seq<string>>)
    ensures emails.Str? ==> r == Ok(Clean(Split(emails.s, ',')))
    ensures r.Ok? ==> forall i :: 0 <= i < |r.value| ==> r.value[i] != "" && IsStripped(r.value[i])
    ensures emails.Arr? ==> (r.Ok? <==> forall i :: 0 <= i < |emails.items| ==> emails.items[i].Str?)
    ensures emails.Arr? && r.Ok? ==> r.value == Clean(Strings(emails.items).value)
    ensures !emails.Str? && !emails.Arr? ==> r == Raised
  {
    match emails
    case Str(s) => Ok(Clean(Split(s, ',')))
    case Arr(items) =>
      (match Strings(items)
       case Some(strs) => Ok(Clean(strs))
       case None => Raised)
    case _ => Raised
  }

  /** For a list of strings, parsing strips every element and drops the
      empty ones, in order. */
  lemma ListParsesAsFilter(items: seq<string>)
    ensures ParseAddresses(AsJson(items)) == Ok(Filter(StripAll(items), NonEmpty()))
  {
    var j := AsJson(items);
    assert forall i :: 0 <= i < |j.items| ==> j.items[i].Str?;
    assert Strings(j.items).value == items;
    CleanIsFilterOfStripped(items);
  }

  function AsJson(addresses: seq<string>): (j: Json)
    ensures j.Arr? && |j.items| == |addresses|
    ensures forall i :: 0 <= i < |addresses| ==> j.items[i] == Str(addresses[i])
  {
    Arr(seq(|addresses|, i requires 0 <= i < |addresses| => Str(addresses[i])))
  }

  /** Parsing is idempotent: the parsed list, passed back in, comes out
      unchanged. */
  lemma ReparseUnchanged(emails: Json)
    requires ParseAddresses(emails).Ok?
    ensures ParseAddresses(AsJson(ParseAddresses(emails).value)) == ParseAddresses(emails)
  {
    var parsed := ParseAddresses(emails).value;
    var j := AsJson(parsed);
    assert forall i :: 0 <= i < |j.items| ==> j.items[i].Str?;
    var strs := Strings(j.items);
    assert forall i :: 0 <= i < |parsed| ==> strs.value[i] == parsed[i];
    assert strs.value == parsed;
    CleanOfClean(parsed);
  }

  /** Clean addresses written as one comma-separated string parse back to
      the same list. */
  lemma CommaJoinedRoundTrip(addresses: seq<string>)
    requires |addresses| >= 1
    requires forall i :: 0 <= i < |addresses| ==> addresses[i] != "" && IsStripped(addresses[i]) && ',' !in addresses[i]
    ensures ParseAddresses(Str(Join(addresses, ','))) == Ok(addresses)
  {
    SplitJoin(addresses, ',');
    CleanOfClean(addresses);
  }

  /** `"text/html" if is_html else "text/plain"`. */
  function ContentType(isHtml: bool): (t: string)
    ensures t == "text/html" <==> isHtml
    ensures t == "text/plain" <==> !isHtml
  {
    if isHtml then "text/html" else "text/plain"
  }

  /** `_create_mail_object` without attachments. */
  datatype Message = Message(from: string, to: seq<string>, subject: string, contentType: string, content: string)

  /** What the provider's `send` gave: a response status, or an
      exception. */
  datatype ProviderReply = Status(code: int) | ProviderRaised

  /** One `send_email` call: the message handed to the provider, if any,
      and the outcome.  Every exception raised in the method comes out as
      `EmailServiceException`. */
  datatype Attempt = Attempt(sent: Option<Message>, outcome: Eval<bool>)

  /** `send_email`: parse, refuse an empty list before building the
      message, hand the message to the provider, and accept only a 2xx
      status. */
  function SendEmail(to: Json, subject: string, content: string, isHtml: bool,
                     provider: Message -> ProviderReply): (a: Attempt)
    ensures a.outcome.Ok? ==> a.outcome.value
    ensures a.sent.Some? <==> ParseAddresses(to).Ok? && ParseAddresses(to).value != []
    ensures a.sent.Some? ==>
      a.sent.value == Message(FromEmail, ParseAddresses(to).value, subject, ContentType(isHtml), content)
    ensures a.outcome.Ok? <==>
      a.sent.Some? && provider(a.sent.value).Status? && 200 <= provider(a.sent.value).code < 300
  {
    match ParseAddresses(to)
    case Raised => Attempt(None, Raised)
    case Ok(parsed) =>
      if parsed == [] then Attempt(None, Raised)
      else
        var message := Message(FromEmail, parsed, subject, ContentType(isHtml), content);
        match provider(message)
        case ProviderRaised => Attempt(Some(message), Raised)
        case Status(code) => Attempt(Some(message), if 200 <= code < 300 then Ok(true) else Raised)
  }

  /** A recipient variable that is unset (`None`) or holds only commas
      and blanks fails before the provider is called. */
  lemma NoRecipientsNoCall(to: Json, subject: string, content: string, isHtml: bool,
                           provider: Message -> ProviderReply)
    requires to == Null || (to.Str? && Clean(Split(to.s, ',')) == [])
    ensures SendEmail(to, subject, content, isHtml, provider) == Attempt(None, Raised)
  {
  }
}
