/** The part of `urllib.parse.urlsplit` that decides a URL's scheme and
    network location (the `urlparse` result fields `scheme` and `netloc`). */
module UrlParse {
  import opened PyJson
  import opened Text

  /** The leading characters `urlsplit` strips: C0 controls and space. */
  predicate IsC0OrSpace(c: char) {
    c as int <= 32
  }

  function StripC0Left(s: string): (r: string)
    ensures |r| <= |s| && r == s[|s| - |r|..]
    ensures |r| == 0 || !IsC0OrSpace(r[0])
    decreases |s|
  {
    if |s| > 0 && IsC0OrSpace(s[0]) then StripC0Left(s[1..]) else s
  }

  /** The characters removed anywhere in the URL: tab, CR and LF. */
  predicate IsUnsafe(c: char) {
    c == '\t' || c == '\r' || c == '\n'
  }

  function RemoveUnsafe(s: string): (r: string)
    ensures forall i :: 0 <= i < |r| ==> !IsUnsafe(r[i])
    ensures forall c :: c in r ==> c in s
    ensures |r| <= |s|
  {
    if |s| == 0 then ""
    else if IsUnsafe(s[0]) then RemoveUnsafe(s[1..])
    else [s[0]] + RemoveUnsafe(s[1..])
  }

  predicate IsAsciiLetter(c: char) {
    'a' <= c <= 'z' || 'A' <= c <= 'Z'
  }

  /** `scheme_chars`: ASCII letters, digits, `+`, `-` and `.`. */
  predicate IsSchemeChar(c: char) {
    IsAsciiLetter(c) || IsDigit(c) || c == '+' || c == '-' || c == '.'
  }

  /** `s.find(c)`. */
  function Find(s: string, c: char): (r: Option<nat>)
    ensures r.Some? ==> r.value < |s| && s[r.value] == c && c !in s[..r.value]
    ensures r.None? ==> c !in s
  {
    if |s| == 0 then None
    else if s[0] == c then Some(0)
    else
      var rest := Find(s[1..], c);
      assert s == [s[0]] + s[1..];
      if rest.Some? then Some(rest.value + 1) else None
  }

  predicate IsNetlocEnd(c: char) {
    c == '/' || c == '?' || c == '#'
  }

  /** The end of the network location in `_splitnetloc`: the first `/`,
      `?` or `#` at or after `i`, else the end of the string. */
  function NetlocEnd(s: string, i: nat): (e: nat)
    requires i <= |s|
    ensures i <= e <= |s|
    ensures e < |s| ==> IsNetlocEnd(s[e])
    ensures forall k :: i <= k < e ==> !IsNetlocEnd(s[k])
    decreases |s| - i
  {
    if i == |s| then |s| else if IsNetlocEnd(s[i]) then i else NetlocEnd(s, i + 1)
  }

  /** A scheme `urlsplit` recognises: an ASCII letter followed by scheme
      characters. */
  predicate IsScheme(s: string) {
    |s| > 0 && IsAsciiLetter(s[0]) && forall i :: 0 <= i < |s| ==> IsSchemeChar(s[i])
  }

  /** The index of the `:` that ends a recognised scheme, if the first
      `:` of `u` does. */
  function SchemeEnd(u: string): (e: Option<nat>)
    ensures e.Some? ==> e.value < |u| && u[e.value] == ':' && IsScheme(u[..e.value])
  {
    var colon := Find(u, ':');
    if colon.Some? && IsScheme(u[..colon.value]) then colon else None
  }

  /** `_splitnetloc(url, 2)` when `url` starts with `//`. */
  function NetlocOf(rest: string): Option<string> {
    if |rest| >= 2 && rest[..2] == "//" then Some(rest[2..NetlocEnd(rest, 2)]) else None
  }

  datatype UrlParts = UrlParts(scheme: string, netloc: string)

  /** Scheme and network location of `s`, or `ValueError` for a network
      location with one bracket of `[...]` but not the other. */
  function Split(s: string): Eval<UrlParts> {
    var u := RemoveUnsafe(StripC0Left(s));
    var e := SchemeEnd(u);
    var scheme := if e.Some? then LowerAscii(u[..e.value]) else "";
    var rest := if e.Some? then u[e.value + 1..] else u;
    match NetlocOf(rest)
    case None => Ok(UrlParts(scheme, ""))
    case Some(netloc) =>
      if ('[' in netloc) != (']' in netloc) then Raised else Ok(UrlParts(scheme, netloc))
  }

  /** `MonthlyTIRReportService.validate_url`: `urlparse` succeeds with a
      non-empty scheme and a non-empty network location.  `urlparse` on a
      value that is not a string raises, which the bare `except` turns
      into `False`. */
  function ValidateUrl(url: Json): (ok: bool)
    ensures ok ==> url.Str? && ':' in url.s
  {
    match url
    case Str(s) =>
      (match Split(s)
       case Ok(p) =>
         var u := RemoveUnsafe(StripC0Left(s));
         assert p.scheme != "" ==> SchemeEnd(u).Some? && ':' in u;
         p.scheme != "" && p.netloc != ""
       case Raised => false)
    case _ => false
  }

  lemma {:induction false} RemoveUnsafeOfSafe(s: string)
    requires forall i :: 0 <= i < |s| ==> !IsUnsafe(s[i])
    ensures RemoveUnsafe(s) == s
    decreases |s|
  {
    if |s| > 0 {
      RemoveUnsafeOfSafe(s[1..]);
      assert [s[0]] + s[1..] == s;
    }
  }

  lemma {:induction false} FindFirst(s: string, c: char, k: nat)
    requires k < |s| && s[k] == c && c !in s[..k]
    ensures Find(s, c) == Some(k)
    decreases k
  {
    if k > 0 {
      assert s[0] == s[..k][0];
      assert s[1..][..k - 1] == s[..k][1..];
      FindFirst(s[1..], c, k - 1);
    }
  }

  lemma {:induction false} NetlocEndAt(s: string, i: nat, e: nat)
    requires i <= e <= |s|
    requires e == |s| || IsNetlocEnd(s[e])
    requires forall k :: i <= k < e ==> !IsNetlocEnd(s[k])
    ensures NetlocEnd(s, i) == e
    decreases e - i
  {
    if i < e {
      NetlocEndAt(s, i + 1, e);
    }
  }

  lemma SchemeCharsAreSafe(scheme: string)
    requires IsScheme(scheme)
    ensures forall i :: 0 <= i < |scheme| ==> !IsUnsafe(scheme[i]) && scheme[i] != ':'
  {
    forall i | 0 <= i < |scheme| ensures !IsUnsafe(scheme[i]) && scheme[i] != ':' {
      assert IsSchemeChar(scheme[i]);
    }
  }

  predicate Safe(s: string) {
    forall i :: 0 <= i < |s| ==> !IsUnsafe(s[i])
  }

  lemma SafeAppend(a: string, b: string)
    requires Safe(a) && Safe(b)
    ensures Safe(a + b)
  {
    forall i | 0 <= i < |a + b| ensures !IsUnsafe((a + b)[i]) {
      if i >= |a| { assert (a + b)[i] == b[i - |a|]; }
    }
  }

  /** The network location of `//host` followed by nothing or by a path,
      query or fragment is `host`. */
  lemma {:induction false} NetlocOfWellFormed(host: string, tail: string)
    requires forall i :: 0 <= i < |host| ==> !IsNetlocEnd(host[i])
    requires |tail| == 0 || IsNetlocEnd(tail[0])
    ensures NetlocOf("//" + host + tail) == Some(host)
  {
    var rest := "//" + host + tail;
    var e := |host| + 2;
    forall i | 2 <= i < e ensures !IsNetlocEnd(rest[i]) {
      assert rest[i] == host[i - 2];
    }
    if e < |rest| {
      assert rest[e] == tail[0];
    }
    NetlocEndAt(rest, 2, e);
    assert rest[..2] == "//";
    assert rest[2..e] == host;
  }

  /** The scheme of `scheme:rest`, when nothing in the string is removed
      or stripped, ends at the `:`. */
  lemma {:induction false} SchemeEndWellFormed(scheme: string, rest: string)
    requires IsScheme(scheme) && Safe(rest)
    ensures var s := scheme + ":" + rest;
      RemoveUnsafe(StripC0Left(s)) == s && SchemeEnd(s) == Some(|scheme|)
  {
    var s := scheme + ":" + rest;
    assert s[0] == scheme[0];
    assert StripC0Left(s) == s;
    SchemeCharsAreSafe(scheme);
    SafeAppend(scheme, ":");
    SafeAppend(scheme + ":", rest);
    RemoveUnsafeOfSafe(s);
    var k := |scheme|;
    assert s[..k] == scheme;
    FindFirst(s, ':', k);
  }

  /** `scheme://host` followed by nothing or by a path, query or fragment
      is accepted. */
  lemma {:induction false} WellFormedAccepted(scheme: string, host: string, tail: string)
    requires IsScheme(scheme)
    requires |host| > 0
    requires forall i :: 0 <= i < |host| ==> !IsNetlocEnd(host[i]) && !IsUnsafe(host[i]) && host[i] != '[' && host[i] != ']'
    requires |tail| == 0 || IsNetlocEnd(tail[0])
    requires forall i :: 0 <= i < |tail| ==> !IsUnsafe(tail[i])
    ensures ValidateUrl(Str(scheme + "://" + host + tail))
  {
    var rest := "//" + host + tail;
    var pre := scheme + ":";
    var s := pre + rest;
    assert s[|pre|..] == rest;
    assert s == scheme + "://" + host + tail;
    assert !('[' in host) && !(']' in host) by {
      forall i | 0 <= i < |host| ensures host[i] != '[' && host[i] != ']' { }
    }
    assert Safe(host) && Safe(tail);
    SafeAppend("//", host);
    SafeAppend("//" + host, tail);
    SchemeEndWellFormed(scheme, rest);
    NetlocOfWellFormed(host, tail);
    SplitOf(s, |scheme|, host);
  }

  /** `Split` once the scheme end and the network location are known. */
  lemma {:induction false} SplitOf(s: string, k: nat, host: string)
    requires RemoveUnsafe(StripC0Left(s)) == s && SchemeEnd(s) == Some(k)
    requires NetlocOf(s[k + 1..]) == Some(host) && |host| > 0 && '[' !in host && ']' !in host
    ensures ValidateUrl(Str(s))
  {
    assert Split(s) == Ok(UrlParts(LowerAscii(s[..k]), host));
  }

  /** A URL without any `:` has no scheme, so it is rejected (a bare
      host name such as `example.com/report.csv`). */
  lemma NoColonRejected(s: string)
    requires ':' !in s
    ensures !ValidateUrl(Str(s))
  {
    var u := RemoveUnsafe(StripC0Left(s));
    assert ':' !in StripC0Left(s);
    assert ':' !in u;
    assert SchemeEnd(u) == None;
  }

  /** `host:port` without `//` reads the host as the scheme and has no
      network location (`localhost:8080`). */
  lemma {:induction false} HostPortRejected(host: string, port: string)
    requires IsScheme(host) && AllDigits(port)
    ensures !ValidateUrl(Str(host + ":" + port))
  {
    DigitsHaveNoNetloc(port);
    var s := host + ":" + port;
    assert s[|host| + 1..] == port;
    SchemeEndWellFormed(host, port);
    NoNetlocOf(s, |host|);
  }

  /** A run of digits is safe and does not start with `//`. */
  lemma DigitsHaveNoNetloc(port: string)
    requires AllDigits(port)
    ensures Safe(port) && NetlocOf(port) == None
  {
    forall i | 0 <= i < |port| ensures !IsUnsafe(port[i]) {
      assert IsDigit(port[i]);
    }
    if |port| >= 2 {
      assert IsDigit(port[0]);
      assert port[..2][0] == port[0];
    }
  }

  /** `Split` once the scheme end is known and no network location
      follows it. */
  lemma {:induction false} NoNetlocOf(s: string, k: nat)
    requires RemoveUnsafe(StripC0Left(s)) == s && SchemeEnd(s) == Some(k)
    requires NetlocOf(s[k + 1..]) == None
    ensures !ValidateUrl(Str(s))
  {
    var rest := s[k + 1..];
    assert NetlocOf(rest).None?;
    assert Split(s).Ok? && Split(s).value.netloc == "";
  }
}
