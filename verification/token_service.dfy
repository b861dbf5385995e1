/** `TokenService` of the core: an access token held in memory and in a
    cache file, reused until its expiry instant and otherwise fetched from
    the authorization endpoint, whose `expires` header is an HTTP-date.
    Timestamps are whole seconds and `now` is one reading of the clock
    for the whole call. */
module TokenService {
  import opened PyJson
  import opened Text
  import HttpDate

  const CacheFilename: string := "token_cache.json"
  const AuthUrl: string := "https://api.btgpactual.com/iaas-auth/api/v1/authorization/oauth2/accesstoken"
  const AuthVariable: string := "AUTH_BASE64"

  /** `TokenData`: the token as it was read (a header string, or whatever
      the cache file held) and its expiry instant. */
  datatype TokenData = TokenData(accessToken: Json, expiresAt: int)

  /** `TokenData.is_expired`: the expiry instant itself already counts as
      expired. */
  predicate IsExpired(t: TokenData, now: int) {
    now >= t.expiresAt
  }

  /** `float(value)` on a decoded JSON value: numbers and booleans
      convert, and so does a string of decimal digits; other strings raise
      `ValueError` and `None`, lists and dicts raise `TypeError`. */
  function FloatOf(j: Json): (r: Eval<int>)
    ensures NumericValue(j).Some? ==> r == Ok(NumericValue(j).value)
    ensures j.Str? ==> (r.Ok? <==> j.s != "" && AllDigits(j.s))
    ensures j.Null? || j.Arr? || j.Obj? ==> r == Raised
  {
    match j
    case Num(n) => Ok(n)
    case Bool(b) => Ok(if b then 1 else 0)
    case Str(s) => if s != "" && AllDigits(s) then Ok(DigitsValue(s)) else Raised
    case _ => Raised
  }

  /** The number a cache file writes for an instant reads back as it. */
  lemma FloatOfWritten(n: int)
    ensures FloatOf(Num(n)) == Ok(n)
    ensures n >= 0 ==> FloatOf(Str(NatToString(n))) == Ok(n)
  {
    if n >= 0 {
      NatToStringRoundTrip(n);
    }
  }

  /** `TokenData.from_dict`: both keys must be present in a dict and the
      expiry must convert, or the `KeyError`/`TypeError`/`ValueError`
      propagates. */
  function FromDict(data: Json): (r: Eval<TokenData>)
    ensures r.Ok? <==> data.Obj? && "access_token" in data.fields && "expires_at" in data.fields
                       && FloatOf(data.fields["expires_at"]).Ok?
    ensures r.Ok? ==> r.value == TokenData(data.fields["access_token"], FloatOf(data.fields["expires_at"]).value)
  {
    match Index(data, "access_token")
    case Raised => Raised
    case Ok(token) =>
      match Index(data, "expires_at")
      case Raised => Raised
      case Ok(expires) =>
        match FloatOf(expires)
        case Raised => Raised
        case Ok(at) => Ok(TokenData(token, at))
  }

  /** The cache file: absent, present but unreadable (`IOError`), or
      present with text that decodes to a JSON value (`None` when it is
      not JSON). */
  datatype CacheFile = Missing | Unreadable | Written(decoded: Option<Json>)

  /** `_load_cached_token`: an absent, unreadable or undecodable file and
      an expired token give no token.  Only `IOError` and
      `JSONDecodeError` are caught, so a file holding valid JSON of the
      wrong shape raises out of the method. */
  function LoadCachedToken(cache: CacheFile, now: int): (r: Eval<Option<TokenData>>)
    ensures r.Raised? <==> cache.Written? && cache.decoded.Some? && FromDict(cache.decoded.value).Raised?
    ensures cache.Missing? || cache.Unreadable? || cache == Written(None) ==> r == Ok(None)
    ensures r.Ok? && r.value.Some? ==>
      !IsExpired(r.value.value, now) && cache.Written? && cache.decoded.Some?
      && FromDict(cache.decoded.value) == Ok(r.value.value)
    ensures r == Ok(None) && cache.Written? && cache.decoded.Some? ==> IsExpired(FromDict(cache.decoded.value).value, now)
  {
    match cache
    case Missing => Ok(None)
    case Unreadable => Ok(None)
    case Written(decoded) =>
      match decoded
      case None => Ok(None)
      case Some(data) =>
        match FromDict(data)
        case Raised => Raised
        case Ok(t) => if IsExpired(t, now) then Ok(None) else Ok(Some(t))
  }

  /** The dict `_save_token_to_cache` writes. */
  function CacheEntry(t: TokenData): Json {
    Obj(map["access_token" := t.accessToken, "expires_at" := Num(t.expiresAt)])
  }

  /** `_save_token_to_cache`: the file holds the token afterwards, unless
      the write fails, which is logged and swallowed. */
  function SaveToCache(t: TokenData, cache: CacheFile, writable: bool): (c: CacheFile)
    ensures writable ==> c.Written? && c.decoded.Some? && FromDict(c.decoded.value) == Ok(t)
    ensures !writable ==> c == cache
  {
    if writable then Written(Some(CacheEntry(t))) else cache
  }

  /** What the cache file gives back is what was saved in it, while it is
      still valid. */
  lemma SaveLoadRoundTrip(t: TokenData, cache: CacheFile, now: int)
    ensures LoadCachedToken(SaveToCache(t, cache, true), now) == if now < t.expiresAt then Ok(Some(t)) else Ok(None)
  {
    var c := SaveToCache(t, cache, true);
    assert FromDict(c.decoded.value) == Ok(t);
  }

  /** The in-memory part of the service: `_initialized` and
      `_token_data`. */
  datatype Service = Service(initialized: bool, token: Option<TokenData>)

  /** The state every construction leaves: `__new__` hands out the one
      shared instance, and `__init__` resets it. */
  const Fresh: Service := Service(false, None)

  /** The process-wide instance: `None` until the first construction. */
  datatype Registry = Registry(instance: Option<Service>)

  /** `TokenService()`: the same instance every time, reset to `Fresh`
      however far an earlier holder had taken it. */
  function Construct(reg: Registry): (r: Registry)
    ensures r.instance == Some(Fresh)
    ensures reg.instance.Some? && reg.instance.value.token.Some? ==> r.instance.value.token.None?
  {
    Registry(Some(Fresh))
  }

  /** A state change that may have raised. */
  datatype Step = Step(state: Service, raised: bool)

  predicate AuthSet(env: map<string, string>) {
    AuthVariable in env && env[AuthVariable] != ""
  }

  /** `initialize`: nothing to do once initialized; otherwise an unset or
      empty `AUTH_BASE64` raises, and the token is replaced by the one the
      cache file holds (which may raise out of the method). */
  function Initialize(s: Service, env: map<string, string>, cache: CacheFile, now: int): (r: Step)
    ensures s.initialized ==> r == Step(s, false)
    ensures !s.initialized ==> (r.raised <==> !AuthSet(env) || LoadCachedToken(cache, now).Raised?)
    ensures r.raised ==> r.state == s
    ensures !r.raised ==> r.state.initialized
    ensures !s.initialized && !r.raised ==> r.state.token == LoadCachedToken(cache, now).value
  {
    if s.initialized then Step(s, false)
    else if !AuthSet(env) then Step(s, true)
    else
      match LoadCachedToken(cache, now)
      case Raised => Step(s, true)
      case Ok(t) => Step(Service(true, t), false)
  }

  /** Initializing twice is initializing once, whatever the second call
      sees. */
  lemma InitializeIdempotent(s: Service, env: map<string, string>, cache: CacheFile, now: int,
                             env2: map<string, string>, cache2: CacheFile, now2: int)
    requires !Initialize(s, env, cache, now).raised
    ensures Initialize(Initialize(s, env, cache, now).state, env2, cache2, now2) == Initialize(s, env, cache, now)
  {
  }

  /** Without `AUTH_BASE64` a fresh service cannot produce a token. */
  lemma MissingAuthRaises(env: map<string, string>, cache: CacheFile, now: int)
    requires !AuthSet(env)
    ensures Initialize(Fresh, env, cache, now) == Step(Fresh, true)
  {
  }

  /** What the token request gave: the status and the response headers,
      or a `RequestException`. */
  datatype TokenReply = TokenResponse(status: int, headers: map<string, string>) | TokenRequestError

  /** `headers.get(name)` checked for truthiness. */
  predicate HasHeader(headers: map<string, string>, name: string) {
    name in headers && headers[name] != ""
  }

  /** `_process_response`: both headers must be present and non-empty and
      `expires` must be an IMF-fixdate; the token expires at the instant
      the date names, read as UTC. */
  function ProcessResponse(headers: map<string, string>): (r: Eval<TokenData>)
    ensures r.Ok? <==> HasHeader(headers, "access_token") && HasHeader(headers, "expires")
                       && HttpDate.Parse(headers["expires"]).Some?
    ensures r.Ok? ==> r.value.accessToken == Str(headers["access_token"])
                      && r.value.expiresAt == HttpDate.Timestamp(HttpDate.Parse(headers["expires"]).value)
  {
    if !HasHeader(headers, "access_token") || !HasHeader(headers, "expires") then Raised
    else
      match HttpDate.Parse(headers["expires"])
      case None => Raised
      case Some(m) => Ok(TokenData(Str(headers["access_token"]), HttpDate.Timestamp(m)))
  }

  /** A response whose `expires` header was formatted from a moment yields
      that moment's timestamp. */
  lemma ProcessFormattedExpiry(headers: map<string, string>, token: string, m: HttpDate.Moment)
    requires HttpDate.ValidMoment(m) && token != ""
    requires headers == map["access_token" := token, "expires" := HttpDate.Format(m)]
    ensures ProcessResponse(headers) == Ok(TokenData(Str(token), HttpDate.Timestamp(m)))
  {
    HttpDate.ParseFormat(m);
  }

  /** One `get_token` call: the state and cache file afterwards, what it
      returned or raised, and whether it asked the endpoint. */
  datatype Outcome = Outcome(state: Service, cache: CacheFile, token: Eval<Json>, fetched: bool)

  /** `_fetch_new_token`: a request error or a non-200 status raises
      `TokenServiceError`, and so does an unusable response; otherwise the
      token is cached (best effort), held in memory and returned. */
  function FetchNewToken(s: Service, cache: CacheFile, reply: TokenReply, writable: bool): (o: Outcome)
    ensures o.fetched
    ensures o.token.Ok? <==> reply.TokenResponse? && reply.status == 200 && ProcessResponse(reply.headers).Ok?
    ensures o.token.Raised? ==> o.state == s && o.cache == cache
    ensures o.token.Ok? ==>
      var t := ProcessResponse(reply.headers).value;
      o.state == s.(token := Some(t)) && o.token == Ok(t.accessToken) && o.cache == SaveToCache(t, cache, writable)
  {
    match reply
    case TokenRequestError => Outcome(s, cache, Raised, true)
    case TokenResponse(status, headers) =>
      if status != 200 then Outcome(s, cache, Raised, true)
      else
        match ProcessResponse(headers)
        case Raised => Outcome(s, cache, Raised, true)
        case Ok(t) => Outcome(s.(token := Some(t)), SaveToCache(t, cache, writable), Ok(t.accessToken), true)
  }

  /** The first two steps of `get_token`: initialize when needed, then
      reload from the cache file when no token is held. */
  function Prepare(s: Service, env: map<string, string>, cache: CacheFile, now: int): (r: Step)
    ensures !r.raised ==> r.state.initialized
    ensures s.initialized && s.token.Some? ==> r == Step(s, false)
    ensures r.raised <==> (!s.initialized && Initialize(s, env, cache, now).raised)
                          || (s.initialized && s.token.None? && LoadCachedToken(cache, now).Raised?)
    ensures !r.raised && r.state.token.Some? && s.token.None? ==> !IsExpired(r.state.token.value, now)
  {
    var init := Initialize(s, env, cache, now);
    if init.raised then init
    else if init.state.token.Some? then init
    else
      match LoadCachedToken(cache, now)
      case Raised => Step(init.state, true)
      case Ok(t) => Step(init.state.(token := t), false)
  }

  /** `get_token`: the held token is returned without asking the endpoint
      exactly when one is held and has not expired; otherwise a new one is
      fetched. */
  function GetToken(s: Service, env: map<string, string>, cache: CacheFile, now: int,
                    reply: TokenReply, writable: bool): (o: Outcome)
    ensures var p := Prepare(s, env, cache, now);
      o.fetched <==> !p.raised && (p.state.token.None? || IsExpired(p.state.token.value, now))
    ensures var p := Prepare(s, env, cache, now);
      p.raised ==> o == Outcome(p.state, cache, Raised, false)
    ensures !o.fetched ==> o.cache == cache
    ensures !o.fetched && o.token.Ok? ==>
      o.state.token.Some? && !IsExpired(o.state.token.value, now) && o.token == Ok(o.state.token.value.accessToken)
    ensures o.fetched ==> o == FetchNewToken(Prepare(s, env, cache, now).state, cache, reply, writable)
    ensures o.token.Ok? ==> o.state.initialized
  {
    var p := Prepare(s, env, cache, now);
    if p.raised then Outcome(p.state, cache, Raised, false)
    else if p.state.token.Some? && !IsExpired(p.state.token.value, now) then
      Outcome(p.state, cache, Ok(p.state.token.value.accessToken), false)
    else FetchNewToken(p.state, cache, reply, writable)
  }

  /** A successful fetch leaves the same token in memory and in a
      writable cache file. */
  lemma FetchStoresBoth(s: Service, env: map<string, string>, cache: CacheFile, now: int, reply: TokenReply)
    requires var o := GetToken(s, env, cache, now, reply, true); o.fetched && o.token.Ok?
    ensures var o := GetToken(s, env, cache, now, reply, true);
      o.state.token.Some? && o.cache.Written? && o.cache.decoded.Some?
      && FromDict(o.cache.decoded.value) == Ok(o.state.token.value)
      && o.token == Ok(o.state.token.value.accessToken)
  {
  }

  /** Until its expiry instant a fetched token is reused: by the same
      instance, and by a reconstructed one through the cache file, with
      no second request. */
  lemma FetchedTokenReused(s: Service, env: map<string, string>, cache: CacheFile, now: int, reply: TokenReply,
                           later: int, reply2: TokenReply, reg: Registry)
    requires AuthSet(env)
    requires var o := GetToken(s, env, cache, now, reply, true); o.fetched && o.token.Ok?
    requires later < GetToken(s, env, cache, now, reply, true).state.token.value.expiresAt
    ensures var o := GetToken(s, env, cache, now, reply, true);
      var again := GetToken(o.state, env, o.cache, later, reply2, true);
      !again.fetched && again.token == o.token
    ensures var o := GetToken(s, env, cache, now, reply, true);
      var rebuilt := GetToken(Construct(reg).instance.value, env, o.cache, later, reply2, true);
      !rebuilt.fetched && rebuilt.token == o.token
  {
    var o := GetToken(s, env, cache, now, reply, true);
    var t := o.state.token.value;
    assert o.cache == SaveToCache(t, cache, true);
    SaveLoadRoundTrip(t, cache, later);
  }

  /** At its expiry instant a token counts as expired: the instance asks
      for a new one, and a reconstructed instance finds nothing usable in
      the cache file. */
  lemma ExpiryInstantFetches(t: TokenData, env: map<string, string>, cache: CacheFile, reply: TokenReply)
    requires AuthSet(env)
    ensures GetToken(Service(true, Some(t)), env, cache, t.expiresAt, reply, true).fetched
    ensures LoadCachedToken(SaveToCache(t, cache, true), t.expiresAt) == Ok(None)
  {
    SaveLoadRoundTrip(t, cache, t.expiresAt);
  }
}

/** The older `TokenService` under `services/`: the cache file is consulted
    on every call, a token is expired only strictly after its instant, and
    the expiry is the request time plus the `expires` seconds of the
    response body. */
module LegacyTokenService {
  import opened PyJson
  import TokenService

  /** The cache file: absent, or present with what `json.load` gave (a
      decoding error is not caught here). */
  datatype LegacyCache = NoCacheFile | CacheFile(content: Eval<Json>)

  /** The token request: the status and what `response.json()` gave, or a
      `RequestException`, which is not caught either. */
  datatype LegacyReply = LegacyResponse(status: int, body: Eval<Json>) | LegacyRequestError

  /** One `get_token` call: the cache file afterwards, what it returned or
      raised, and whether it asked the endpoint. */
  datatype LegacyOutcome = LegacyOutcome(cache: LegacyCache, token: Eval<Json>, fetched: bool)

  /** `__is_token_expired`: `time.time() > cached_token['expires_at']`;
      the comparison raises on a missing key, a non-dict, or an expiry
      that is not a number. */
  function IsTokenExpired(cached: Json, now: int): (r: Eval<bool>)
    ensures r.Ok? <==> cached.Obj? && "expires_at" in cached.fields && NumericValue(cached.fields["expires_at"]).Some?
    ensures r.Ok? ==> (r.value <==> now > NumericValue(cached.fields["expires_at"]).value)
  {
    match Index(cached, "expires_at")
    case Raised => Raised
    case Ok(at) =>
      match NumericValue(at)
      case None => Raised
      case Some(n) => Ok(now > n)
  }

  /** The dict `__save_token_to_cache` writes. */
  function Entry(token: Json, expiresAt: int): Json {
    Obj(map["access_token" := token, "expires_at" := Num(expiresAt)])
  }

  /** The request branch of `__get_access_token`: on 200 the body's
      `access_token` is returned and cached with the expiry `now +
      expires`; any other status raises, and so does a body without the
      keys or with a non-numeric `expires`, or a cache file that cannot be
      written. */
  function Fetch(cache: LegacyCache, now: int, reply: LegacyReply, writable: bool): (o: LegacyOutcome)
    ensures o.fetched
    ensures o.token.Ok? <==>
      reply.LegacyResponse? && reply.status == 200 && reply.body.Ok? && reply.body.value.Obj?
      && "access_token" in reply.body.value.fields && "expires" in reply.body.value.fields
      && NumericValue(reply.body.value.fields["expires"]).Some? && writable
    ensures o.token.Ok? ==>
      var fields := reply.body.value.fields;
      o.token == Ok(fields["access_token"])
      && o.cache == CacheFile(Ok(Entry(fields["access_token"], now + NumericValue(fields["expires"]).value)))
    ensures o.token.Raised? ==> o.cache == cache
  {
    match reply
    case LegacyRequestError => LegacyOutcome(cache, Raised, true)
    case LegacyResponse(status, body) =>
      if status != 200 then LegacyOutcome(cache, Raised, true)
      else
        match body
        case Raised => LegacyOutcome(cache, Raised, true)
        case Ok(data) =>
          match Index(data, "access_token")
          case Raised => LegacyOutcome(cache, Raised, true)
          case Ok(token) =>
            match Index(data, "expires")
            case Raised => LegacyOutcome(cache, Raised, true)
            case Ok(expires) =>
              match NumericValue(expires)
              case None => LegacyOutcome(cache, Raised, true)
              case Some(seconds) =>
                if writable then LegacyOutcome(CacheFile(Ok(Entry(token, now + seconds))), Ok(token), true)
                else LegacyOutcome(cache, Raised, true)
  }

  /** `get_token`, which is `__get_access_token`: a truthy cached value
      that is not expired gives its `access_token` without a request;
      otherwise the endpoint is asked. */
  function GetToken(cache: LegacyCache, now: int, reply: LegacyReply, writable: bool): (o: LegacyOutcome)
    ensures cache.CacheFile? && cache.content.Raised? ==> o == LegacyOutcome(cache, Raised, false)
    ensures o.fetched <==>
      cache.NoCacheFile?
      || (cache.content.Ok? && (!Truthy(cache.content.value) || IsTokenExpired(cache.content.value, now) == Ok(true)))
    ensures !o.fetched ==> o.cache == cache
    ensures !o.fetched && o.token.Ok? ==>
      cache.CacheFile? && cache.content.Ok? && IsTokenExpired(cache.content.value, now) == Ok(false)
      && o.token == Index(cache.content.value, "access_token")
    ensures o.fetched ==> o == Fetch(cache, now, reply, writable)
  {
    var cached := match cache
      case NoCacheFile => Ok(Null)
      case CacheFile(content) => content;
    match cached
    case Raised => LegacyOutcome(cache, Raised, false)
    case Ok(value) =>
      if !Truthy(value) then Fetch(cache, now, reply, writable)
      else
        match IsTokenExpired(value, now)
        case Raised => LegacyOutcome(cache, Raised, false)
        case Ok(expired) =>
          if expired then Fetch(cache, now, reply, writable)
          else LegacyOutcome(cache, Index(value, "access_token"), false)
  }

  /** A cached entry is reused exactly up to and including its expiry
      instant. */
  lemma ReusedUntilExpiry(token: Json, expiresAt: int, now: int, reply: LegacyReply, writable: bool)
    ensures var o := GetToken(CacheFile(Ok(Entry(token, expiresAt))), now, reply, writable);
      (!o.fetched <==> now <= expiresAt) && (!o.fetched ==> o.token == Ok(token))
  {
    assert Truthy(Entry(token, expiresAt));
  }

  /** A fetched token is reused by every later call until `expires`
      seconds after the request. */
  lemma FetchedTokenReused(cache: LegacyCache, now: int, reply: LegacyReply, later: int, reply2: LegacyReply,
                           writable2: bool)
    requires var o := GetToken(cache, now, reply, true); o.fetched && o.token.Ok?
    requires later <= now + NumericValue(reply.body.value.fields["expires"]).value
    ensures var o := GetToken(cache, now, reply, true);
      var again := GetToken(o.cache, later, reply2, writable2);
      !again.fetched && again.token == o.token
  {
    var o := GetToken(cache, now, reply, true);
    var fields := reply.body.value.fields;
    ReusedUntilExpiry(fields["access_token"], now + NumericValue(fields["expires"]).value, later, reply2, writable2);
  }

  /** The two versions write the same entry to the same file, yet at the
      entry's expiry instant the core version discards it and asks for a
      new token while this one still returns it. */
  lemma ExpiryInstantDiffers(token: Json, expiresAt: int, env: map<string, string>,
                             reply: TokenService.TokenReply, legacyReply: LegacyReply)
    requires TokenService.AuthSet(env)
    ensures TokenService.CacheEntry(TokenService.TokenData(token, expiresAt)) == Entry(token, expiresAt)
    ensures var core := TokenService.GetToken(TokenService.Fresh, env,
                                              TokenService.Written(Some(Entry(token, expiresAt))),
                                              expiresAt, reply, true);
      core.fetched
    ensures var legacy := GetToken(CacheFile(Ok(Entry(token, expiresAt))), expiresAt, legacyReply, true);
      !legacy.fetched && legacy.token == Ok(token)
  {
    var t := TokenService.TokenData(token, expiresAt);
    TokenService.SaveLoadRoundTrip(t, TokenService.Missing, expiresAt);
    ReusedUntilExpiry(token, expiresAt, expiresAt, legacyReply, true);
  }
}
