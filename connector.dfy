/** The Connector of embypy/utils/connector.py: construction and validation of
    its configuration, URL construction (get_url), and the bounded retry loop
    shared by get, delete and post. The HTTP transport is abstract: a call is
    given, for each attempt index, the outcome that attempt would have. */
module Connection {
  import opened PyValues
  import opened Strings
  import opened QueryString

  /** The two components of a parsed URL that the connector uses. */
  datatype ParsedUrl = ParsedUrl(scheme: string, netloc: string)

  /** The constructor's keyword arguments. `addressRemote` is the remote
      address when a non-empty one was passed (an empty or None one is falsy
      and ignored); `ws` says whether the keyword `ws` was passed. */
  datatype Kwargs = Kwargs(
    apiKey: Arg<Scalar> := Absent,
    deviceId: Arg<Scalar> := Absent,
    username: Arg<Scalar> := Absent,
    password: Arg<Scalar> := Absent,
    userid: Arg<Scalar> := Absent,
    addressRemote: Option<ParsedUrl> := None,
    tries: Arg<int> := Absent,
    ws: bool := false)

  /** The arguments of get_url, with its defaults; get, delete and post
      forward theirs unchanged. `query` holds the extra keyword arguments. */
  datatype UrlRequest = UrlRequest(
    path: string := "/",
    websocket: bool := false,
    remote: bool := true,
    attachApiKey: bool := true,
    userId: Scalar := Null,
    passUid: bool := false,
    query: Query := [])

  /** The names get_url binds to its own parameters, which a keyword
      argument of `**query` can therefore never carry. */
  const Reserved: set<string> := {"self", "path", "websocket", "remote", "attach_api_key", "userId", "pass_uid"}

  /** What every call of get_url satisfies: its `**query` is a dict, and
      holds none of the names get_url (and get, delete, post) bind to their
      own parameters. */
  predicate ValidRequest(req: UrlRequest) {
    && DistinctKeys(req.query)
    && forall i :: 0 <= i < |req.query| ==> req.query[i].0 !in Reserved
  }

  /** A response; `json` is None when its body does not decode as JSON. */
  datatype Response = Response(status: int, json: Option<Value>)

  /** What one transport call does: return a response or raise. */
  datatype Outcome = Responded(response: Response) | Threw(exc: Exc)

  datatype Verb = GET | DELETE | POST(data: Value)

  /** One transport call issued by the connector. */
  datatype Request = Request(verb: Verb, url: string)

  /** How a retried call ends, and how many attempts it made. */
  datatype Run = Run(result: Result<Option<Response>>, attempts: nat)

  /** The request for the push socket's URL: the defaults of get_url, as a socket. */
  const SocketRequest := UrlRequest(websocket := true)

  const CredentialsMessage := "provide api key and device id or username/password"

  /** The template of the Authorization header, in three fields. */
  const AuthTemplate := "MediaBrowser Client=\"" + "{0}" + "\", Device=\"" + "{0}" + "\", DeviceId=\"" + "{1}"
                        + "\", Version=\"" + "{2}" + "\""

  /** The constructor's check: keys present, whatever their values. */
  predicate CredentialsGiven(kw: Kwargs) {
    (kw.apiKey.Given? && kw.deviceId.Given?) || (kw.username.Given? && kw.password.Given?)
  }

  /** The constructor's login condition, `self.password and self.username`. */
  predicate LoginAttempted(kw: Kwargs) {
    Truthy(kw.password.GetOr(Null)) && Truthy(kw.username.GetOr(Null))
  }

  /** An optional keyword as the constructor reads it from `**kargs`. */
  function KeywordArg(kargs: map<string, Scalar>, name: string): Arg<Scalar> {
    if name in kargs then Given(kargs[name]) else Absent
  }

  /** The credential keywords of `**kargs` as the constructor reads them:
      `kargs.get('api_key')`, `kargs.get('device_id')`, and so on. Its check
      passes exactly when `api_key` and `device_id`, or `username` and
      `password`, are among the keyword names. */
  function CredentialKwargs(kargs: map<string, Scalar>): (kw: Kwargs)
    ensures CredentialsGiven(kw) <==> ("api_key" in kargs && "device_id" in kargs)
                                      || ("username" in kargs && "password" in kargs)
    ensures "api_key" in kargs ==> kw.apiKey == Given(kargs["api_key"])
    ensures "device_id" in kargs ==> kw.deviceId == Given(kargs["device_id"])
  {
    Kwargs(apiKey := KeywordArg(kargs, "api_key"), deviceId := KeywordArg(kargs, "device_id"),
           username := KeywordArg(kargs, "username"), password := KeywordArg(kargs, "password"),
           userid := KeywordArg(kargs, "userid"))
  }

  /** The documentation names the key's keyword `api-key`; the constructor
      looks for `api_key`, so a caller who passes the key and the device id
      as documented fails the check (and Connect raises ValueError). */
  lemma DocumentedKeyRefused(key: Scalar, device: Scalar)
    ensures !CredentialsGiven(CredentialKwargs(map["api-key" := key, "device_id" := device]))
  {
    assert "api_key" !in map["api-key" := key, "device_id" := device];
  }

  /** Under the keyword the constructor reads, the same pair passes the check. */
  lemma ApiKeyAccepted(key: Scalar, device: Scalar)
    ensures var kw := CredentialKwargs(map["api_key" := key, "device_id" := device]);
            CredentialsGiven(kw) && kw.apiKey == Given(key) && kw.deviceId == Given(device)
  {
  }

  /** The Authorization header: the client and device "Navi", then the
      device id and the version, each in double quotes. */
  function AuthorizationHeader(deviceId: string, version: string): string {
    "MediaBrowser Client=\"" + "Navi" + "\", Device=\"" + "Navi" + "\", DeviceId=\"" + deviceId
    + "\", Version=\"" + version + "\""
  }

  /** The header is what `AuthTemplate.format('Navi', device_id, version)`
      gives: each placeholder is replaced by its argument. */
  lemma AuthorizationHeaderFormat(deviceId: string, version: string)
    ensures Format(AuthTemplate, [("0", "Navi"), ("1", deviceId), ("2", version)])
         == AuthorizationHeader(deviceId, version)
  {
    var f := [("0", "Navi"), ("1", deviceId), ("2", version)];
    assert WellNamed(f);
    assert Placeholder("0") == "{0}" && Placeholder("1") == "{1}" && Placeholder("2") == "{2}";
    FormatAuthShape("MediaBrowser Client=\"", "\", Device=\"", "\", DeviceId=\"", "\", Version=\"", "\"",
                    "Navi", deviceId, version, f);
  }

  /** A template of the header's shape formats piece by piece: text is
      copied and each placeholder becomes its field's value. */
  lemma FormatAuthShape(a1: string, a2: string, a3: string, a4: string, a5: string,
                        v0: string, v1: string, v2: string, f: Fields)
    requires WellNamed(f) && ("0", v0) in f && ("1", v1) in f && ("2", v2) in f
    requires '{' !in a1 && '{' !in a2 && '{' !in a3 && '{' !in a4 && '{' !in a5
    requires NeverInsideField('{', f) && NeverInsideField('"', f)
    requires a2 != [] && a3 != [] && a4 != [] && a5 != []
    requires a2[0] == a3[0] == a4[0] == a5[0] == '"'
    ensures Format(a1 + Placeholder("0") + a2 + Placeholder("0") + a3 + Placeholder("1")
                   + a4 + Placeholder("2") + a5, f)
         == a1 + v0 + a2 + v0 + a3 + v1 + a4 + v2 + a5
  {
    var p0, p1, p2 := Placeholder("0"), Placeholder("1"), Placeholder("2");
    FormatAppend(a1, p0, f);
    FormatAppend(a1 + p0, a2, f);
    FormatAppend(a1 + p0 + a2, p0, f);
    FormatAppend(a1 + p0 + a2 + p0, a3, f);
    FormatAppend(a1 + p0 + a2 + p0 + a3, p1, f);
    FormatAppend(a1 + p0 + a2 + p0 + a3 + p1, a4, f);
    FormatAppend(a1 + p0 + a2 + p0 + a3 + p1 + a4, p2, f);
    FormatAppend(a1 + p0 + a2 + p0 + a3 + p1 + a4 + p2, a5, f);
    FormatText(a1, f);
    FormatText(a2, f);
    FormatText(a3, f);
    FormatText(a4, f);
    FormatText(a5, f);
    FormatField("0", v0, f);
    FormatField("1", v1, f);
    FormatField("2", v2, f);
  }

  /** `self.urlremote or self.url` when remote is requested, else `self.url`. */
  function ChooseHost(base: ParsedUrl, remoteUrl: Option<ParsedUrl>, remote: bool): ParsedUrl {
    if remote && remoteUrl.Some? then remoteUrl.value else base
  }

  /** The scheme of the built URL: unchanged, or for a socket the lookup
      `{'http': 'ws', 'https': 'wss'}[scheme]`, which fails for any other scheme. */
  function SchemeFor(scheme: string, websocket: bool): (r: Option<string>)
    ensures !websocket ==> r == Some(scheme)
    ensures websocket ==> (r.Some? <==> scheme == "http" || scheme == "https")
    ensures websocket && r.Some? ==> r.value == if scheme == "http" then "ws" else "wss"
  {
    if !websocket then Some(scheme)
    else if scheme == "http" then Some("ws")
    else if scheme == "https" then Some("wss")
    else None
  }

  /** `urlunparse((scheme, netloc, path, '', query, ''))` for the non-empty
      netloc that get_url always passes: a path not starting with '/' gets one,
      the scheme is followed by ':' when present, a non-empty query by '?'. */
  function Unparse(scheme: string, netloc: string, path: string, query: string): string {
    var path' := if path != "" && path[0] != '/' then "/" + path else path;
    var url := "//" + netloc + path';
    var url := if scheme != "" then scheme + ":" + url else url;
    if query != "" then url + "?" + query else url
  }

  /** The outcomes that the retry loop catches (`Timeout`, `ConnectionError`). */
  predicate Transient(o: Outcome) {
    o.Threw? && (o.exc.isTimeout || o.exc.isConnectionError)
  }

  /** The exception that a caught failure raises on the last attempt; the
      Timeout clause is tried first. */
  function Surfaced(exc: Exc, url: string): Error {
    if exc.isTimeout then Timeout("Timeout ", url) else ConnectionError("Emby server is probably down")
  }

  /** The retry policy from attempt i on: `for i in range(tries)`, returning
      the first response, swallowing caught failures except on the last
      attempt, and letting any other exception through at once. */
  function RetryFrom(tries: int, url: string, outcomes: nat -> Outcome, i: nat): Run
    decreases tries - i
  {
    if i >= tries then Run(Ok(None), i)
    else match outcomes(i)
      case Responded(resp) => Run(Ok(Some(resp)), i + 1)
      case Threw(exc) =>
        if exc.isTimeout || exc.isConnectionError then
          if i >= tries - 1 then Run(Err(Surfaced(exc, url)), i + 1)
          else RetryFrom(tries, url, outcomes, i + 1)
        else Run(Err(Uncaught(exc)), i + 1)
  }

  function Retry(tries: int, url: string, outcomes: nat -> Outcome): Run {
    RetryFrom(tries, url, outcomes, 0)
  }

  /** Caught failures before attempt j are skipped over. */
  lemma {:induction false} RetrySkip(tries: int, url: string, outcomes: nat -> Outcome, i: nat, j: nat)
    requires i <= j < tries
    requires forall k :: i <= k < j ==> Transient(outcomes(k))
    ensures RetryFrom(tries, url, outcomes, i) == RetryFrom(tries, url, outcomes, j)
    decreases j - i
  {
    if i < j {
      assert Transient(outcomes(i));
      RetrySkip(tries, url, outcomes, i + 1, j);
    }
  }

  /** With no attempts allowed, nothing is sent and the call returns None. */
  lemma RetryNoTries(tries: int, url: string, outcomes: nat -> Outcome)
    requires tries <= 0
    ensures Retry(tries, url, outcomes) == Run(Ok(None), 0)
  {
  }

  /** The first response that follows only caught failures is returned, and
      no later attempt is made. */
  lemma RetryFirstResponse(tries: int, url: string, outcomes: nat -> Outcome, j: nat)
    requires j < tries && outcomes(j).Responded?
    requires forall k :: 0 <= k < j ==> Transient(outcomes(k))
    ensures Retry(tries, url, outcomes) == Run(Ok(Some(outcomes(j).response)), j + 1)
  {
    RetrySkip(tries, url, outcomes, 0, j);
  }

  /** An exception of another kind propagates from the attempt it occurs on,
      without retry. */
  lemma RetryUncaught(tries: int, url: string, outcomes: nat -> Outcome, j: nat)
    requires j < tries && outcomes(j).Threw? && !Transient(outcomes(j))
    requires forall k :: 0 <= k < j ==> Transient(outcomes(k))
    ensures Retry(tries, url, outcomes) == Run(Err(Uncaught(outcomes(j).exc)), j + 1)
  {
    RetrySkip(tries, url, outcomes, 0, j);
  }

  /** When every attempt fails in a caught way, all tries are made and only
      the last failure surfaces, as the exception matching its kind. */
  lemma RetryExhausted(tries: int, url: string, outcomes: nat -> Outcome)
    requires tries > 0
    requires forall k :: 0 <= k < tries - 1 ==> Transient(outcomes(k))
    requires Transient(outcomes(tries - 1))
    ensures Retry(tries, url, outcomes) == Run(Err(Surfaced(outcomes(tries - 1).exc, url)), tries)
  {
    RetrySkip(tries, url, outcomes, 0, tries - 1);
  }

  /** Every run makes at most `tries` attempts, at least one when tries > 0,
      and all attempts but the last failed in a caught way. */
  lemma {:induction false} RetryAttempts(tries: int, url: string, outcomes: nat -> Outcome, i: nat)
    requires i < tries
    ensures i < RetryFrom(tries, url, outcomes, i).attempts <= tries
    ensures forall k :: i <= k < RetryFrom(tries, url, outcomes, i).attempts - 1 ==> Transient(outcomes(k))
    decreases tries - i
  {
    if i < tries - 1 && Transient(outcomes(i)) {
      RetryAttempts(tries, url, outcomes, i + 1);
    }
  }

  /** The value getJson produces from the result of get: `.json()` of the
      response, or AttributeError when get returned None. */
  function JsonOf(g: Result<Option<Response>>): Result<Value> {
    match g
    case Err(e) => Err(e)
    case Ok(None) => Err(AttributeError("json"))
    case Ok(Some(resp)) => if resp.json.Some? then Ok(resp.json.value) else Err(JsonDecodeError)
  }

  /** `if c: q[k] = v` */
  function SetWhen(c: bool, q: Query, k: string, v: Scalar): (r: Query)
    requires DistinctKeys(q)
    ensures DistinctKeys(r) && |r| >= |q|
    ensures forall i :: 0 <= i < |q| ==> r[i].0 == q[i].0
    ensures forall key :: Lookup(r, key) == if c && key == k then Some(v) else Lookup(q, key)
  {
    if c then
      var r := Set(q, k, v);
      forall key ensures Lookup(r, key) == if key == k then Some(v) else Lookup(q, key) {
        LookupSet(q, k, v, key);
      }
      r
    else q
  }

  /** With no attempt allowed get returns None, and getJson then fails on
      `None.json()`. */
  lemma JsonOfNoTries(tries: int, url: string, outcomes: nat -> Outcome)
    requires tries <= 0
    ensures JsonOf(Retry(tries, url, outcomes).result) == Err(AttributeError("json"))
  {
    RetryNoTries(tries, url, outcomes);
  }

  class Connector {
    const url: ParsedUrl
    const urlRemote: Option<ParsedUrl>
    const userId: Scalar
    const apiKey: Scalar
    const username: Scalar
    const password: Scalar
    const deviceId: Scalar
    const tries: int
    /** the access token; never set by the modelled code */
    var token: string
    /** the session's default headers */
    var headers: map<string, string>
    /** the URL the push socket is opened on, when `ws` was passed */
    var socketUrl: Option<string>

    ghost predicate Initial(url: ParsedUrl, kw: Kwargs, version: string, quote: Quoter)
      reads this
    {
      && this.url == url
      && urlRemote == kw.addressRemote
      && userId == kw.userid.GetOr(Null)
      && apiKey == kw.apiKey.GetOr(Null)
      && username == kw.username.GetOr(Null)
      && password == kw.password.GetOr(Null)
      && deviceId == kw.deviceId.GetOr(Null)
      && tries == kw.tries.GetOr(3)
      && token == ""
      && headers == map["Authorization" := AuthorizationHeader(Show(deviceId), version)]
      && SocketOpened(kw.ws, quote)
    }

    /** The push socket's URL: get_url's socket URL when `ws` was passed,
        none otherwise. */
    ghost predicate SocketOpened(ws: bool, quote: Quoter)
      reads this
    {
      && (ws ==> UrlFor(SocketRequest, quote).Ok? && socketUrl == Some(UrlFor(SocketRequest, quote).value))
      && (!ws ==> socketUrl == None)
    }

    /** The constructor past its three failure points (see Connect). */
    constructor (url: ParsedUrl, kw: Kwargs, version: string, quote: Quoter)
      requires CredentialsGiven(kw)
      requires kw.ws ==> SchemeFor(ChooseHost(url, kw.addressRemote, true).scheme, true).Some?
      requires !LoginAttempted(kw)
      ensures Initial(url, kw, version, quote)
    {
      this.url := url;
      urlRemote := kw.addressRemote;
      userId := kw.userid.GetOr(Null);
      apiKey := kw.apiKey.GetOr(Null);
      username := kw.username.GetOr(Null);
      password := kw.password.GetOr(Null);
      deviceId := kw.deviceId.GetOr(Null);
      tries := kw.tries.GetOr(3);
      token := "";
      new;
      OpenSocket(kw.ws, quote);
      headers := map["Authorization" := AuthorizationHeader(Show(deviceId), version)];
    }

    /** `self.ws = WebSocket(self, self.get_url(websocket=True), ...) if 'ws'
        in kargs else None`: the socket is represented by its URL. */
    method OpenSocket(ws: bool, quote: Quoter)
      requires ws ==> SchemeFor(ChooseHost(url, urlRemote, true).scheme, true).Some?
      modifies this`socketUrl
      ensures SocketOpened(ws, quote)
    {
      if ws {
        var u := GetUrl(SocketRequest, quote);
        socketUrl := Some(u.value);
      } else {
        socketUrl := None;
      }
    }

    /** `Connector(url, **kargs)`: raises ValueError when neither the api key
        and device id nor the username and password were passed; KeyError
        when a push socket is requested on a scheme other than http or https;
        NameError when the login block is entered (both username and password
        truthy), whose first step evaluates the undefined `pw`; otherwise a
        new connector. */
    static method Connect(url: ParsedUrl, kw: Kwargs, version: string, quote: Quoter)
      returns (r: Result<Connector>)
      ensures r.Err? <==> !CredentialsGiven(kw)
                          || (kw.ws && SchemeFor(ChooseHost(url, kw.addressRemote, true).scheme, true).None?)
                          || LoginAttempted(kw)
      ensures !CredentialsGiven(kw) ==> r == Err(ValueError(CredentialsMessage))
      ensures CredentialsGiven(kw) && kw.ws && SchemeFor(ChooseHost(url, kw.addressRemote, true).scheme, true).None?
              ==> r == Err(KeyError(ChooseHost(url, kw.addressRemote, true).scheme))
      ensures && CredentialsGiven(kw)
              && !(kw.ws && SchemeFor(ChooseHost(url, kw.addressRemote, true).scheme, true).None?)
              && LoginAttempted(kw)
              ==> r == Err(NameError("pw"))
      ensures r.Ok? ==> fresh(r.value) && r.value.Initial(url, kw, version, quote)
    {
      if !CredentialsGiven(kw) {
        return Err(ValueError(CredentialsMessage));
      }
      var host := ChooseHost(url, kw.addressRemote, true);
      if kw.ws && SchemeFor(host.scheme, true).None? {
        return Err(KeyError(host.scheme));
      }
      if LoginAttempted(kw) {
        return Err(NameError("pw"));
      }
      var c := new Connector(url, kw, version, quote);
      r := Ok(c);
    }

    /** `userId or self.userid` */
    function ResolveUserId(given: Scalar): Scalar {
      if Truthy(given) then given else userId
    }

    /** The value each key has in the query get_url encodes: `userId` is
        the resolved user id when passing it, `api_key` and `deviceId` are
        the connector's when attaching the key, and every other key keeps the
        caller's value. */
    function QueryValue(req: UrlRequest, k: string): Option<Scalar>
      requires ValidRequest(req)
    {
      if req.passUid && k == "userId" then Some(ResolveUserId(req.userId))
      else if req.attachApiKey && k == "api_key" then Some(apiKey)
      else if req.attachApiKey && k == "deviceId" then Some(deviceId)
      else Lookup(req.query, k)
    }

    /** The query get_url encodes: the caller's keys in their order, then
        `api_key` and `deviceId` when attaching the key, then `userId` when
        passing it (each one overriding in place a key the caller gave). */
    function FinalQuery(req: UrlRequest): (q: Query)
      requires ValidRequest(req)
      ensures DistinctKeys(q) && |q| >= |req.query|
      ensures forall i :: 0 <= i < |req.query| ==> q[i].0 == req.query[i].0
      ensures forall k :: Lookup(q, k) == QueryValue(req, k)
    {
      var q1 := SetWhen(req.attachApiKey, req.query, "api_key", apiKey);
      var q2 := SetWhen(req.attachApiKey, q1, "deviceId", deviceId);
      var q := SetWhen(req.passUid, q2, "userId", ResolveUserId(req.userId));
      forall k ensures Lookup(q, k) == QueryValue(req, k) {
        assert Lookup(q1, k) == if req.attachApiKey && k == "api_key" then Some(apiKey) else Lookup(req.query, k);
        assert Lookup(q2, k) == if req.attachApiKey && k == "deviceId" then Some(deviceId) else Lookup(q1, k);
        assert Lookup(q, k) == if req.passUid && k == "userId" then Some(ResolveUserId(req.userId)) else Lookup(q2, k);
      }
      q
    }

    /** The query holds `userId` exactly when pass_uid is set: a caller's
        keyword argument can never be named userId. */
    lemma UserIdPassed(req: UrlRequest)
      requires ValidRequest(req)
      ensures req.passUid <==> HasKey(FinalQuery(req), "userId")
    {
      assert !HasKey(req.query, "userId") by {
        assert "userId" in Reserved;
      }
      assert Lookup(FinalQuery(req), "userId") == QueryValue(req, "userId");
    }

    /** The fields `str.format` fills in the URL template. */
    function UrlFields(uid: Scalar, params: string): Fields {
      [("UserId", Show(uid)), ("ApiKey", Show(apiKey)), ("DeviceId", Show(deviceId)), ("params", params)]
    }

    /** What get_url returns: the formatted `scheme://netloc/emby<path>`,
        followed by `?` and the encoded query exactly when the query is not
        empty; KeyError for a socket URL on a scheme other than http/https. */
    function UrlFor(req: UrlRequest, quote: Quoter): Result<string>
      requires ValidRequest(req)
    {
      var host := ChooseHost(url, urlRemote, req.remote);
      match SchemeFor(host.scheme, req.websocket)
      case None => Err(KeyError(host.scheme))
      case Some(scheme) =>
        Ok(Assembled(scheme, host.netloc + "/emby", req.path, ResolveUserId(req.userId), FinalQuery(req), quote))
    }

    /** The formatted `scheme://netloc<path>`, then `?` and the encoded
        query exactly when the query is not empty. */
    function Assembled(scheme: string, netloc: string, path: string, uid: Scalar, q: Query, quote: Quoter): string {
      var params := Encode(q, quote);
      var base := Format(Unparse(scheme, netloc, path, ""), UrlFields(uid, params));
      if q == [] then base else base + "?" + params
    }

    /** get_url as written: the query dict is updated in place, the host
        and scheme are chosen, and the URL is rendered. */
    method GetUrl(req: UrlRequest, quote: Quoter) returns (r: Result<string>)
      requires ValidRequest(req)
      ensures r == UrlFor(req, quote)
    {
      var uid := if Truthy(req.userId) then req.userId else userId;
      var query := BuildQuery(req, uid);
      var host := if req.remote && urlRemote.Some? then urlRemote.value else url;
      var scheme;
      if req.websocket {
        if host.scheme == "http" {
          scheme := "ws";
        } else if host.scheme == "https" {
          scheme := "wss";
        } else {
          return Err(KeyError(host.scheme));
        }
      } else {
        scheme := host.scheme;
      }
      assert host == ChooseHost(url, urlRemote, req.remote) && uid == ResolveUserId(req.userId);
      assert SchemeFor(host.scheme, req.websocket) == Some(scheme);
      UrlForAssembled(req, quote);
      var u := RenderUrl(scheme, host.netloc + "/emby", req.path, uid, query, quote);
      r := Ok(u);
    }

    /** The head of get_url: the `**query` dict gets `api_key` and
        `deviceId` when attaching the key, then `userId` when passing it. */
    method BuildQuery(req: UrlRequest, uid: Scalar) returns (query: Query)
      requires ValidRequest(req) && uid == ResolveUserId(req.userId)
      ensures query == FinalQuery(req)
    {
      query := req.query;
      if req.attachApiKey {
        query := Set(query, "api_key", apiKey);
        query := Set(query, "deviceId", deviceId);
      }
      if req.passUid {
        query := Set(query, "userId", uid);
      }
    }

    /** The tail of get_url: unparse with the query slot `{params}`, format
        the whole string, and drop one trailing '?'. */
    method RenderUrl(scheme: string, netloc: string, path: string, uid: Scalar, query: Query, quote: Quoter)
      returns (u: string)
      ensures u == Assembled(scheme, netloc, path, uid, query, quote)
    {
      var params := Encode(query, quote);
      var fields := UrlFields(uid, params);
      var full := Format(Unparse(scheme, netloc, path, "{params}"), fields);
      var base := Format(Unparse(scheme, netloc, path, ""), fields);
      assert full == base + "?" + params by {
        var prefix := Unparse(scheme, netloc, path, "");
        assert Unparse(scheme, netloc, path, "{params}") == prefix + "?" + "{params}";
        ParamsSlot(prefix, uid, params);
      }
      DropTrailingMark(base, params);
      if full[|full| - 1] == '?' {
        u := full[..|full| - 1];
      } else {
        u := full;
      }
    }

    /** UrlFor on a host whose scheme maps, in terms of Assembled. */
    lemma UrlForAssembled(req: UrlRequest, quote: Quoter)
      requires ValidRequest(req)
      requires SchemeFor(ChooseHost(url, urlRemote, req.remote).scheme, req.websocket).Some?
      ensures var host := ChooseHost(url, urlRemote, req.remote);
              UrlFor(req, quote) == Ok(Assembled(SchemeFor(host.scheme, req.websocket).value, host.netloc + "/emby",
                                                 req.path, ResolveUserId(req.userId), FinalQuery(req), quote))
    {
    }

    /** The shape of a URL get_url returns for a path starting with '/' on a
        host whose scheme and netloc hold no '{': the (socket) scheme, the
        host under /emby, the path with its placeholders filled, and '?' with
        the encoded query exactly when the query is not empty. */
    lemma UrlShape(req: UrlRequest, quote: Quoter)
      requires ValidRequest(req)
      requires req.path != [] && req.path[0] == '/'
      requires var host := ChooseHost(url, urlRemote, req.remote);
               host.scheme != "" && '{' !in host.scheme && '{' !in host.netloc
      ensures var host := ChooseHost(url, urlRemote, req.remote);
              var q := FinalQuery(req);
              var params := Encode(q, quote);
              SchemeFor(host.scheme, req.websocket).Some? ==>
                UrlFor(req, quote) == Ok(SchemeFor(host.scheme, req.websocket).value + "://" + host.netloc + "/emby"
                                         + Format(req.path, UrlFields(ResolveUserId(req.userId), params))
                                         + (if q == [] then "" else "?" + params))
    {
      var host := ChooseHost(url, urlRemote, req.remote);
      if SchemeFor(host.scheme, req.websocket).Some? {
        var scheme := SchemeFor(host.scheme, req.websocket).value;
        UrlForAssembled(req, quote);
        AssembledShape(scheme, host.netloc, req.path, ResolveUserId(req.userId), FinalQuery(req), quote);
      }
    }

    /** get, delete and post leave get_url's `remote` at its default, true,
        so once a remote address is configured every request they send goes
        to that address's host, not to `url`. */
    lemma RequestsGoRemote(verb: Verb, req: UrlRequest, quote: Quoter)
      requires ValidRequest(req) && req.remote && urlRemote.Some?
      requires req.path != [] && req.path[0] == '/'
      requires urlRemote.value.scheme != "" && '{' !in urlRemote.value.scheme && '{' !in urlRemote.value.netloc
      ensures SchemeFor(urlRemote.value.scheme, req.websocket).Some? ==>
                && UrlFor(req, quote).Ok?
                && SchemeFor(urlRemote.value.scheme, req.websocket).value + "://" + urlRemote.value.netloc + "/emby"
                   <= Sends(verb, req, quote).url
    {
      UrlShape(req, quote);
    }

    /** With `remote=False` a request goes to the host of `url`, whether or
        not a remote address is configured. */
    lemma LocalRequests(verb: Verb, req: UrlRequest, quote: Quoter)
      requires ValidRequest(req) && !req.remote
      requires req.path != [] && req.path[0] == '/'
      requires url.scheme != "" && '{' !in url.scheme && '{' !in url.netloc
      ensures SchemeFor(url.scheme, req.websocket).Some? ==>
                && UrlFor(req, quote).Ok?
                && SchemeFor(url.scheme, req.websocket).value + "://" + url.netloc + "/emby"
                   <= Sends(verb, req, quote).url
    {
      UrlShape(req, quote);
    }

    lemma AssembledShape(scheme: string, netloc: string, path: string, uid: Scalar, q: Query, quote: Quoter)
      requires scheme != "" && '{' !in scheme && '{' !in netloc
      requires path != [] && path[0] == '/'
      ensures var params := Encode(q, quote);
              Assembled(scheme, netloc + "/emby", path, uid, q, quote)
                == scheme + "://" + netloc + "/emby" + Format(path, UrlFields(uid, params))
                   + (if q == [] then "" else "?" + params)
    {
      var params := Encode(q, quote);
      var fields := UrlFields(uid, params);
      var prefix := scheme + "://" + netloc + "/emby";
      UnparsePlain(scheme, netloc, path);
      FormatTextThen(prefix, path, fields);
    }

    /** With no query, urlunparse joins the parts; the joined prefix holds
        no '{' when scheme and netloc hold none. */
    static lemma UnparsePlain(scheme: string, netloc: string, path: string)
      requires scheme != "" && '{' !in scheme && '{' !in netloc
      requires path != [] && path[0] == '/'
      ensures Unparse(scheme, netloc + "/emby", path, "") == scheme + "://" + netloc + "/emby" + path
      ensures '{' !in scheme + "://" + netloc + "/emby"
    {
      var prefix := scheme + "://" + netloc + "/emby";
      assert forall c :: c in prefix ==> c in scheme || c in "://" || c in netloc || c in "/emby";
    }

    /** With a non-empty query the URL does not end in '?'; by default the key
        is attached, so the query is never empty. */
    lemma NoTrailingMark(req: UrlRequest, quote: Quoter)
      requires ValidRequest(req)
      requires FinalQuery(req) != [] || req.attachApiKey
      ensures UrlFor(req, quote).Ok? ==> UrlFor(req, quote).value[|UrlFor(req, quote).value| - 1] != '?'
    {
      if req.attachApiKey {
        KeyAttached(req);
      }
      var host := ChooseHost(url, urlRemote, req.remote);
      if SchemeFor(host.scheme, req.websocket).Some? {
        UrlForAssembled(req, quote);
        AssembledEnd(SchemeFor(host.scheme, req.websocket).value, host.netloc + "/emby", req.path,
                     ResolveUserId(req.userId), FinalQuery(req), quote);
      }
    }

    /** Attaching the key leaves the query non-empty. */
    lemma KeyAttached(req: UrlRequest)
      requires ValidRequest(req) && req.attachApiKey
      ensures FinalQuery(req) != []
    {
      assert Lookup(FinalQuery(req), "api_key").Some?;
    }

    /** With a non-empty query the assembled URL ends in the last character
        of the encoded query, which is not '?'. */
    lemma AssembledEnd(scheme: string, netloc: string, path: string, uid: Scalar, q: Query, quote: Quoter)
      requires q != []
      ensures var u := Assembled(scheme, netloc, path, uid, q, quote); u[|u| - 1] != '?'
    {
      var params := Encode(q, quote);
      var u := Assembled(scheme, netloc, path, uid, q, quote);
      assert params != "";
      assert u[|u| - 1] == params[|params| - 1];
      assert params[|params| - 1] in params;
    }

    /** Attaching the key replaces in place an `api_key` or `deviceId` the
        caller gave, and appends the missing ones after the caller's
        parameters, `api_key` before `deviceId`; passing the user id then
        appends `userId`. With neither credential given, both are appended. */
    lemma CredentialsAppended(req: UrlRequest)
      requires ValidRequest(req)
      requires req.attachApiKey
      ensures FinalQuery(req) == Replaced(Replaced(req.query, "api_key", apiKey), "deviceId", deviceId)
                                 + (if HasKey(req.query, "api_key") then [] else [("api_key", apiKey)])
                                 + (if HasKey(req.query, "deviceId") then [] else [("deviceId", deviceId)])
                                 + (if req.passUid then [("userId", ResolveUserId(req.userId))] else [])
      ensures !HasKey(req.query, "api_key") && !HasKey(req.query, "deviceId") ==>
                FinalQuery(req) == req.query + [("api_key", apiKey), ("deviceId", deviceId)]
                                   + (if req.passUid then [("userId", ResolveUserId(req.userId))] else [])
    {
      var q := req.query;
      SetTwice(q, "api_key", apiKey, "deviceId", deviceId);
      var q2 := Set(Set(q, "api_key", apiKey), "deviceId", deviceId);
      if req.passUid {
        assert !HasKey(q, "userId") by {
          assert "userId" in Reserved;
        }
        SetTwiceKeys(q, "api_key", apiKey, "deviceId", deviceId, "userId");
        SetAppends(q2, "userId", ResolveUserId(req.userId));
      } else {
        assert q2 + [] == q2;
      }
      if !HasKey(q, "api_key") && !HasKey(q, "deviceId") {
        ReplacedAbsent(q, "api_key", apiKey);
        ReplacedAbsent(q, "deviceId", deviceId);
      }
    }

    /** The three placeholders get_url fills: `{UserId}` with the resolved
        user id, `{ApiKey}` with the key and `{DeviceId}` with the device id. */
    lemma PathPlaceholders(uid: Scalar, params: string, rest: string)
      ensures Format(Placeholder("UserId") + rest, UrlFields(uid, params)) == Show(uid) + Format(rest, UrlFields(uid, params))
      ensures Format(Placeholder("ApiKey") + rest, UrlFields(uid, params)) == Show(apiKey) + Format(rest, UrlFields(uid, params))
      ensures Format(Placeholder("DeviceId") + rest, UrlFields(uid, params)) == Show(deviceId) + Format(rest, UrlFields(uid, params))
    {
      var fields := UrlFields(uid, params);
      UrlFieldsWellNamed(uid, params);
      assert fields[0] == ("UserId", Show(uid)) && fields[1] == ("ApiKey", Show(apiKey)) && fields[2] == ("DeviceId", Show(deviceId));
      FormatFieldThen("UserId", Show(uid), rest, fields);
      FormatFieldThen("ApiKey", Show(apiKey), rest, fields);
      FormatFieldThen("DeviceId", Show(deviceId), rest, fields);
    }

    /** Dropping one trailing '?' from `base?params` leaves base exactly when
        params is empty (an encoded query never holds a '?'). */
    static lemma DropTrailingMark(base: string, params: string)
      requires '?' !in params
      ensures var full := base + "?" + params;
              (full[|full| - 1] == '?' <==> params == "")
              && (params == "" ==> full[..|full| - 1] == base)
    {
      var full := base + "?" + params;
      if params != "" {
        assert full[|full| - 1] == params[|params| - 1];
        assert params[|params| - 1] in params;
      }
    }

    /** Formatting the template with its query slot appends '?' and the
        encoded query to the formatted rest. */
    lemma ParamsSlot(prefix: string, uid: Scalar, params: string)
      ensures Format(prefix + "?" + "{params}", UrlFields(uid, params))
           == Format(prefix, UrlFields(uid, params)) + "?" + params
    {
      var fields := UrlFields(uid, params);
      UrlFieldsWellNamed(uid, params);
      assert fields[3] == ("params", params);
      assert Placeholder("params") == "{params}";
      FormatSlot(prefix, "params", params, fields);
    }

    lemma UrlFieldsWellNamed(uid: Scalar, params: string)
      ensures WellNamed(UrlFields(uid, params))
    {
    }

    /** The retry loop of get, delete and post. */
    method Send(verb: Verb, target: string, outcomes: nat -> Outcome)
      returns (r: Result<Option<Response>>, sent: seq<Request>)
      ensures Run(r, |sent|) == Retry(tries, target, outcomes)
      ensures forall k :: 0 <= k < |sent| ==> sent[k] == Request(verb, target)
    {
      sent := [];
      var i := 0;
      while i < tries
        invariant 0 <= i && (tries > 0 ==> i < tries)
        invariant |sent| == i
        invariant forall k :: 0 <= k < i ==> sent[k] == Request(verb, target)
        invariant RetryFrom(tries, target, outcomes, i) == Retry(tries, target, outcomes)
        decreases tries - i
      {
        sent := sent + [Request(verb, target)];
        match outcomes(i)
        case Responded(resp) =>
          return Ok(Some(resp)), sent;
        case Threw(exc) =>
          if exc.isTimeout {
            if i >= tries - 1 {
              return Err(Timeout("Timeout ", target)), sent;
            }
          } else if exc.isConnectionError {
            if i >= tries - 1 {
              return Err(ConnectionError("Emby server is probably down")), sent;
            }
          } else {
            return Err(Uncaught(exc)), sent;
          }
        i := i + 1;
      }
      r := Ok(None);
    }

    /** The result of a get, delete or post: the URL error, or the retried call. */
    function Fetch(req: UrlRequest, quote: Quoter, outcomes: nat -> Outcome): Run
      requires ValidRequest(req)
    {
      match UrlFor(req, quote)
      case Err(e) => Run(Err(e), 0)
      case Ok(u) => Retry(tries, u, outcomes)
    }

    /** The request every attempt of a call sends. */
    function Sends(verb: Verb, req: UrlRequest, quote: Quoter): Request
      requires ValidRequest(req)
    {
      var u := UrlFor(req, quote);
      Request(verb, if u.Ok? then u.value else "")
    }

    method Call(verb: Verb, req: UrlRequest, quote: Quoter, outcomes: nat -> Outcome)
      returns (r: Result<Option<Response>>, sent: seq<Request>)
      requires ValidRequest(req)
      ensures Run(r, |sent|) == Fetch(req, quote, outcomes)
      ensures forall k :: 0 <= k < |sent| ==> sent[k] == Sends(verb, req, quote)
    {
      var u := GetUrl(req, quote);
      if u.Err? {
        return Err(u.error), [];
      }
      r, sent := Send(verb, u.value, outcomes);
    }

    /** `get(path, **query)` */
    method Get(req: UrlRequest, quote: Quoter, outcomes: nat -> Outcome)
      returns (r: Result<Option<Response>>, sent: seq<Request>)
      requires ValidRequest(req)
      ensures Run(r, |sent|) == Fetch(req, quote, outcomes)
      ensures forall k :: 0 <= k < |sent| ==> sent[k] == Sends(GET, req, quote)
    {
      r, sent := Call(GET, req, quote, outcomes);
    }

    /** `delete(path, **query)` */
    method Delete(req: UrlRequest, quote: Quoter, outcomes: nat -> Outcome)
      returns (r: Result<Option<Response>>, sent: seq<Request>)
      requires ValidRequest(req)
      ensures Run(r, |sent|) == Fetch(req, quote, outcomes)
      ensures forall k :: 0 <= k < |sent| ==> sent[k] == Sends(DELETE, req, quote)
    {
      r, sent := Call(DELETE, req, quote, outcomes);
    }

    /** `post(path, data={}, **params)`: the data goes as the JSON body. */
    method Post(req: UrlRequest, quote: Quoter, outcomes: nat -> Outcome, data: Value := VDict(map[]))
      returns (r: Result<Option<Response>>, sent: seq<Request>)
      requires ValidRequest(req) && !HasKey(req.query, "data")
      ensures Run(r, |sent|) == Fetch(req, quote, outcomes)
      ensures forall k :: 0 <= k < |sent| ==> sent[k] == Sends(POST(data), req, quote)
    {
      r, sent := Call(POST(data), req, quote, outcomes);
    }

    /** `getJson(path, **query)`: get, then decode the body. */
    method GetJson(req: UrlRequest, quote: Quoter, outcomes: nat -> Outcome)
      returns (r: Result<Value>, sent: seq<Request>)
      requires ValidRequest(req)
      ensures r == JsonOf(Fetch(req, quote, outcomes).result)
      ensures |sent| == Fetch(req, quote, outcomes).attempts
      ensures forall k :: 0 <= k < |sent| ==> sent[k] == Sends(GET, req, quote)
    {
      var g;
      g, sent := Get(req, quote, outcomes);
      r := JsonOf(g);
    }
  }
}
