/** The request policy of client.go: how `MakeRequest` assembles the
    headers of each attempt, classifies the status, and retries transient
    transport errors with exponential backoff after one rate-limiter wait;
    the error predicate `isConnectionClosedError`; and the byte counter of
    `ProgressReader`. Sending is an oracle: `send(k)` is what the HTTP
    client returns for attempt k. */
module Client {
  import opened Common

  const MaxRetries: nat := 3
  /** `time.Second`, in nanoseconds. */
  const Second: int := 1_000_000_000
  const StatusOK: int := 200
  const StatusUnauthorized: int := 401

  const UserAgentKey: string := "User-Agent"
  const AcceptKey: string := "Accept"
  const ConnectionKey: string := "Connection"
  const AuthorizationKey: string := "Authorization"
  const AcceptManifestV2: string := "application/vnd.docker.distribution.manifest.v2+json"
  const KeepAlive: string := "keep-alive"
  const BearerPrefix: string := "Bearer "

  // ---------------------------------------------------------------------
  // Header names as `Header.Set` stores them (textproto.CanonicalMIMEHeaderKey)

  /** The octets RFC 7230 allows in a header name. */
  predicate IsTokenChar(c: char) {
    || '0' <= c <= '9' || 'a' <= c <= 'z' || 'A' <= c <= 'Z'
    || c == '!' || c == '#' || c == '$' || c == '%' || c == '&' || c == '\'' || c == '*'
    || c == '+' || c == '-' || c == '.' || c == '^' || c == '_' || c == '`' || c == '|' || c == '~'
  }

  function ToUpper(c: char): char {
    if 'a' <= c <= 'z' then (c as int - 32) as char else c
  }

  function ToLower(c: char): char {
    if 'A' <= c <= 'Z' then (c as int + 32) as char else c
  }

  /** Upper case at the start and after each '-', lower case elsewhere. */
  function CaseFold(k: string, upper: bool): (r: string)
    ensures |r| == |k|
  {
    if k == [] then []
    else [if upper then ToUpper(k[0]) else ToLower(k[0])] + CaseFold(k[1..], k[0] == '-')
  }

  /** The character rule `CaseFold` applies at each position. */
  function FoldAt(k: string, upper: bool, i: nat): char
    requires i < |k|
  {
    if (if i == 0 then upper else k[i - 1] == '-') then ToUpper(k[i]) else ToLower(k[i])
  }

  lemma {:induction false} CaseFoldAt(k: string, upper: bool, i: nat)
    requires i < |k|
    ensures CaseFold(k, upper)[i] == FoldAt(k, upper, i)
  {
    if i > 0 {
      CaseFoldAt(k[1..], k[0] == '-', i - 1);
    }
  }

  predicate IsTokenString(k: string) {
    forall i :: 0 <= i < |k| ==> IsTokenChar(k[i])
  }

  /** A name with a non-token character is kept as given. */
  function CanonicalKey(k: string): (r: string)
    ensures |r| == |k|
    ensures !IsTokenString(k) ==> r == k
  {
    if IsTokenString(k) then CaseFold(k, true) else k
  }

  /** Canonicalising twice changes nothing, so names that `Set` stores
      are already in the form it would store them in. */
  lemma CanonicalKeyIdempotent(k: string)
    ensures CanonicalKey(CanonicalKey(k)) == CanonicalKey(k)
  {
    if IsTokenString(k) {
      var r := CaseFold(k, true);
      forall i | 0 <= i < |r| ensures IsTokenChar(r[i]) {
        CaseFoldAt(k, true, i);
      }
      var rr := CaseFold(r, true);
      forall i | 0 <= i < |k| ensures rr[i] == r[i] {
        CaseFoldAt(k, true, i);
        CaseFoldAt(r, true, i);
        if i > 0 {
          CaseFoldAt(k, true, i - 1);
        }
      }
      assert rr == r;
    }
  }

  /** A token name that is already in canonical form is kept. */
  lemma CanonicalWhenFolded(k: string)
    requires IsTokenString(k)
    requires forall i :: 0 <= i < |k| ==> FoldAt(k, true, i) == k[i]
    ensures CanonicalKey(k) == k
  {
    forall i | 0 <= i < |k| ensures CaseFold(k, true)[i] == k[i] {
      CaseFoldAt(k, true, i);
    }
  }

  lemma UserAgentCanonical()
    ensures CanonicalKey(UserAgentKey) == UserAgentKey
  {
    CanonicalWhenFolded(UserAgentKey);
  }

  lemma AcceptCanonical()
    ensures CanonicalKey(AcceptKey) == AcceptKey
  {
    CanonicalWhenFolded(AcceptKey);
  }

  lemma ConnectionCanonical()
    ensures CanonicalKey(ConnectionKey) == ConnectionKey
  {
    CanonicalWhenFolded(ConnectionKey);
  }

  lemma AuthorizationCanonical()
    ensures CanonicalKey(AuthorizationKey) == AuthorizationKey
  {
    CanonicalWhenFolded(AuthorizationKey);
  }

  /** The four names the client sets itself are canonical already. */
  lemma FixedKeysCanonical()
    ensures CanonicalKey(UserAgentKey) == UserAgentKey
    ensures CanonicalKey(AcceptKey) == AcceptKey
    ensures CanonicalKey(ConnectionKey) == ConnectionKey
    ensures CanonicalKey(AuthorizationKey) == AuthorizationKey
  {
    UserAgentCanonical();
    AcceptCanonical();
    ConnectionCanonical();
    AuthorizationCanonical();
  }

  // ---------------------------------------------------------------------
  // Header assembly (client.go:128-145)

  /** `BasicAuth` stands for the value `SetBasicAuth` writes
      ("Basic " and the base64 of "user:pass"). */
  datatype HeaderValue = Text(text: string) | BasicAuth(user: string, pass: string)

  type Headers = map<string, HeaderValue>

  /** `Header.Set`: one value under the canonical name. */
  function Set(h: Headers, key: string, v: HeaderValue): Headers {
    h[CanonicalKey(key) := v]
  }

  datatype Auth = Auth(username: string, password: string, bearer: string, headers: string)

  /** The fixed headers, then basic auth, then the bearer token. The names
      are written as `Set` stores them (see `FixedKeysCanonical`). */
  function AuthHeaders(userAgent: string, auth: Auth): Headers {
    var h := map[UserAgentKey := Text(userAgent), AcceptKey := Text(AcceptManifestV2), ConnectionKey := Text(KeepAlive)];
    var h := if auth.username != "" && auth.password != ""
             then h[AuthorizationKey := BasicAuth(auth.username, auth.password)] else h;
    if auth.bearer != "" then h[AuthorizationKey := Text(BearerPrefix + auth.bearer)] else h
  }

  /** The headers before the custom ones: the three fixed values, and an
      Authorization header that is the bearer token when one is set, else
      basic auth when username and password are both set, else absent. */
  lemma AuthHeadersContent(userAgent: string, auth: Auth)
    ensures var h := AuthHeaders(userAgent, auth);
      && UserAgentKey in h && h[UserAgentKey] == Text(userAgent)
      && AcceptKey in h && h[AcceptKey] == Text(AcceptManifestV2)
      && ConnectionKey in h && h[ConnectionKey] == Text(KeepAlive)
      && (auth.bearer != "" ==> AuthorizationKey in h && h[AuthorizationKey] == Text(BearerPrefix + auth.bearer))
      && (auth.bearer == "" && auth.username != "" && auth.password != "" ==>
            AuthorizationKey in h && h[AuthorizationKey] == BasicAuth(auth.username, auth.password))
      && (auth.bearer == "" && (auth.username == "" || auth.password == "") ==> AuthorizationKey !in h)
  {
  }

  /** The custom headers set one after another, in iteration order. */
  function Overlay(h: Headers, custom: seq<(string, string)>): Headers {
    if custom == [] then h
    else Set(Overlay(h, custom[..|custom| - 1]), custom[|custom| - 1].0, Text(custom[|custom| - 1].1))
  }

  /** Some custom pair names the header `key`. */
  predicate Names(custom: seq<(string, string)>, key: string) {
    exists j :: 0 <= j < |custom| && CanonicalKey(custom[j].0) == key
  }

  /** The pair at index i is the last one naming its header. */
  predicate LastOfItsName(custom: seq<(string, string)>, i: int) {
    0 <= i < |custom| &&
    forall j :: i < j < |custom| ==> CanonicalKey(custom[j].0) != CanonicalKey(custom[i].0)
  }

  lemma NamesSnoc(custom: seq<(string, string)>, key: string)
    requires custom != []
    ensures Names(custom, key) <==>
      Names(custom[..|custom| - 1], key) || CanonicalKey(custom[|custom| - 1].0) == key
  {
    var n := |custom| - 1;
    var init := custom[..n];
    if Names(custom, key) && CanonicalKey(custom[n].0) != key {
      var j :| 0 <= j < |custom| && CanonicalKey(custom[j].0) == key;
      assert init[j] == custom[j];
    }
    if Names(init, key) {
      var j :| 0 <= j < |init| && CanonicalKey(init[j].0) == key;
      assert init[j] == custom[j];
    }
  }

  /** The custom pairs add exactly the headers they name and leave every
      other header as it was. */
  lemma {:induction false} OverlayKeys(h: Headers, custom: seq<(string, string)>, key: string)
    ensures key in Overlay(h, custom) <==> key in h || Names(custom, key)
    ensures !Names(custom, key) && key in h ==> Overlay(h, custom)[key] == h[key]
  {
    if custom != [] {
      var n := |custom| - 1;
      var init := custom[..n];
      OverlayKeys(h, init, key);
      NamesSnoc(custom, key);
      assert Overlay(h, custom) == Overlay(h, init)[CanonicalKey(custom[n].0) := Text(custom[n].1)];
    }
  }

  /** Last write wins: a header named by custom pairs holds the value of
      the last of them. */
  lemma {:induction false} OverlayLastWins(h: Headers, custom: seq<(string, string)>, i: int)
    requires LastOfItsName(custom, i)
    ensures CanonicalKey(custom[i].0) in Overlay(h, custom)
    ensures Overlay(h, custom)[CanonicalKey(custom[i].0)] == Text(custom[i].1)
  {
    var n := |custom| - 1;
    var init := custom[..n];
    if i < n {
      assert init[i] == custom[i];
      assert LastOfItsName(init, i);
      OverlayLastWins(h, init, i);
    }
  }

  /** No two custom pairs name the same header. */
  predicate DistinctNames(custom: seq<(string, string)>) {
    forall i, j :: 0 <= i < j < |custom| ==> CanonicalKey(custom[i].0) != CanonicalKey(custom[j].0)
  }

  /** Pairs that all occur in `b` name only headers `b` names. */
  lemma NamesInclude(a: seq<(string, string)>, b: seq<(string, string)>, key: string)
    requires forall p :: p in a ==> p in b
    ensures Names(a, key) ==> Names(b, key)
  {
    if Names(a, key) {
      var i :| 0 <= i < |a| && CanonicalKey(a[i].0) == key;
      assert a[i] in b;
    }
  }

  /** One header of two orders of the same pairs, none naming a header
      twice. */
  lemma OverlaySameAt(h: Headers, a: seq<(string, string)>, b: seq<(string, string)>, key: string)
    requires forall p :: p in a <==> p in b
    requires DistinctNames(a) && DistinctNames(b)
    ensures key in Overlay(h, a) <==> key in Overlay(h, b)
    ensures key in Overlay(h, a) ==> Overlay(h, a)[key] == Overlay(h, b)[key]
  {
    OverlayKeys(h, a, key);
    OverlayKeys(h, b, key);
    NamesInclude(a, b, key);
    NamesInclude(b, a, key);
    if Names(a, key) {
      var i :| 0 <= i < |a| && CanonicalKey(a[i].0) == key;
      assert a[i] in b;
      var j :| 0 <= j < |b| && b[j] == a[i];
      OverlayLastWins(h, a, i);
      OverlayLastWins(h, b, j);
    }
  }

  /** When no two pairs name the same header, the iteration order does not
      matter: two orders of the same pairs give the same headers. */
  lemma OverlayOrderIrrelevant(h: Headers, a: seq<(string, string)>, b: seq<(string, string)>)
    requires forall p :: p in a <==> p in b
    requires DistinctNames(a) && DistinctNames(b)
    ensures Overlay(h, a) == Overlay(h, b)
  {
    forall key
      ensures key in Overlay(h, a) <==> key in Overlay(h, b)
      ensures key in Overlay(h, a) ==> Overlay(h, a)[key] == Overlay(h, b)[key]
    {
      OverlaySameAt(h, a, b, key);
    }
  }

  /** Two pairs naming the same header with different values: the one the
      iteration visits last decides, so the two orders differ. */
  lemma CollidingNamesFollowOrder(h: Headers, p: (string, string), q: (string, string))
    requires CanonicalKey(p.0) == CanonicalKey(q.0) && p.1 != q.1
    ensures Overlay(h, [p, q]) != Overlay(h, [q, p])
  {
    OverlayLastWins(h, [p, q], 1);
    OverlayLastWins(h, [q, p], 1);
  }

  /** What `BuildHeaders` yields: the assembled headers, or `None` when the
      custom-headers JSON does not decode. `custom` is that JSON decoded,
      in the order the map iteration visits it. */
  function RequestHeaders(userAgent: string, auth: Auth, custom: Option<seq<(string, string)>>): Option<Headers> {
    if auth.headers == "" then Some(AuthHeaders(userAgent, auth))
    else if custom.None? then None
    else Some(Overlay(AuthHeaders(userAgent, auth), custom.value))
  }

  /** A custom Authorization header overrides both bearer and basic auth:
      the last pair naming it decides the value. */
  lemma CustomAuthorizationWins(userAgent: string, auth: Auth, custom: seq<(string, string)>, i: int)
    requires auth.headers != ""
    requires LastOfItsName(custom, i) && CanonicalKey(custom[i].0) == AuthorizationKey
    ensures var h := RequestHeaders(userAgent, auth, Some(custom)).value;
      AuthorizationKey in h && h[AuthorizationKey] == Text(custom[i].1)
  {
    OverlayLastWins(AuthHeaders(userAgent, auth), custom, i);
  }

  /** Without a custom Authorization header, the bearer token is sent when
      set, else basic auth when both username and password are set, else
      no Authorization header at all. */
  lemma AuthorizationPrecedence(userAgent: string, auth: Auth, custom: Option<seq<(string, string)>>)
    requires RequestHeaders(userAgent, auth, custom).Some?
    requires auth.headers != "" ==> !Names(custom.value, AuthorizationKey)
    ensures var h := RequestHeaders(userAgent, auth, custom).value;
      && (auth.bearer != "" ==> AuthorizationKey in h && h[AuthorizationKey] == Text(BearerPrefix + auth.bearer))
      && (auth.bearer == "" && auth.username != "" && auth.password != "" ==>
            AuthorizationKey in h && h[AuthorizationKey] == BasicAuth(auth.username, auth.password))
      && (auth.bearer == "" && (auth.username == "" || auth.password == "") ==> AuthorizationKey !in h)
  {
    var names := if auth.headers == "" then [] else custom.value;
    var base := AuthHeaders(userAgent, auth);
    AuthHeadersContent(userAgent, auth);
    OverlayKeys(base, names, AuthorizationKey);
    assert Overlay(base, []) == base;
  }

  /** User-Agent, Accept and Connection are always sent, with the client's
      values unless a custom header of the same name replaces them. */
  lemma FixedHeadersSent(userAgent: string, auth: Auth, custom: Option<seq<(string, string)>>)
    requires RequestHeaders(userAgent, auth, custom).Some?
    ensures var h := RequestHeaders(userAgent, auth, custom).value;
      var names := if auth.headers == "" then [] else custom.value;
      && UserAgentKey in h && AcceptKey in h && ConnectionKey in h
      && (!Names(names, UserAgentKey) ==> h[UserAgentKey] == Text(userAgent))
      && (!Names(names, AcceptKey) ==> h[AcceptKey] == Text(AcceptManifestV2))
      && (!Names(names, ConnectionKey) ==> h[ConnectionKey] == Text(KeepAlive))
  {
    var names := if auth.headers == "" then [] else custom.value;
    var base := AuthHeaders(userAgent, auth);
    AuthHeadersContent(userAgent, auth);
    OverlayKeys(base, names, UserAgentKey);
    OverlayKeys(base, names, AcceptKey);
    OverlayKeys(base, names, ConnectionKey);
    assert Overlay(base, []) == base;
  }

  /** The successive `Set` calls of one attempt. */
  method BuildHeaders(userAgent: string, auth: Auth, custom: Option<seq<(string, string)>>)
    returns (ok: bool, h: Headers)
    ensures ok <==> RequestHeaders(userAgent, auth, custom).Some?
    ensures ok ==> h == RequestHeaders(userAgent, auth, custom).value
  {
    FixedKeysCanonical();
    h := map[];
    h := Set(h, UserAgentKey, Text(userAgent));
    h := Set(h, AcceptKey, Text(AcceptManifestV2));
    h := Set(h, ConnectionKey, Text(KeepAlive));
    if auth.username != "" && auth.password != "" {
      h := Set(h, AuthorizationKey, BasicAuth(auth.username, auth.password));
    }
    if auth.bearer != "" {
      h := Set(h, AuthorizationKey, Text(BearerPrefix + auth.bearer));
    }
    ok := true;
    if auth.headers != "" {
      if custom.None? {
        return false, h;
      }
      var pairs := custom.value;
      ghost var base := h;
      for i := 0 to |pairs|
        invariant h == Overlay(base, pairs[..i])
      {
        assert pairs[..i + 1][..i] == pairs[..i];
        h := Set(h, pairs[i].0, Text(pairs[i].1));
      }
      assert pairs[..|pairs|] == pairs;
    }
  }

  // ---------------------------------------------------------------------
  // isConnectionClosedError (client.go:181-188)

  const UseOfClosedConnection: string := "use of closed network connection"
  const ConnectionReset: string := "connection reset by peer"
  const BrokenPipe: string := "broken pipe"

  predicate OccursAt(s: string, sub: string, i: int) {
    0 <= i && i + |sub| <= |s| && s[i..i + |sub|] == sub
  }

  /** `strings.Contains`, by scanning from the left. */
  function Contains(s: string, sub: string): bool
    decreases |s|
  {
    if |sub| > |s| then false
    else if s[..|sub|] == sub then true
    else Contains(s[1..], sub)
  }

  lemma {:induction false} ContainsIffOccurs(s: string, sub: string)
    ensures Contains(s, sub) <==> exists i :: OccursAt(s, sub, i)
    decreases |s|
  {
    if |sub| <= |s| && s[..|sub|] != sub {
      ContainsIffOccurs(s[1..], sub);
      if Contains(s, sub) {
        var i :| OccursAt(s[1..], sub, i);
        assert s[i + 1..i + 1 + |sub|] == s[1..][i..i + |sub|];
        assert OccursAt(s, sub, i + 1);
      }
      if exists i :: OccursAt(s, sub, i) {
        var i :| OccursAt(s, sub, i);
        assert i != 0;
        assert s[1..][i - 1..i - 1 + |sub|] == s[i..i + |sub|];
        assert OccursAt(s[1..], sub, i - 1);
      }
    } else if |sub| <= |s| {
      assert OccursAt(s, sub, 0);
    }
  }

  /** True exactly for an error whose message mentions one of the three
      closed-connection phrases. */
  function IsConnectionClosedError(err: Option<string>): (b: bool)
    ensures b <==>
      && err.Some?
      && (|| (exists i :: OccursAt(err.value, UseOfClosedConnection, i))
          || (exists i :: OccursAt(err.value, ConnectionReset, i))
          || (exists i :: OccursAt(err.value, BrokenPipe, i)))
  {
    match err
    case None => false
    case Some(msg) =>
      ContainsIffOccurs(msg, UseOfClosedConnection);
      ContainsIffOccurs(msg, ConnectionReset);
      ContainsIffOccurs(msg, BrokenPipe);
      Contains(msg, UseOfClosedConnection) || Contains(msg, ConnectionReset) || Contains(msg, BrokenPipe)
  }

  // ---------------------------------------------------------------------
  // MakeRequest (client.go:116-178)

  /** What `HTTPClient.Do` returns for one attempt: a response (status,
      `WWW-Authenticate` value, Content-Length) or an error (whether it is a
      `net.Error`, whether that reports a timeout, and its message). */
  datatype SendResult =
    | Response(status: int, challenge: string, contentLength: int)
    | SendError(isNetError: bool, timeout: bool, message: string)

  /** A 200 response; `progressTotal` is the Content-Length when the body
      is wrapped in a `ProgressReader`. */
  datatype Delivered = Delivered(progressTotal: Option<int>)

  datatype RequestError =
    | LimiterFailed
    | BadRequest
    | InvalidHeadersJson
    | RequestFailed(message: string)
    | Unauthorized(challenge: string)
    | UnexpectedStatus(status: int)
    | RetriesExhausted

  /** The observable steps of one call: the limiter wait, each request
      sent (with its headers) and each backoff sleep (seconds). */
  datatype Event = Wait | Send(headers: Headers) | Sleep(seconds: nat)

  datatype Call = Call(trace: seq<Event>, result: Result<Delivered, RequestError>)

  function Pow2(k: nat): (r: nat)
    ensures r >= 1
  {
    if k == 0 then 1 else 2 * Pow2(k - 1)
  }

  /** `1 << (attempt-1)` seconds before the next attempt. */
  function Backoff(attempt: nat): nat
    requires attempt >= 1
  {
    Pow2(attempt - 1)
  }

  /** The errors worth another attempt. */
  predicate Transient(r: SendResult) {
    r.SendError? && r.isNetError && (r.timeout || IsConnectionClosedError(Some(r.message)))
  }

  /** Status classification: nothing here is retried. */
  function Classify(status: int, challenge: string, contentLength: int): (r: Result<Delivered, RequestError>)
    ensures r.Ok? <==> status == StatusOK
    ensures status == StatusUnauthorized && challenge != "" ==> r == Err(Unauthorized(challenge))
    ensures status != StatusOK && !(status == StatusUnauthorized && challenge != "") ==>
      r == Err(UnexpectedStatus(status))
    ensures r.Ok? ==> (r.value.progressTotal.Some? <==> contentLength > 0)
    ensures r.Ok? && r.value.progressTotal.Some? ==> r.value.progressTotal.value == contentLength
  {
    if status == StatusUnauthorized && challenge != "" then Err(Unauthorized(challenge))
    else if status != StatusOK then Err(UnexpectedStatus(status))
    else Ok(Delivered(if contentLength > 0 then Some(contentLength) else None))
  }

  /** The custom pairs attempt k sets: `custom` is `None` when the JSON does
      not decode, and otherwise `custom.value(k)` lists the decoded map in
      the order attempt k's `range` visits it. */
  function CustomAt(custom: Option<nat -> seq<(string, string)>>, k: nat): Option<seq<(string, string)>> {
    if custom.None? then None else Some(custom.value(k))
  }

  /** What the header assembly of each attempt yields. */
  function HeaderPlan(userAgent: string, auth: Auth, custom: Option<nat -> seq<(string, string)>>): nat -> Option<Headers> {
    (k: nat) => RequestHeaders(userAgent, auth, CustomAt(custom, k))
  }

  /** The attempt loop from `attempt` on; `headers(k)` is what attempt k's
      header assembly yields. */
  function Attempts(urlOk: bool, headers: nat -> Option<Headers>, send: nat -> SendResult, attempt: nat): Call
    requires attempt >= 1
    decreases MaxRetries + 1 - attempt
  {
    if attempt > MaxRetries then Call([], Err(RetriesExhausted))
    else if !urlOk then Call([], Err(BadRequest))
    else match headers(attempt)
      case None => Call([], Err(InvalidHeadersJson))
      case Some(h) =>
        match send(attempt)
        case Response(status, challenge, length) => Call([Send(h)], Classify(status, challenge, length))
        case SendError(_, _, message) =>
          if Transient(send(attempt)) && attempt < MaxRetries then
            var rest := Attempts(urlOk, headers, send, attempt + 1);
            Call([Send(h), Sleep(Backoff(attempt))] + rest.trace, rest.result)
          else Call([Send(h)], Err(RequestFailed(message)))
  }

  /** One call: a single limiter wait, then the attempts. */
  function MakeRequestSpec(userAgent: string, auth: Auth, limiterOk: bool, urlOk: bool,
                           custom: Option<nat -> seq<(string, string)>>, send: nat -> SendResult): Call
  {
    if !limiterOk then Call([Wait], Err(LimiterFailed))
    else
      var rest := Attempts(urlOk, HeaderPlan(userAgent, auth, custom), send, 1);
      Call([Wait] + rest.trace, rest.result)
  }

  /** `limiterOk`: the limiter's `Wait` succeeds; `urlOk`: `http.NewRequest`
      accepts the URL; `custom`: the decoded custom-headers JSON, in each
      attempt's iteration order. */
  method MakeRequest(userAgent: string, auth: Auth, limiterOk: bool, urlOk: bool,
                     custom: Option<nat -> seq<(string, string)>>, send: nat -> SendResult)
    returns (trace: seq<Event>, r: Result<Delivered, RequestError>)
    ensures trace == MakeRequestSpec(userAgent, auth, limiterOk, urlOk, custom, send).trace
    ensures r == MakeRequestSpec(userAgent, auth, limiterOk, urlOk, custom, send).result
  {
    trace := [Wait];
    if !limiterOk {
      return trace, Err(LimiterFailed);
    }
    ghost var headers := PlanFor(userAgent, auth, urlOk, custom, send);
    ghost var spec := MakeRequestSpec(userAgent, auth, limiterOk, urlOk, custom, send);
    var attempt := 1;
    while attempt <= MaxRetries
      invariant 1 <= attempt <= MaxRetries + 1
      invariant trace + Attempts(urlOk, headers, send, attempt).trace == spec.trace
      invariant Attempts(urlOk, headers, send, attempt).result == spec.result
      decreases MaxRetries + 1 - attempt
    {
      ghost var cur := Attempts(urlOk, headers, send, attempt);
      if !urlOk {
        assert cur == Call([], Err(BadRequest));
        assert trace + [] == trace;
        return trace, Err(BadRequest);
      }
      var ok, h := BuildHeaders(userAgent, auth, CustomAt(custom, attempt));
      if !ok {
        assert cur == Call([], Err(InvalidHeadersJson));
        assert trace + [] == trace;
        return trace, Err(InvalidHeadersJson);
      }
      assert PlannedAt(headers, userAgent, auth, custom, attempt);
      match send(attempt) {
        case SendError(isNetError, timeout, message) =>
          if isNetError && (timeout || IsConnectionClosedError(Some(message))) && attempt < MaxRetries {
            ghost var next := Attempts(urlOk, headers, send, attempt + 1);
            AttemptsRetry(headers, send, attempt);
            TraceAppend(trace, [Send(h), Sleep(Backoff(attempt))], next.trace);
            trace := trace + [Send(h), Sleep(Backoff(attempt))];
            attempt := attempt + 1;
          } else {
            assert cur == Call([Send(h)], Err(RequestFailed(message)));
            return trace + [Send(h)], Err(RequestFailed(message));
          }
        case Response(status, challenge, length) =>
          return trace + [Send(h)], Classify(status, challenge, length);
      }
    }
    assert trace + [] == trace;
    r := Err(RetriesExhausted);
  }

  /** `hs` holds what attempt k's header assembly yields. */
  predicate PlannedAt(hs: nat -> Option<Headers>, userAgent: string, auth: Auth,
                      custom: Option<nat -> seq<(string, string)>>, k: nat) {
    hs(k) == RequestHeaders(userAgent, auth, CustomAt(custom, k))
  }

  /** The header plan of a call, known only attempt by attempt. */
  lemma PlanFor(userAgent: string, auth: Auth, urlOk: bool, custom: Option<nat -> seq<(string, string)>>,
                send: nat -> SendResult)
    returns (hs: nat -> Option<Headers>)
    ensures forall k: nat :: PlannedAt(hs, userAgent, auth, custom, k)
    ensures Attempts(urlOk, hs, send, 1) == Attempts(urlOk, HeaderPlan(userAgent, auth, custom), send, 1)
  {
    hs := HeaderPlan(userAgent, auth, custom);
  }

  /** A transient error before the last attempt: a request, a sleep, and
      the attempts after it. */
  lemma AttemptsRetry(hs: nat -> Option<Headers>, send: nat -> SendResult, k: nat)
    requires 1 <= k < MaxRetries && hs(k).Some? && Transient(send(k))
    ensures var next := Attempts(true, hs, send, k + 1);
      Attempts(true, hs, send, k) == Call([Send(hs(k).value), Sleep(Backoff(k))] + next.trace, next.result)
  {
  }

  lemma TraceAppend(done: seq<Event>, step: seq<Event>, rest: seq<Event>)
    ensures (done + step) + rest == done + (step + rest)
  {
  }

  /** `n` requests from attempt `k` on, each with the headers its own
      attempt assembled, separated by the backoff sleeps. */
  function Schedule(hs: nat -> Option<Headers>, k: nat, n: nat): seq<Event>
    requires 1 <= k <= n
    requires forall j :: k <= j <= n ==> hs(j).Some?
    decreases n - k
  {
    [Send(hs(k).value)] + if k < n then [Sleep(Backoff(k))] + Schedule(hs, k + 1, n) else []
  }

  /** How the last request's answer becomes the result. */
  function Outcome(r: SendResult): Result<Delivered, RequestError> {
    match r
    case Response(status, challenge, length) => Classify(status, challenge, length)
    case SendError(_, _, message) => Err(RequestFailed(message))
  }

  lemma {:induction false} AttemptsShape(hs: nat -> Option<Headers>, send: nat -> SendResult, k: nat) returns (n: nat)
    requires 1 <= k <= MaxRetries
    requires forall j :: k <= j <= MaxRetries ==> hs(j).Some?
    ensures k <= n <= MaxRetries
    ensures var c := Attempts(true, hs, send, k);
      && c.trace == Schedule(hs, k, n)
      && c.result == Outcome(send(n))
    ensures forall j :: k <= j < n ==> Transient(send(j))
    ensures !Transient(send(n)) || n == MaxRetries
    decreases MaxRetries - k
  {
    if Transient(send(k)) && k < MaxRetries {
      n := AttemptsShape(hs, send, k + 1);
    } else {
      n := k;
    }
  }

  /** The whole call: exactly one limiter wait, first; no request when the
      limiter, the URL or the custom-headers JSON fails; otherwise between
      one and three requests, each with the headers its own attempt
      assembled, a retry only after a transient error, sleeping 1 s then
      2 s, and the result is the last answer's. */
  lemma MakeRequestShape(userAgent: string, auth: Auth, limiterOk: bool, urlOk: bool,
                         custom: Option<nat -> seq<(string, string)>>, send: nat -> SendResult)
    returns (n: nat)
    ensures var c := MakeRequestSpec(userAgent, auth, limiterOk, urlOk, custom, send);
      && c.result != Err(RetriesExhausted)
      && (!limiterOk ==> c == Call([Wait], Err(LimiterFailed)))
      && (limiterOk && !urlOk ==> c == Call([Wait], Err(BadRequest)))
      && (limiterOk && urlOk && auth.headers != "" && custom.None? ==>
            c == Call([Wait], Err(InvalidHeadersJson)))
      && (limiterOk && urlOk && (auth.headers == "" || custom.Some?) ==>
            && 1 <= n <= MaxRetries
            && (forall j :: 1 <= j <= MaxRetries ==> HeaderPlan(userAgent, auth, custom)(j).Some?)
            && c.trace == [Wait] + Schedule(HeaderPlan(userAgent, auth, custom), 1, n)
            && c.result == Outcome(send(n))
            && (forall j :: 1 <= j < n ==> Transient(send(j)))
            && (!Transient(send(n)) || n == MaxRetries))
  {
    n := 1;
    var hs := HeaderPlan(userAgent, auth, custom);
    if limiterOk && urlOk {
      if auth.headers == "" || custom.Some? {
        forall j | 1 <= j <= MaxRetries
          ensures hs(j).Some?
        {
        }
        n := AttemptsShape(hs, send, 1);
        var r := send(n);
        assert r.Response? ==> Classify(r.status, r.challenge, r.contentLength) != Err(RetriesExhausted);
      } else {
        assert hs(1).None?;
      }
    }
  }

  /** Retries repeat the first request's headers when every attempt visits
      the same custom pairs and no two of them name the same header; with
      two pairs naming one header, `CollidingNamesFollowOrder` shows the
      iteration order of each attempt decides. */
  lemma RetriesRepeatHeaders(userAgent: string, auth: Auth, custom: Option<nat -> seq<(string, string)>>,
                             k1: nat, k2: nat)
    requires custom.Some? ==>
      && (forall p :: p in custom.value(k1) <==> p in custom.value(k2))
      && DistinctNames(custom.value(k1)) && DistinctNames(custom.value(k2))
    ensures HeaderPlan(userAgent, auth, custom)(k1) == HeaderPlan(userAgent, auth, custom)(k2)
  {
    if auth.headers != "" && custom.Some? {
      OverlayOrderIrrelevant(AuthHeaders(userAgent, auth), custom.value(k1), custom.value(k2));
    }
  }

  /** The backoff schedule is 1 s, then 2 s. */
  lemma BackoffSeconds()
    ensures Backoff(1) == 1 && Backoff(2) == 2
    ensures Schedule((k: nat) => Some(map[]), 1, 3) == [Send(map[]), Sleep(1), Send(map[]), Sleep(2), Send(map[])]
  {
  }

  // ---------------------------------------------------------------------
  // ProgressReader (client.go:17-47)

  /** Installed around a 200 body whose Content-Length is positive; counts
      the bytes that pass through. The progress line it prints is not
      modelled, only when its clock mark moves. */
  class ProgressReader {
    const total: int
    const url: string
    var read: int
    /** Clock reading (ns) of the last progress line. */
    var lastUpdate: int

    constructor (total: int, url: string, now: int)
      ensures this.total == total && this.url == url && read == 0 && lastUpdate == now
    {
      this.total := total;
      this.url := url;
      read := 0;
      lastUpdate := now;
    }

    /** `n` and `err` are what the wrapped reader returned; `now` is the
        clock `time.Since` reads, `later` the one `time.Now` reads after
        the progress line is printed. */
    method Read(n: nat, err: Option<string>, now: int, later: int) returns (n': nat, err': Option<string>)
      modifies this
      ensures n' == n && err' == err
      ensures read == old(read) + n
      ensures lastUpdate == if now - old(lastUpdate) >= Second then later else old(lastUpdate)
    {
      read := read + n;
      if now - lastUpdate >= Second {
        lastUpdate := later;
      }
      return n, err;
    }
  }
}
