/** The pure part of `enviarJsonASat`: the request sent to the tax
    authority's endpoint (URL, headers, body, optional HS256 token) and the
    classification of what the transport brought back. The environment is a
    configuration record; the clock, the two fresh UUIDs, `json_encode`,
    `json_decode`, `hash_hmac` and `urlencode` are parameters. */
module Client {
  import opened Wrappers
  import opened Text
  import opened Base64
  import opened Json

  // ---------------------------------------------------------- configuration

  /** The `SAT_*` environment values the request depends on. A missing value
      is `None`; booleans are already filtered. */
  datatype Config = Config(
    apiUrl: string,
    apiToken: Option<string>,
    apiKey: Option<string>,
    subscriptionKey: Option<string>,
    apimTrace: bool,
    acceptLanguage: Option<string>,
    sendCorrelationId: bool,
    explicitCorrelationId: Option<string>,
    jwtEnable: bool,
    jwtSecret: Option<string>,
    jwtAud: string,
    jwtIss: Option<string>,
    jwtSub: Option<string>,
    jwtExpSeconds: int,
    authScheme: string)

  /** The configuration with every variable unset: the defaults of the `env` calls. */
  const Defaults: Config := Config(
    "https://api.sat.gob.mx/validacion/linea-captura", None, None, None, false, None,
    true, None, false, None, "www.sat.gob.mx", None, None, 300, "BEARER")

  /** The foreign functions the request needs. */
  datatype Primitives = Primitives(
    jsonEncode: Json -> seq<byte>,
    hmacSha256: (string, string) -> seq<byte>,
    urlencode: string -> string)

  // --------------------------------------------------------- correlation id

  /** `$explicitCorrelationId ?: Str::uuid()`: the configured id unless it is falsy. */
  function CorrelationId(cfg: Config, uuid: string): (id: string)
    ensures TruthyOpt(cfg.explicitCorrelationId) ==> id == cfg.explicitCorrelationId.value
    ensures !TruthyOpt(cfg.explicitCorrelationId) ==> id == uuid
  {
    if TruthyOpt(cfg.explicitCorrelationId) then cfg.explicitCorrelationId.value else uuid
  }

  // -------------------------------------------------------------------- JWT

  /** The claim set of the token; `iss` and `sub` are left out when empty. */
  datatype Claims = Claims(aud: string, iat: int, exp: int, iss: Option<string>, sub: Option<string>, jti: string)

  function Max(a: int, b: int): int {
    if a >= b then a else b
  }

  /** The claims built at time `now`; `uuid` is the second fresh UUID, drawn
      for `jti` independently of the correlation id's. */
  function JwtClaims(cfg: Config, now: int, uuid: string): (c: Claims)
    ensures c.aud == cfg.jwtAud && c.iat == now
    ensures c.exp - c.iat >= 60 && c.exp - c.iat >= cfg.jwtExpSeconds
    ensures c.exp - c.iat == 60 || c.exp - c.iat == cfg.jwtExpSeconds
    ensures c.iss.Some? <==> TruthyOpt(cfg.jwtIss)
    ensures c.iss.Some? ==> c.iss == cfg.jwtIss
    ensures c.sub.Some? <==> TruthyOpt(cfg.jwtSub)
    ensures c.sub.Some? ==> c.sub == cfg.jwtSub
    ensures c.jti == CorrelationId(cfg, uuid)
  {
    Claims(
      cfg.jwtAud, now, now + Max(60, cfg.jwtExpSeconds),
      if TruthyOpt(cfg.jwtIss) then cfg.jwtIss else None,
      if TruthyOpt(cfg.jwtSub) then cfg.jwtSub else None,
      if TruthyOpt(cfg.explicitCorrelationId) then cfg.explicitCorrelationId.value else uuid)
  }

  /** The claims as the array handed to `json_encode`, in insertion order. */
  function ClaimsJson(c: Claims): Json {
    JObj([("aud", JStr(c.aud)), ("iat", JNum(c.iat)), ("exp", JNum(c.exp))] +
      (if c.iss.Some? then [("iss", JStr(c.iss.value))] else []) +
      (if c.sub.Some? then [("sub", JStr(c.sub.value))] else []) +
      [("jti", JStr(c.jti))])
  }

  /** The JOSE header `{"alg":"HS256","typ":"JWT"}`. */
  const JoseHeader: Json := JObj([("alg", JStr("HS256")), ("typ", JStr("JWT"))])

  /** The JWS signing input: the first two encoded segments joined by a dot. */
  function SigningInput(header: string, payload: string): string {
    header + "." + payload
  }

  /** `generateJwtHs256`: the JWS compact serialization of section 7.1 of
      RFC 7515 with the HMAC-SHA-256 signature of section 3.2 of RFC 7518. */
  function GenerateJwtHs256(claims: Json, secret: string, p: Primitives): (token: string)
    ensures |token| >= 2 && '.' in token
  {
    var h := UrlEncode(p.jsonEncode(JoseHeader));
    var c := UrlEncode(p.jsonEncode(claims));
    var s := UrlEncode(p.hmacSha256(SigningInput(h, c), secret));
    JoinThree(h, c, s, ".");
    var token := Join([h, c, s], ".");
    assert token[|h|] == '.';
    token
  }

  /** Three parts joined by a separator. */
  lemma JoinThree(a: string, b: string, c: string, sep: string)
    ensures Join([a, b, c], sep) == a + sep + b + sep + c
  {
    assert [a, b, c][1..] == [b, c];
    assert [b, c][1..] == [c];
    assert Join([b, c], sep) == b + sep + c;
    assert Join([a, b, c], sep) == a + sep + (b + sep + c);
  }

  /** A compact serialization read back: the three decoded segments and the
      signing input as it appears in the token. */
  datatype Jws = Jws(header: seq<byte>, payload: seq<byte>, signature: seq<byte>, signingInput: string)

  function ParseJws(token: string): Option<Jws> {
    var parts := Split(token, '.');
    if |parts| != 3 || UrlDecode(parts[0]).None? || UrlDecode(parts[1]).None? || UrlDecode(parts[2]).None? then None
    else Some(Jws(UrlDecode(parts[0]).value, UrlDecode(parts[1]).value, UrlDecode(parts[2]).value,
      SigningInput(parts[0], parts[1])))
  }

  /** HS256 validation: the token parses and its signature is the HMAC of its
      signing input under `secret`. */
  predicate VerifyHs256(token: string, secret: string, p: Primitives) {
    var j := ParseJws(token);
    j.Some? && j.value.signature == p.hmacSha256(j.value.signingInput, secret)
  }

  /** The three encoded segments of a generated token. */
  function Segments(claims: Json, secret: string, p: Primitives): seq<string> {
    var h := UrlEncode(p.jsonEncode(JoseHeader));
    var c := UrlEncode(p.jsonEncode(claims));
    [h, c, UrlEncode(p.hmacSha256(SigningInput(h, c), secret))]
  }

  /** No segment holds a dot, so splitting the token at dots gives them back. */
  lemma SplitToken(claims: Json, secret: string, p: Primitives)
    ensures Split(GenerateJwtHs256(claims, secret, p), '.') == Segments(claims, secret, p)
  {
    var ss := Segments(claims, secret, p);
    UrlEncodeHasNoDot(p.jsonEncode(JoseHeader));
    UrlEncodeHasNoDot(p.jsonEncode(claims));
    UrlEncodeHasNoDot(p.hmacSha256(SigningInput(ss[0], ss[1]), secret));
    SplitThree(ss[0], ss[1], ss[2]);
  }

  /** Three dot-free parts joined by dots split back into the same three. */
  lemma SplitThree(a: string, b: string, c: string)
    requires '.' !in a && '.' !in b && '.' !in c
    ensures Split(Join([a, b, c], "."), '.') == [a, b, c]
  {
    SplitJoin([a, b, c], '.');
  }

  /** A generated token parses back into the encoded header and claims and
      verifies under the secret that signed it. */
  lemma JwtRoundTrip(claims: Json, secret: string, p: Primitives)
    ensures var j := ParseJws(GenerateJwtHs256(claims, secret, p));
      j.Some? && j.value.header == p.jsonEncode(JoseHeader) && j.value.payload == p.jsonEncode(claims)
    ensures VerifyHs256(GenerateJwtHs256(claims, secret, p), secret, p)
  {
    var ss := Segments(claims, secret, p);
    var sig := p.hmacSha256(SigningInput(ss[0], ss[1]), secret);
    var token := GenerateJwtHs256(claims, secret, p);
    SplitToken(claims, secret, p);
    assert Split(token, '.') == ss;
    UrlDecodeEncode(p.jsonEncode(JoseHeader));
    UrlDecodeEncode(p.jsonEncode(claims));
    UrlDecodeEncode(sig);
    assert ParseJws(token) == Some(Jws(p.jsonEncode(JoseHeader), p.jsonEncode(claims), sig, SigningInput(ss[0], ss[1])));
  }

  // ---------------------------------------------------------- authorization

  /** The token behind `Authorization`: a fresh JWT when JWT is enabled and a
      secret is set, else the static token when set, else none. */
  function AuthorizationToken(cfg: Config, now: int, uuid: string, p: Primitives): (t: Option<string>)
    ensures t.Some? <==> (cfg.jwtEnable && TruthyOpt(cfg.jwtSecret)) || TruthyOpt(cfg.apiToken)
    ensures cfg.jwtEnable && TruthyOpt(cfg.jwtSecret) ==>
      t.Some? && VerifyHs256(t.value, cfg.jwtSecret.value, p)
    ensures !(cfg.jwtEnable && TruthyOpt(cfg.jwtSecret)) && t.Some? ==> t == cfg.apiToken
    ensures t.Some? ==> Truthy(t.value)
  {
    if cfg.jwtEnable && TruthyOpt(cfg.jwtSecret) then
      var token := GenerateJwtHs256(ClaimsJson(JwtClaims(cfg, now, uuid)), cfg.jwtSecret.value, p);
      JwtRoundTrip(ClaimsJson(JwtClaims(cfg, now, uuid)), cfg.jwtSecret.value, p);
      Some(token)
    else if TruthyOpt(cfg.apiToken) then cfg.apiToken
    else None
  }

  /** The header value for a token: raw for the `PLAIN` scheme (compared
      upper-cased), `Bearer <token>` for any other. */
  function AuthorizationValue(scheme: string, token: string): (v: string)
    ensures Upper(scheme) == "PLAIN" ==> v == token
    ensures Upper(scheme) != "PLAIN" ==> v == "Bearer " + token
  {
    if Upper(scheme) == "PLAIN" then token else "Bearer " + token
  }

  // ---------------------------------------------------------------- headers

  /** A request header; on the wire it is `name: value`. */
  datatype Header = Header(name: string, value: string)

  function HeaderLine(h: Header): string {
    h.name + ": " + h.value
  }

  /** The three headers every request carries first. */
  const BaseHeaders: seq<Header> := [
    Header("Content-Type", "application/json"),
    Header("Accept", "application/json"),
    Header("User-Agent", "LineaCaptura-IMT/1.0")
  ]

  function Optional(present: bool, name: string, value: string): seq<Header> {
    if present then [Header(name, value)] else []
  }

  /** The header list in the order the controller appends to it. */
  function BuildHeaders(cfg: Config, correlationId: string, token: Option<string>): (hs: seq<Header>)
    ensures |hs| >= 3 && hs[..3] == BaseHeaders
    ensures TruthyOpt(cfg.subscriptionKey) ==>
      hs[|hs| - 1] == Header("Ocp-Apim-Subscription-Key", cfg.subscriptionKey.value)
  {
    BaseHeaders +
    Optional(TruthyOpt(cfg.acceptLanguage), "Accept-Language", cfg.acceptLanguage.GetOr("")) +
    Optional(cfg.apimTrace, "Ocp-Apim-Trace", "true") +
    Optional(cfg.sendCorrelationId, "x-correlation-id", correlationId) +
    Optional(TruthyOpt(token), "Authorization", AuthorizationValue(cfg.authScheme, token.GetOr(""))) +
    Optional(TruthyOpt(cfg.apiKey), "X-API-Key", cfg.apiKey.GetOr("")) +
    Optional(TruthyOpt(cfg.subscriptionKey), "Ocp-Apim-Subscription-Key", cfg.subscriptionKey.GetOr(""))
  }

  /** The value sent under `name`: the first header with that name. */
  function HeaderValue(hs: seq<Header>, name: string): (r: Option<string>)
    ensures r.None? <==> forall i :: 0 <= i < |hs| ==> hs[i].name != name
  {
    if |hs| == 0 then None
    else if hs[0].name == name then Some(hs[0].value)
    else HeaderValue(hs[1..], name)
  }

  lemma {:induction false} HeaderValueAppend(a: seq<Header>, b: seq<Header>, name: string)
    ensures HeaderValue(a + b, name) == if HeaderValue(a, name).Some? then HeaderValue(a, name) else HeaderValue(b, name)
  {
    if |a| == 0 {
      assert a + b == b;
    } else {
      assert (a + b)[1..] == a[1..] + b;
      HeaderValueAppend(a[1..], b, name);
    }
  }

  /** The value under a name in seven appended groups is that of the first
      group that has the name. */
  lemma HeaderValueOfGroups(p0: seq<Header>, p1: seq<Header>, p2: seq<Header>, p3: seq<Header>,
                            p4: seq<Header>, p5: seq<Header>, p6: seq<Header>, n: string)
    ensures HeaderValue(p0 + p1 + p2 + p3 + p4 + p5 + p6, n) ==
      if HeaderValue(p0, n).Some? then HeaderValue(p0, n)
      else if HeaderValue(p1, n).Some? then HeaderValue(p1, n)
      else if HeaderValue(p2, n).Some? then HeaderValue(p2, n)
      else if HeaderValue(p3, n).Some? then HeaderValue(p3, n)
      else if HeaderValue(p4, n).Some? then HeaderValue(p4, n)
      else if HeaderValue(p5, n).Some? then HeaderValue(p5, n)
      else HeaderValue(p6, n)
  {
    HeaderValueAppend(p0 + p1 + p2 + p3 + p4 + p5, p6, n);
    HeaderValueAppend(p0 + p1 + p2 + p3 + p4, p5, n);
    HeaderValueAppend(p0 + p1 + p2 + p3, p4, n);
    HeaderValueAppend(p0 + p1 + p2, p3, n);
    HeaderValueAppend(p0 + p1, p2, n);
    HeaderValueAppend(p0, p1, n);
  }

  /** The value under a name that none of the three base headers uses: that
      of the first optional header present with the name. */
  lemma BuildHeadersValue(cfg: Config, correlationId: string, token: Option<string>, n: string)
    requires n != "Content-Type" && n != "Accept" && n != "User-Agent"
    ensures HeaderValue(BuildHeaders(cfg, correlationId, token), n) ==
      if TruthyOpt(cfg.acceptLanguage) && n == "Accept-Language" then Some(cfg.acceptLanguage.GetOr(""))
      else if cfg.apimTrace && n == "Ocp-Apim-Trace" then Some("true")
      else if cfg.sendCorrelationId && n == "x-correlation-id" then Some(correlationId)
      else if TruthyOpt(token) && n == "Authorization" then Some(AuthorizationValue(cfg.authScheme, token.GetOr("")))
      else if TruthyOpt(cfg.apiKey) && n == "X-API-Key" then Some(cfg.apiKey.GetOr(""))
      else if TruthyOpt(cfg.subscriptionKey) && n == "Ocp-Apim-Subscription-Key" then Some(cfg.subscriptionKey.GetOr(""))
      else None
  {
    var p0 := BaseHeaders;
    var p1 := Optional(TruthyOpt(cfg.acceptLanguage), "Accept-Language", cfg.acceptLanguage.GetOr(""));
    var p2 := Optional(cfg.apimTrace, "Ocp-Apim-Trace", "true");
    var p3 := Optional(cfg.sendCorrelationId, "x-correlation-id", correlationId);
    var p4 := Optional(TruthyOpt(token), "Authorization", AuthorizationValue(cfg.authScheme, token.GetOr("")));
    var p5 := Optional(TruthyOpt(cfg.apiKey), "X-API-Key", cfg.apiKey.GetOr(""));
    var p6 := Optional(TruthyOpt(cfg.subscriptionKey), "Ocp-Apim-Subscription-Key", cfg.subscriptionKey.GetOr(""));
    assert HeaderValue(p0, n) == None by { BaseHeadersValue(n); }
    OptionalValue(TruthyOpt(cfg.acceptLanguage), "Accept-Language", cfg.acceptLanguage.GetOr(""), n);
    OptionalValue(cfg.apimTrace, "Ocp-Apim-Trace", "true", n);
    OptionalValue(cfg.sendCorrelationId, "x-correlation-id", correlationId, n);
    OptionalValue(TruthyOpt(token), "Authorization", AuthorizationValue(cfg.authScheme, token.GetOr("")), n);
    OptionalValue(TruthyOpt(cfg.apiKey), "X-API-Key", cfg.apiKey.GetOr(""), n);
    OptionalValue(TruthyOpt(cfg.subscriptionKey), "Ocp-Apim-Subscription-Key", cfg.subscriptionKey.GetOr(""), n);
    HeaderValueOfGroups(p0, p1, p2, p3, p4, p5, p6, n);
  }

  lemma BaseHeadersValue(n: string)
    requires n != "Content-Type" && n != "Accept" && n != "User-Agent"
    ensures HeaderValue(BaseHeaders, n) == None
  {
  }

  lemma OptionalValue(present: bool, name: string, value: string, n: string)
    ensures HeaderValue(Optional(present, name, value), n) == if present && n == name then Some(value) else None
  {
  }

  /** `Accept-Language` is sent exactly when a truthy language is configured. */
  lemma AcceptLanguageHeader(cfg: Config, correlationId: string, token: Option<string>)
    ensures HeaderValue(BuildHeaders(cfg, correlationId, token), "Accept-Language") == (if TruthyOpt(cfg.acceptLanguage) then cfg.acceptLanguage else None)
  {
    BuildHeadersValue(cfg, correlationId, token, "Accept-Language");
  }

  /** `x-correlation-id` is sent exactly when enabled, with the request's correlation id. */
  lemma CorrelationHeader(cfg: Config, correlationId: string, token: Option<string>)
    ensures HeaderValue(BuildHeaders(cfg, correlationId, token), "x-correlation-id") == (if cfg.sendCorrelationId then Some(correlationId) else None)
  {
    BuildHeadersValue(cfg, correlationId, token, "x-correlation-id");
  }

  /** `Authorization` is sent exactly when there is a token, raw or behind `Bearer `. */
  lemma AuthorizationHeader(cfg: Config, correlationId: string, token: Option<string>)
    ensures HeaderValue(BuildHeaders(cfg, correlationId, token), "Authorization") == (if TruthyOpt(token) then Some(AuthorizationValue(cfg.authScheme, token.value)) else None)
  {
    BuildHeadersValue(cfg, correlationId, token, "Authorization");
  }

  /** `X-API-Key` is sent exactly when a truthy key is configured. */
  lemma ApiKeyHeader(cfg: Config, correlationId: string, token: Option<string>)
    ensures HeaderValue(BuildHeaders(cfg, correlationId, token), "X-API-Key") == (if TruthyOpt(cfg.apiKey) then cfg.apiKey else None)
  {
    BuildHeadersValue(cfg, correlationId, token, "X-API-Key");
  }

  /** `Ocp-Apim-Subscription-Key` is sent exactly when a truthy key is configured. */
  lemma SubscriptionKeyHeader(cfg: Config, correlationId: string, token: Option<string>)
    ensures HeaderValue(BuildHeaders(cfg, correlationId, token), "Ocp-Apim-Subscription-Key") == (if TruthyOpt(cfg.subscriptionKey) then cfg.subscriptionKey else None)
  {
    BuildHeadersValue(cfg, correlationId, token, "Ocp-Apim-Subscription-Key");
  }

  // ------------------------------------------------------- subscription key

  const SubscriptionParam: string := "subscription-key="

  /** `strtolower` leaves the parameter name alone. */
  lemma SubscriptionParamIsLower()
    ensures Lower(SubscriptionParam) == SubscriptionParam
  {
    var l := Lower(SubscriptionParam);
    forall i | 0 <= i < |SubscriptionParam|
      ensures l[i] == SubscriptionParam[i]
    {
      assert !('A' <= SubscriptionParam[i] <= 'Z');
    }
  }

  /** The URL with the `subscription-key` query parameter appended, unless
      some casing of it is already there; `&` follows an existing `?`. */
  function WithSubscriptionKey(url: string, key: string, urlencode: string -> string): (r: string)
    ensures url <= r
    ensures r == url <==> ContainsNoCase(url, SubscriptionParam)
    ensures ContainsNoCase(r, SubscriptionParam)
    ensures r != url ==> r[|url|] == (if '?' in url then '&' else '?')
    ensures r != url ==> r[|url| + 1..] == SubscriptionParam + urlencode(key)
  {
    if ContainsNoCase(url, SubscriptionParam) then url
    else
      var r := url + (if '?' in url then "&" else "?") + SubscriptionParam + urlencode(key);
      AppendedParamFound(url, if '?' in url then "&" else "?", urlencode(key));
      r
  }

  lemma AppendedParamFound(url: string, sep: string, value: string)
    requires |sep| == 1
    ensures ContainsNoCase(url + sep + SubscriptionParam + value, SubscriptionParam)
  {
    var r := url + sep + SubscriptionParam + value;
    var k := |url| + 1;
    SubscriptionParamIsLower();
    var lr := Lower(r);
    forall i | 0 <= i < |SubscriptionParam|
      ensures lr[k + i] == SubscriptionParam[i]
    {
      assert r[k + i] == SubscriptionParam[i];
    }
    assert lr[k..k + |SubscriptionParam|] == Lower(SubscriptionParam);
    assert MatchesAt(lr, Lower(SubscriptionParam), k);
  }

  /** Appending the key is idempotent: a URL that has it is left alone. */
  lemma SubscriptionKeyIdempotent(url: string, key: string, key2: string, urlencode: string -> string)
    ensures WithSubscriptionKey(WithSubscriptionKey(url, key, urlencode), key2, urlencode) ==
      WithSubscriptionKey(url, key, urlencode)
  {
  }

  // ---------------------------------------------------------------- request

  /** The outgoing POST: final URL, header list, JSON body and the
      correlation id reported back with every outcome. */
  datatype Request = Request(url: string, headers: seq<Header>, body: seq<byte>, correlationId: string)

  /** The request at time `now`; `uuid1` and `uuid2` are the two UUIDs the
      controller may draw, for the correlation id and for `jti`. */
  function BuildRequest(cfg: Config, payload: Json, now: int, uuid1: string, uuid2: string, p: Primitives): (r: Request)
    ensures r.correlationId == CorrelationId(cfg, uuid1)
    ensures r.body == p.jsonEncode(payload)
    ensures !TruthyOpt(cfg.subscriptionKey) ==> r.url == cfg.apiUrl
    ensures TruthyOpt(cfg.subscriptionKey) ==> cfg.apiUrl <= r.url && ContainsNoCase(r.url, SubscriptionParam)
    ensures HeaderValue(r.headers, "Authorization").Some? <==>
      (cfg.jwtEnable && TruthyOpt(cfg.jwtSecret)) || TruthyOpt(cfg.apiToken)
    ensures HeaderValue(r.headers, "x-correlation-id").Some? ==>
      HeaderValue(r.headers, "x-correlation-id").value == r.correlationId
  {
    var cid := CorrelationId(cfg, uuid1);
    var token := AuthorizationToken(cfg, now, uuid2, p);
    var url := if TruthyOpt(cfg.subscriptionKey) then WithSubscriptionKey(cfg.apiUrl, cfg.subscriptionKey.value, p.urlencode)
      else cfg.apiUrl;
    AuthorizationHeader(cfg, cid, token);
    CorrelationHeader(cfg, cid, token);
    Request(url, BuildHeaders(cfg, cid, token), p.jsonEncode(payload), cid)
  }

  /** The correlation id and `jti` agree when an id is configured; otherwise
      they are two separate UUIDs and agree only if those happen to. */
  lemma CorrelationAndJti(cfg: Config, now: int, uuid1: string, uuid2: string)
    ensures CorrelationId(cfg, uuid1) == JwtClaims(cfg, now, uuid2).jti <==>
      TruthyOpt(cfg.explicitCorrelationId) || uuid1 == uuid2
  {
  }

  // ---------------------------------------------------------------- outcome

  /** What cURL reports: body, status, content type and error text ("" for none). */
  datatype Transport = Transport(body: string, httpCode: int, contentType: string, curlError: string)

  /** The array `enviarJsonASat` returns, one variant per branch. */
  datatype SatResponse =
    | ConnectionFailed(error: string, correlationId: string)
    | HttpFailed(error: string, codigoHttp: int, respuestaCruda: string, contentType: string, correlationId: string)
    | DecodeFailed(error: string, codigoHttp: int, respuestaCruda: string, correlationId: string)
    | Received(datos: Json, codigoHttp: int, contentType: string, correlationId: string)
  {
    /** The `exito` flag. */
    predicate Exito() {
      Received?
    }

    /** The `codigo_http` entry: 0 for a connection error. */
    function CodigoHttp(): int {
      if ConnectionFailed? then 0 else codigoHttp
    }
  }

  /** The checks after `curl_exec`, in order: connection error, status
      outside [200, 300), undecodable body, success. */
  function Classify(t: Transport, decode: string -> Decoded, correlationId: string): (r: SatResponse)
    ensures r.Exito() <==> !Truthy(t.curlError) && 200 <= t.httpCode < 300 && decode(t.body).Parsed?
    ensures r.ConnectionFailed? <==> Truthy(t.curlError)
    ensures r.HttpFailed? <==> !Truthy(t.curlError) && !(200 <= t.httpCode < 300)
    ensures r.CodigoHttp() == (if Truthy(t.curlError) then 0 else t.httpCode)
    ensures r.correlationId == correlationId
    ensures r.Received? ==> r.datos == decode(t.body).value
    ensures r.HttpFailed? || r.DecodeFailed? ==> r.respuestaCruda == t.body
  {
    if Truthy(t.curlError) then
      ConnectionFailed("Error de conexión con la API del SAT: " + t.curlError, correlationId)
    else if t.httpCode < 200 || t.httpCode >= 300 then
      HttpFailed("La API del SAT respondió con código HTTP: " + IntToString(t.httpCode),
        t.httpCode, t.body, t.contentType, correlationId)
    else match decode(t.body)
      case ParseError(_, msg) =>
        DecodeFailed("Error al decodificar la respuesta JSON del SAT: " + msg, t.httpCode, t.body, correlationId)
      case Parsed(v) => Received(v, t.httpCode, t.contentType, correlationId)
  }
}
