/**
 * The OAuth 2.0 side of the client (cmd/api.go): application configuration,
 * the `state` value of the authorization request (section 4.1.1 of RFC 6749),
 * the access-token request (section 4.1.3), the callback that stores its
 * result, and the refresh grant (section 6) with client authentication by
 * HTTP Basic (section 2.3.1).
 */
module Api {
  import opened Wrappers
  import opened Model
  import opened Env

  // ---------------- Configuration ----------------

  const DefaultRedirectUrl := "http://localhost:8080/callback"
  const TokenEndpoint: Href := Link("https://accounts.spotify.com/api/token", map[])
  const AuthorizeBase := "https://accounts.spotify.com/authorize"
  const LoginScope := "user-read-private user-read-email user-library-read playlist-read-private"
  const FormContentType := "application/x-www-form-urlencoded"

  /** The application's credentials and redirect URI, read once at start-up. */
  datatype Config = Config(clientId: string, clientSecret: string, redirectUrl: string)

  /** `os.Getenv`: the empty string when the variable is unset. */
  function Getenv(env: map<string, string>, name: string): string
  {
    if name in env then env[name] else ""
  }

  /** The package `init`: read the three variables, defaulting the redirect URI. */
  function LoadConfig(env: map<string, string>): (c: Config)
    ensures c.clientId == Getenv(env, "CLIENT_ID") && c.clientSecret == Getenv(env, "CLIENT_SECRET")
    ensures c.redirectUrl != ""
    ensures Getenv(env, "REDIRECT_URL") != "" ==> c.redirectUrl == Getenv(env, "REDIRECT_URL")
    ensures Getenv(env, "REDIRECT_URL") == "" ==> c.redirectUrl == DefaultRedirectUrl
  {
    var redirect := Getenv(env, "REDIRECT_URL");
    Config(Getenv(env, "CLIENT_ID"), Getenv(env, "CLIENT_SECRET"),
           if redirect == "" then DefaultRedirectUrl else redirect)
  }

  // ---------------- The `state` parameter ----------------

  /** The lower-case hexadecimal digit for a nibble. */
  function HexDigit(d: int): (c: char)
    requires 0 <= d < 16
    ensures IsHexDigit(c)
  {
    if d < 10 then ('0' as int + d) as char else ('a' as int + d - 10) as char
  }

  predicate IsHexDigit(c: char)
  {
    '0' <= c <= '9' || 'a' <= c <= 'f'
  }

  /** `hex.EncodeToString`: two lower-case digits per byte, high nibble first. */
  function HexEncode(bytes: seq<byte>): (s: string)
    ensures |s| == 2 * |bytes|
  {
    if bytes == [] then ""
    else [HexDigit(bytes[0] / 16), HexDigit(bytes[0] % 16)] + HexEncode(bytes[1..])
  }

  predicate IsLowerHex(s: string)
  {
    forall i :: 0 <= i < |s| ==> IsHexDigit(s[i])
  }

  /** The value of one lower-case hexadecimal digit. */
  function HexValue(c: char): (v: Option<int>)
    ensures v.Some? <==> IsHexDigit(c)
    ensures v.Some? ==> 0 <= v.value < 16 && HexDigit(v.value) == c
  {
    if '0' <= c <= '9' then Some(c as int - '0' as int)
    else if 'a' <= c <= 'f' then Some(c as int - 'a' as int + 10)
    else None
  }

  /** The inverse of `HexEncode`, used to state what the encoding preserves. */
  function HexDecode(s: string): Option<seq<byte>>
    decreases |s|
  {
    if s == [] then Some([])
    else if |s| == 1 then None
    else match (HexValue(s[0]), HexValue(s[1]), HexDecode(s[2..]))
      case (Some(hi), Some(lo), Some(rest)) => Some([(hi * 16 + lo) as byte] + rest)
      case _ => None
  }

  /** Reading a digit back gives its nibble. */
  lemma HexDigitValue(d: int)
    requires 0 <= d < 16
    ensures HexValue(HexDigit(d)) == Some(d)
  {
  }

  /** Byte `i` becomes the digits at `2*i` (high nibble) and `2*i+1` (low nibble). */
  lemma {:induction false} HexEncodeAt(bytes: seq<byte>, i: int)
    requires 0 <= i < |bytes|
    ensures HexEncode(bytes)[2 * i] == HexDigit(bytes[i] / 16)
    ensures HexEncode(bytes)[2 * i + 1] == HexDigit(bytes[i] % 16)
  {
    if i > 0 {
      HexEncodeAt(bytes[1..], i - 1);
    }
  }

  lemma {:induction false} HexEncodeIsLowerHex(bytes: seq<byte>)
    ensures IsLowerHex(HexEncode(bytes))
  {
    forall k | 0 <= k < |HexEncode(bytes)|
      ensures IsHexDigit(HexEncode(bytes)[k])
    {
      HexEncodeAt(bytes, k / 2);
    }
  }

  /** Encoding loses nothing: decoding gives the bytes back. */
  lemma {:induction false} HexRoundTrip(bytes: seq<byte>)
    ensures HexDecode(HexEncode(bytes)) == Some(bytes)
  {
    if bytes != [] {
      var s := HexEncode(bytes);
      var b := bytes[0];
      assert s[2..] == HexEncode(bytes[1..]);
      HexRoundTrip(bytes[1..]);
      HexDigitValue(b / 16);
      HexDigitValue(b % 16);
      assert b / 16 * 16 + b % 16 == b;
      assert [b] + bytes[1..] == bytes;
    }
  }

  /**
   * `generateRandomString(length)`: `length/2` random bytes, hex encoded.
   * `read` is what the random source delivered for those bytes.
   */
  function GenerateRandomString(length: nat, read: Result<seq<byte>, Error>): (r: Result<string, Error>)
    requires read.Ok? ==> |read.value| == length / 2
    ensures r.Ok? <==> read.Ok?
    ensures r.Err? ==> r.error == read.error
    ensures r.Ok? ==> |r.value| == 2 * (length / 2) && IsLowerHex(r.value)
    ensures r.Ok? ==> HexDecode(r.value) == Some(read.value)
  {
    match read
    case Err(e) => Err(e)
    case Ok(bytes) =>
      HexEncodeIsLowerHex(bytes);
      HexRoundTrip(bytes);
      Ok(HexEncode(bytes))
  }

  /** The authorization request of section 4.1.1 of RFC 6749. */
  function AuthorizeUrl(cfg: Config, state: string): (u: Href)
    ensures u.Link? && u.base == AuthorizeBase
    ensures u.query.Keys == {"client_id", "response_type", "redirect_uri", "scope", "state"}
    ensures u.query["response_type"] == ["code"] && u.query["state"] == [state]
    ensures u.query["client_id"] == [cfg.clientId] && u.query["redirect_uri"] == [cfg.redirectUrl]
    ensures u.query["scope"] == [LoginScope]
  {
    Link(AuthorizeBase, map["client_id" := [cfg.clientId], "response_type" := ["code"],
                            "redirect_uri" := [cfg.redirectUrl], "scope" := [LoginScope],
                            "state" := [state]])
  }

  /** What an HTTP handler answers: a redirect, or an error status. */
  datatype HandlerReply = Redirect(location: Href) | Reject(status: int)

  /** `LoginHandler`: a 16-character state, then a redirect to the authorization endpoint. */
  function LoginHandler(cfg: Config, read: Result<seq<byte>, Error>): (reply: HandlerReply)
    requires read.Ok? ==> |read.value| == 8
    ensures reply == Reject(StatusBadRequest) <==> read.Err?
    ensures reply.Redirect? ==> reply.location == AuthorizeUrl(cfg, HexEncode(read.value))
    ensures reply.Redirect? ==> |reply.location.query["state"][0]| == 16
  {
    match GenerateRandomString(16, read)
    case Err(_) => Reject(StatusBadRequest)
    case Ok(state) => Redirect(AuthorizeUrl(cfg, state))
  }

  // ---------------- Access-token request ----------------

  /** The request `exchangeToken` sends for an authorization code. */
  function ExchangeRequest(cfg: Config, code: string): (req: Request)
    ensures req.verb == Post && req.url == TokenEndpoint && req.auth == Basic(cfg.clientId, cfg.clientSecret)
    ensures req.contentType == Some(FormContentType) && req.payload.Form?
    ensures req.payload.fields == map["grant_type" := "authorization_code", "code" := code, "redirect_uri" := cfg.redirectUrl]
    ensures !IsRefreshRequest(req)
  {
    Request(Post, TokenEndpoint, Basic(cfg.clientId, cfg.clientSecret), Some(FormContentType),
            Form(map["grant_type" := "authorization_code", "code" := code, "redirect_uri" := cfg.redirectUrl]))
  }

  /** How `exchangeToken` reads the token endpoint's response: only a 200 is accepted. */
  function TokenFromExchange(resp: Response): (r: Result<Token, Error>)
    ensures r.Ok? <==> resp.status == StatusOK && resp.body.TokenJson?
    ensures resp.status != StatusOK ==> r == Err(BadStatus(resp.status))
    ensures resp.status == StatusOK && !resp.body.TokenJson? ==> r == Err(DecodeFailed)
    ensures r.Ok? ==> r.value == resp.body.token
  {
    if resp.status != StatusOK then Err(BadStatus(resp.status))
    else match resp.body
      case TokenJson(t) => Ok(t)
      case _ => Err(DecodeFailed)
  }

  /** `exchangeToken` on the world: one request, then the reply's status and body decide. */
  function ExchangeSpec(cfg: Config, code: string, w: World): (out: (Result<Token, Error>, World))
    ensures out.1.file == w.file && out.1.writable == w.writable
    ensures out.1.log == w.log + [ExchangeRequest(cfg, code)]
    ensures out.0.Ok? <==> w.script != [] && w.script[0].Answer? && w.script[0].response.status == StatusOK
                           && w.script[0].response.body.TokenJson?
    ensures out.0.Ok? ==> out.0.value == w.script[0].response.body.token
    ensures w.script != [] && w.script[0].Answer? && w.script[0].response.status != StatusOK ==>
              out.0 == Err(BadStatus(w.script[0].response.status))
  {
    var (res, w1) := Send(w, ExchangeRequest(cfg, code));
    match res
    case Err(e) => (Err(e), w1)
    case Ok(resp) => (TokenFromExchange(resp), w1)
  }

  /** `exchangeToken`: one POST to the token endpoint and a status check. */
  method ExchangeToken(cfg: Config, code: string, store: TokenStore, net: Net) returns (r: Result<Token, Error>)
    modifies net
    ensures (r, WorldOf(store, net)) == ExchangeSpec(cfg, code, old(WorldOf(store, net)))
  {
    var resp := net.Do(ExchangeRequest(cfg, code));
    if resp.Err? {
      return Err(resp.error);
    }
    if resp.value.status != StatusOK {
      return Err(BadStatus(resp.value.status));
    }
    match resp.value.body
    case TokenJson(t) => r := Ok(t);
    case _ => r := Err(DecodeFailed);
  }

  /** `HandleCallback`: the HTTP status it answers, and the world afterwards. */
  function CallbackSpec(cfg: Config, code: string, w: World): (out: (int, World))
    ensures code == "" ==> out == (StatusBadRequest, w)
    ensures out.0 in {StatusOK, StatusBadRequest, StatusInternalServerError}
    ensures out.0 != StatusOK ==> out.1.file == w.file
    ensures out.0 == StatusOK <==>
              code != "" && ExchangeSpec(cfg, code, w).0.Ok? && w.writable
    ensures out.0 == StatusOK ==> out.1.file == Some(Saved(ExchangeSpec(cfg, code, w).0.value))
  {
    if code == "" then (StatusBadRequest, w)
    else
      var (res, w1) := ExchangeSpec(cfg, code, w);
      match res
      case Err(_) => (StatusInternalServerError, w1)
      case Ok(token) =>
        var (saved, w2) := Save(w1, token);
        if saved.Fail? then (StatusInternalServerError, w2) else (StatusOK, w2)
  }

  method HandleCallback(cfg: Config, code: string, store: TokenStore, net: Net) returns (status: int)
    modifies store, net
    ensures (status, WorldOf(store, net)) == CallbackSpec(cfg, code, old(WorldOf(store, net)))
  {
    if code == "" {
      return StatusBadRequest;
    }
    var token := ExchangeToken(cfg, code, store, net);
    if token.Err? {
      return StatusInternalServerError;
    }
    var saved := store.Write(token.value);
    if saved.Fail? {
      return StatusInternalServerError;
    }
    status := StatusOK;
  }

  // ---------------- Refresh grant ----------------

  /**
   * The merge rule of `RefreshToken`: access token, type and lifetime come from
   * the response; the refresh token only when the response carries a new one;
   * the scope is kept.
   */
  function Merge(existing: Token, issued: Token): (t: Token)
    ensures t.accessToken == issued.accessToken && t.tokenType == issued.tokenType
    ensures t.expiresIn == issued.expiresIn && t.scope == existing.scope
    ensures t.refreshToken == if issued.refreshToken != "" then issued.refreshToken else existing.refreshToken
  {
    var t := existing.(accessToken := issued.accessToken, tokenType := issued.tokenType, expiresIn := issued.expiresIn);
    if issued.refreshToken != "" then t.(refreshToken := issued.refreshToken) else t
  }

  /** Merging the same response twice gives what merging it once gives. */
  lemma MergeIdempotent(existing: Token, issued: Token)
    ensures Merge(Merge(existing, issued), issued) == Merge(existing, issued)
  {
  }

  /** The refresh request: the stored refresh token, authenticated with the application's credentials. */
  function RefreshRequest(cfg: Config, refreshToken: string): (req: Request)
    ensures req.verb == Post && req.url == TokenEndpoint && req.auth == Basic(cfg.clientId, cfg.clientSecret)
    ensures req.contentType == Some(FormContentType)
    ensures req.payload == Form(map["grant_type" := "refresh_token", "refresh_token" := refreshToken])
  {
    Request(Post, TokenEndpoint, Basic(cfg.clientId, cfg.clientSecret), Some(FormContentType),
            Form(map["grant_type" := "refresh_token", "refresh_token" := refreshToken]))
  }

  predicate IsRefreshRequest(req: Request)
  {
    req.url == TokenEndpoint && req.payload.Form? && "grant_type" in req.payload.fields
    && req.payload.fields["grant_type"] == "refresh_token"
  }

  /**
   * `RefreshToken`: read token.json, send the refresh grant, merge the answer
   * into the stored token and write it back. The status of the answer is not
   * looked at.
   */
  function RefreshSpec(cfg: Config, w: World): (out: (Outcome<Error>, World))
    ensures out.1.writable == w.writable
    ensures |w.log| <= |out.1.log| <= |w.log| + 1 && out.1.log[..|w.log|] == w.log
    ensures |out.1.log| == |w.log| + 1 <==> Load(w.file).Ok?
    ensures |out.1.log| == |w.log| + 1 ==>
              out.1.log[|w.log|] == RefreshRequest(cfg, Load(w.file).value.refreshToken)
    ensures out.0.Fail? ==> out.1.file == w.file
    ensures out.0.Pass? ==>
              && Load(w.file).Ok? && w.script != [] && w.script[0].Answer?
              && w.script[0].response.body.TokenJson?
              && out.1.file == Some(Saved(Merge(Load(w.file).value, w.script[0].response.body.token)))
    ensures |out.1.script| <= |w.script|
  {
    match Load(w.file)
    case Err(e) => (Fail(e), w)
    case Ok(existing) =>
      var (res, w1) := Send(w, RefreshRequest(cfg, existing.refreshToken));
      if res.Err? then (Fail(res.error), w1)
      else match res.value.body
        case TokenJson(issued) => Save(w1, Merge(existing, issued))
        case _ => (Fail(DecodeFailed), w1)
  }

  method RefreshToken(cfg: Config, store: TokenStore, net: Net) returns (o: Outcome<Error>)
    modifies store, net
    ensures (o, WorldOf(store, net)) == RefreshSpec(cfg, old(WorldOf(store, net)))
  {
    var read := store.Read();
    if read.Err? {
      return Fail(read.error);
    }
    var existing := read.value;
    var resp := net.Do(RefreshRequest(cfg, existing.refreshToken));
    if resp.Err? {
      return Fail(resp.error);
    }
    if !resp.value.body.TokenJson? {
      return Fail(DecodeFailed);
    }
    var issued := resp.value.body.token;
    existing := existing.(accessToken := issued.accessToken);
    existing := existing.(tokenType := issued.tokenType);
    existing := existing.(expiresIn := issued.expiresIn);
    if issued.refreshToken != "" {
      existing := existing.(refreshToken := issued.refreshToken);
    }
    o := store.Write(existing);
  }

  /** A successful refresh never changes the scope and keeps a refresh token the response omits. */
  lemma RefreshKeepsScope(cfg: Config, w: World)
    requires RefreshSpec(cfg, w).0.Pass?
    ensures Load(RefreshSpec(cfg, w).1.file).Ok?
    ensures Load(RefreshSpec(cfg, w).1.file).value.scope == Load(w.file).value.scope
    ensures w.script[0].response.body.token.refreshToken == "" ==>
              Load(RefreshSpec(cfg, w).1.file).value.refreshToken == Load(w.file).value.refreshToken
  {
  }

  /**
   * The status is not checked: a token endpoint that rejects the grant with a
   * 400 whose JSON has no `access_token` still has its (empty) values merged
   * into the file, and the refresh reports success.
   */
  lemma RefreshIgnoresStatus(cfg: Config, stored: Token)
    ensures var w := World(Some(Saved(stored)), true, [Answer(Response(StatusBadRequest, TokenJson(Token("", "", "", "", 0))))], []);
            var out := RefreshSpec(cfg, w);
            out.0 == Pass && Load(out.1.file).Ok? && Load(out.1.file).value.accessToken == ""
            && Load(out.1.file).value.refreshToken == stored.refreshToken
  {
  }

  /**
   * The refresh never looks at the status code: two worlds whose next reply
   * differs only in its status give the same outcome, file and log, and, once
   * the reply is consumed, the same world.
   */
  lemma RefreshStatusIrrelevant(cfg: Config, w: World, s1: int, s2: int, body: Json, rest: seq<Reply>)
    ensures var r1 := RefreshSpec(cfg, w.(script := [Answer(Response(s1, body))] + rest));
            var r2 := RefreshSpec(cfg, w.(script := [Answer(Response(s2, body))] + rest));
            r1.0 == r2.0 && r1.1.file == r2.1.file && r1.1.log == r2.1.log
            && (Load(w.file).Ok? ==> r1.1 == r2.1)
  {
  }
}
