/**
 * The authenticated API client (cmd/util.go): every request carries the
 * bearer token; a 401 triggers one refresh, a reload of the token file and
 * exactly one retry.
 */
module Client {
  import opened Wrappers
  import opened Model
  import opened Env
  import opened Api

  const JsonContentType := "application/json"

  /** Only POST requests declare a JSON body. */
  function ContentTypeFor(verb: Method): (ct: Option<string>)
    ensures ct.Some? <==> verb == Post
    ensures ct.Some? ==> ct.value == JsonContentType
  {
    if verb == Post then Some(JsonContentType) else None
  }

  /** The resource request `makeRequest` builds for the token it holds. */
  function Authorized(token: Token, verb: Method, url: Href, payload: Payload): (req: Request)
    ensures req.auth == Bearer(token.accessToken) && req.contentType == ContentTypeFor(verb)
    ensures req.verb == verb && req.url == url && req.payload == payload
  {
    Request(verb, url, Bearer(token.accessToken), ContentTypeFor(verb), payload)
  }

  /**
   * `makeRequest` as a function of the token the client holds and the world:
   * the result, the token the client holds afterwards, and the world afterwards.
   */
  function RequestSpec(cfg: Config, token: Token, w: World, verb: Method, url: Href, payload: Payload)
    : (out: (Result<Response, Error>, Token, World))
    ensures |w.log| < |out.2.log| && out.2.log[..|w.log|] == w.log
    ensures out.2.log[|w.log|] == Authorized(token, verb, url, payload)
    ensures out.2.writable == w.writable
    ensures out.1 != token ==> |out.2.log| == |w.log| + 3 && Load(out.2.file) == Ok(out.1)
  {
    var req := Authorized(token, verb, url, payload);
    var (first, w1) := Send(w, req);
    if first.Err? || first.value.status != StatusUnauthorized then (first, token, w1)
    else RefreshAndRetry(cfg, token, req, w1)
  }

  /**
   * The 401 branch of `makeRequest`: refresh, reload the token file, and
   * send `req` once more with the reloaded access token.
   */
  function RefreshAndRetry(cfg: Config, token: Token, req: Request, w: World)
    : (out: (Result<Response, Error>, Token, World))
    ensures |w.log| <= |out.2.log| <= |w.log| + 2 && out.2.log[..|w.log|] == w.log
    ensures |out.2.log| > |w.log| ==> IsRefreshCall(out.2.log[|w.log|])
    ensures |out.2.log| == |w.log| + 2 <==> RefreshSpec(cfg, w).0.Pass?
    ensures |out.2.log| == |w.log| + 2 ==>
              out.2.log[|w.log| + 1] == req.(auth := Bearer(out.1.accessToken))
  {
    var (refreshed, w2) := RefreshSpec(cfg, w);
    if refreshed.Fail? then (Err(RefreshFailed(refreshed.error)), token, w2)
    else match Load(w2.file)
      case Err(e) => (Err(e), token, w2)
      case Ok(updated) =>
        var (second, w3) := Send(w2, req.(auth := Bearer(updated.accessToken)));
        (second, updated, w3)
  }

  /** The client (`SpotifyClient`): the token it holds, and the file and network it uses. */
  class SpotifyClient {
    const config: Config
    const store: TokenStore
    const net: Net
    var token: Token

    constructor (config: Config, token: Token, store: TokenStore, net: Net)
      ensures this.config == config && this.token == token && this.store == store && this.net == net
    {
      this.config := config;
      this.token := token;
      this.store := store;
      this.net := net;
    }

    /** `makeRequest`. */
    method MakeRequest(verb: Method, url: Href, payload: Payload) returns (r: Result<Response, Error>)
      modifies this, store, net
      ensures (r, token, WorldOf(store, net))
              == RequestSpec(config, old(token), old(WorldOf(store, net)), verb, url, payload)
    {
      var req := Authorized(token, verb, url, payload);
      r := net.Do(req);
      if r.Err? || r.value.status != StatusUnauthorized {
        return;
      }
      var refreshed := RefreshToken(config, store, net);
      if refreshed.Fail? {
        return Err(RefreshFailed(refreshed.error));
      }
      var updated := store.Read();
      match updated
      case Err(e) =>
        return Err(e);
      case Ok(t) =>
        token := t;
      req := req.(auth := Bearer(token.accessToken));
      r := net.Do(req);
    }

    method Get(url: Href) returns (r: Result<Response, Error>)
      modifies this, store, net
      ensures (r, token, WorldOf(store, net))
              == RequestSpec(config, old(token), old(WorldOf(store, net)), Method.Get, url, NoPayload)
    {
      r := MakeRequest(Method.Get, url, NoPayload);
    }

    method Post(url: Href, payload: Payload) returns (r: Result<Response, Error>)
      modifies this, store, net
      ensures (r, token, WorldOf(store, net))
              == RequestSpec(config, old(token), old(WorldOf(store, net)), Method.Post, url, payload)
    {
      r := MakeRequest(Method.Post, url, payload);
    }

    /** Like `Post`, without the JSON content type. */
    method Put(url: Href, payload: Payload) returns (r: Result<Response, Error>)
      modifies this, store, net
      ensures (r, token, WorldOf(store, net))
              == RequestSpec(config, old(token), old(WorldOf(store, net)), Method.Put, url, payload)
    {
      r := MakeRequest(Method.Put, url, payload);
    }
  }

  /** `NewSpotifyClient`: a client holding the stored token, or the reason there is none. */
  method NewSpotifyClient(cfg: Config, store: TokenStore, net: Net) returns (r: Result<SpotifyClient, Error>)
    ensures r.Ok? <==> Load(store.file).Ok?
    ensures r.Err? ==> r.error == Load(store.file).error
    ensures r.Ok? ==> fresh(r.value) && r.value.token == Load(store.file).value
    ensures r.Ok? ==> r.value.config == cfg && r.value.store == store && r.value.net == net
  {
    var stored := store.Read();
    if stored.Err? {
      return Err(stored.error);
    }
    var client := new SpotifyClient(cfg, stored.value, store, net);
    r := Ok(client);
  }

  // ---------------- Properties of the request protocol ----------------

  predicate IsResourceCall(req: Request)
  {
    req.auth.Bearer?
  }

  predicate IsRefreshCall(req: Request)
  {
    req.auth.Basic? && IsRefreshRequest(req)
  }

  function ResourceCalls(log: seq<Request>): nat
  {
    if log == [] then 0 else (if IsResourceCall(log[0]) then 1 else 0) + ResourceCalls(log[1..])
  }

  function RefreshCalls(log: seq<Request>): nat
  {
    if log == [] then 0 else (if IsRefreshCall(log[0]) then 1 else 0) + RefreshCalls(log[1..])
  }

  /** Both counts add up over concatenation. */
  lemma {:induction false} CallsAppend(a: seq<Request>, b: seq<Request>)
    ensures ResourceCalls(a + b) == ResourceCalls(a) + ResourceCalls(b)
    ensures RefreshCalls(a + b) == RefreshCalls(a) + RefreshCalls(b)
  {
    if a == [] {
      assert a + b == b;
    } else {
      assert (a + b)[0] == a[0];
      assert (a + b)[1..] == a[1..] + b;
      CallsAppend(a[1..], b);
    }
  }

  /** The requests a call of `makeRequest` sent. */
  function Sent(before: World, after: World): seq<Request>
    requires |before.log| <= |after.log|
  {
    after.log[|before.log|..]
  }

  /**
   * Every request makes one, two or three calls: the resource call, then
   * possibly the refresh grant, then possibly one retry; so at most one
   * refresh and at most two resource calls.
   */
  lemma AtMostOneRefresh(cfg: Config, token: Token, w: World, verb: Method, url: Href, payload: Payload)
    ensures var out := RequestSpec(cfg, token, w, verb, url, payload);
            && |w.log| < |out.2.log| <= |w.log| + 3 && out.2.log[..|w.log|] == w.log
            && out.2.log[|w.log|] == Authorized(token, verb, url, payload)
            && ResourceCalls(Sent(w, out.2)) <= 2 && RefreshCalls(Sent(w, out.2)) <= 1
  {
    var out := RequestSpec(cfg, token, w, verb, url, payload);
    var req := Authorized(token, verb, url, payload);
    var w1 := Send(w, req).1;
    assert w1.log == w.log + [req];
    var sent := Sent(w, out.2);
    assert sent[..1] == [req];
    if |out.2.log| == |w1.log| {
      assert sent == [req];
    } else {
      var rr := out.2.log[|w1.log|];
      if |out.2.log| == |w1.log| + 1 {
        assert sent == [req] + [rr];
        CallsAppend([req], [rr]);
      } else {
        var retry := out.2.log[|w1.log| + 1];
        assert sent == [req] + [rr] + [retry];
        CallsAppend([req], [rr]);
        CallsAppend([req] + [rr], [retry]);
      }
    }
  }

  /** A transport failure on the first call is returned at once: no refresh, no retry, token kept. */
  lemma TransportErrorNoRetry(cfg: Config, token: Token, w: World, verb: Method, url: Href, payload: Payload)
    requires w.script == [] || w.script[0] == Down
    ensures var out := RequestSpec(cfg, token, w, verb, url, payload);
            out.0 == Err(Transport) && out.1 == token && out.2.file == w.file
            && out.2.log == w.log + [Authorized(token, verb, url, payload)]
  {
  }

  /** A response other than 401 is returned unchanged after one call, with no refresh. */
  lemma NonUnauthorizedPassesThrough(cfg: Config, token: Token, w: World, verb: Method, url: Href, payload: Payload)
    requires w.script != [] && w.script[0].Answer? && w.script[0].response.status != StatusUnauthorized
    ensures var out := RequestSpec(cfg, token, w, verb, url, payload);
            out.0 == Ok(w.script[0].response) && out.1 == token && out.2.file == w.file
            && out.2.log == w.log + [Authorized(token, verb, url, payload)]
            && out.2.script == w.script[1..]
  {
  }

  /** A 401 whose refresh fails: an error, no retry, the token held and the file unchanged. */
  lemma RefreshFailureNoRetry(cfg: Config, token: Token, w: World, verb: Method, url: Href, payload: Payload)
    requires w.script != [] && w.script[0].Answer? && w.script[0].response.status == StatusUnauthorized
    requires RefreshSpec(cfg, Send(w, Authorized(token, verb, url, payload)).1).0.Fail?
    ensures var out := RequestSpec(cfg, token, w, verb, url, payload);
            out.0.Err? && out.0.error.RefreshFailed? && out.1 == token && out.2.file == w.file
            && ResourceCalls(Sent(w, out.2)) == 1
  {
    var req := Authorized(token, verb, url, payload);
    var w1 := Send(w, req).1;
    var out := RequestSpec(cfg, token, w, verb, url, payload);
    AtMostOneRefresh(cfg, token, w, verb, url, payload);
    if |out.2.log| == |w1.log| {
      assert Sent(w, out.2) == [req];
    } else {
      var rr := out.2.log[|w1.log|];
      assert Sent(w, out.2) == [req] + [rr];
      CallsAppend([req], [rr]);
    }
  }

  /**
   * After a 401 and a successful refresh, the reload cannot fail, the client
   * holds exactly the token now stored (the merge of the stored token with the
   * grant's answer), the retry carries its access token, and the retry's
   * answer, even a second 401, is returned as it is.
   */
  lemma RetryUsesPersistedToken(cfg: Config, token: Token, w: World, verb: Method, url: Href, payload: Payload)
    requires w.script != [] && w.script[0].Answer? && w.script[0].response.status == StatusUnauthorized
    requires RefreshSpec(cfg, Send(w, Authorized(token, verb, url, payload)).1).0.Pass?
    ensures var out := RequestSpec(cfg, token, w, verb, url, payload);
            var w2 := RefreshSpec(cfg, Send(w, Authorized(token, verb, url, payload)).1).1;
            && Load(out.2.file) == Ok(out.1)
            && out.1 == Merge(Load(w.file).value, w.script[1].response.body.token)
            && out.2.log[|out.2.log| - 1] == Authorized(out.1, verb, url, payload)
            && out.0 == Send(w2, Authorized(out.1, verb, url, payload)).0
  {
  }

  /**
   * The client's token agrees with the file before a request (it was just
   * loaded) and then agrees after it, whichever way the request went.
   */
  lemma TokenStaysPersisted(cfg: Config, token: Token, w: World, verb: Method, url: Href, payload: Payload)
    requires Load(w.file) == Ok(token)
    ensures var out := RequestSpec(cfg, token, w, verb, url, payload);
            Load(out.2.file) == Ok(out.1)
  {
  }

  /** A successful request used up at least one scripted reply. */
  lemma SuccessConsumesReply(cfg: Config, token: Token, w: World, verb: Method, url: Href, payload: Payload)
    ensures var out := RequestSpec(cfg, token, w, verb, url, payload);
            |out.2.script| <= |w.script| && (out.0.Ok? ==> |out.2.script| < |w.script|)
  {
  }
}
