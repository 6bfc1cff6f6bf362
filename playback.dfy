/**
 * Playback control (cmd/playback.go): reading what is playing, starting
 * playback with an optional offset, and the pause / resume / next / previous
 * commands, each reporting its outcome unless playback messages are silenced.
 */
module Playback {
  import opened Wrappers
  import opened Model
  import opened Env
  import opened Api
  import opened Client
  import opened Playlists

  const CurrentlyPlayingUrl: Href := Link("https://api.spotify.com/v1/me/player/currently-playing", map[])
  const PlayUrl: Href := Link("https://api.spotify.com/v1/me/player/play", map[])
  const PauseUrl: Href := Link("https://api.spotify.com/v1/me/player/pause", map[])
  const NextUrl: Href := Link("https://api.spotify.com/v1/me/player/next", map[])
  const PreviousUrl: Href := Link("https://api.spotify.com/v1/me/player/previous", map[])

  // ---------------- One authenticated call from a fresh client ----------------

  /** How a call made through a freshly built client ended. */
  datatype CallResult =
    | NoClient(error: Error)       // the client could not be built
    | CallFailed(error: Error)     // the request itself failed
    | Responded(response: Response)

  /** Build a client from the token file, then make one request with it. */
  function CallSpec(cfg: Config, w: World, verb: Method, url: Href, payload: Payload): (out: (CallResult, World))
    ensures Load(w.file).Err? <==> out.0.NoClient?
    ensures out.0.NoClient? ==> out == (NoClient(Load(w.file).error), w)
    ensures !out.0.NoClient? ==>
              out.1 == RequestSpec(cfg, Load(w.file).value, w, verb, url, payload).2
              && |out.1.log| > |w.log|
              && out.1.log[|w.log|] == Authorized(Load(w.file).value, verb, url, payload)
  {
    match Load(w.file)
    case Err(e) => (NoClient(e), w)
    case Ok(t) =>
      var (r, _, w1) := RequestSpec(cfg, t, w, verb, url, payload);
      AtMostOneRefresh(cfg, t, w, verb, url, payload);
      (if r.Err? then CallFailed(r.error) else Responded(r.value), w1)
  }

  method Call(cfg: Config, verb: Method, url: Href, payload: Payload, store: TokenStore, net: Net)
    returns (res: CallResult)
    modifies store, net
    ensures (res, WorldOf(store, net)) == CallSpec(cfg, old(WorldOf(store, net)), verb, url, payload)
  {
    var c := NewSpotifyClient(cfg, store, net);
    if c.Err? {
      return NoClient(c.error);
    }
    var client := c.value;
    var r := client.MakeRequest(verb, url, payload);
    if r.Err? {
      return CallFailed(r.error);
    }
    res := Responded(r.value);
  }

  // ---------------- Current playback ----------------

  /** What `GetCurrentPlayback` reports for a response of the currently-playing endpoint. */
  function PlaybackInfoOf(resp: Response): (r: Result<PlaybackInfo, Error>)
    ensures resp.status == StatusNoContent ==> r == Ok(PlaybackInfo(false, "", "", ""))
    ensures resp.status != StatusOK && resp.status != StatusNoContent ==> r == Err(BadStatus(resp.status))
    ensures resp.status == StatusOK ==> (r.Ok? <==> resp.body.PlaybackJson?)
    ensures r.Ok? && resp.status == StatusOK ==> r.value.isPlaying == resp.body.playback.isPlaying
    ensures r.Ok? && resp.status == StatusOK && resp.body.playback.item.None? ==>
              r.value.trackName == r.value.artistName == r.value.trackURI == ""
    ensures r.Ok? && resp.status == StatusOK && resp.body.playback.item.Some? ==>
              var item := resp.body.playback.item.value;
              && r.value.trackName == item.name && r.value.trackURI == item.uri
              && r.value.artistName == JoinNames(NamesOf(item.artists))
  {
    if resp.status == StatusNoContent then Ok(PlaybackInfo(false, "", "", ""))
    else if resp.status != StatusOK then Err(BadStatus(resp.status))
    else match resp.body
      case PlaybackJson(pb) =>
        Ok(match pb.item
           case None => PlaybackInfo(pb.isPlaying, "", "", "")
           case Some(item) => PlaybackInfo(pb.isPlaying, item.name, JoinNames(NamesOf(item.artists)), item.uri))
      case _ => Err(DecodeFailed)
  }

  /**
   * The mapping in `GetCurrentPlayback`: collect the artist names, then the
   * first followed by ", " and each later one.
   */
  method MapPlayback(resp: Response) returns (r: Result<PlaybackInfo, Error>)
    ensures r == PlaybackInfoOf(resp)
  {
    if resp.status == StatusNoContent {
      return Ok(PlaybackInfo(false, "", "", ""));
    }
    if resp.status != StatusOK {
      return Err(BadStatus(resp.status));
    }
    if !resp.body.PlaybackJson? {
      return Err(DecodeFailed);
    }
    var playback := resp.body.playback;
    var info := PlaybackInfo(playback.isPlaying, "", "", "");
    if playback.item.Some? {
      var item := playback.item.value;
      info := info.(trackName := item.name, trackURI := item.uri);
      var artists: seq<string> := [];
      for i := 0 to |item.artists|
        invariant artists == NamesOf(item.artists)[..i]
      {
        artists := artists + [item.artists[i].name];
      }
      assert artists == NamesOf(item.artists);
      if |artists| > 0 {
        var name := artists[0];
        for i := 1 to |artists|
          invariant name == JoinNames(artists[..i])
        {
          assert artists[..i + 1][..i] == artists[..i];
          name := name + ", " + artists[i];
        }
        assert artists[..|artists|] == artists;
        info := info.(artistName := name);
      }
    }
    r := Ok(info);
  }

  /** `GetCurrentPlayback`. */
  method GetCurrentPlayback(cfg: Config, store: TokenStore, net: Net) returns (r: Result<PlaybackInfo, Error>)
    modifies store, net
    ensures var (res, w) := CallSpec(cfg, old(WorldOf(store, net)), Method.Get, CurrentlyPlayingUrl, NoPayload);
            WorldOf(store, net) == w
            && r == if res.Responded? then PlaybackInfoOf(res.response) else Err(res.error)
  {
    var res := Call(cfg, Method.Get, CurrentlyPlayingUrl, NoPayload, store, net);
    if !res.Responded? {
      return Err(res.error);
    }
    r := MapPlayback(res.response);
  }

  // ---------------- Messages ----------------

  datatype StartOutcome = Started | NoActiveDevice | StartRejected(status: int)

  datatype Command = Pause | Resume | Next | Previous

  datatype ControlOutcome = Done | NoDevice | NeedsPremium | ControlRejected(status: int)

  /** What the playback helpers tell the user on the terminal. */
  datatype Message =
    | ClientError(error: Error)
    | StartError(error: Error)
    | StartReport(start: StartOutcome)
    | ControlError(command: Command, error: Error)
    | ControlReport(command: Command, outcome: ControlOutcome)

  /** Standard output, with the process-wide switch that silences the playback helpers. */
  class Console {
    var silent: bool
    var lines: seq<Message>

    constructor ()
      ensures !silent && lines == []
    {
      silent := false;
      lines := [];
    }

    /** `SetPlaybackSilent`. */
    method SetPlaybackSilent(s: bool)
      modifies this`silent
      ensures silent == s
    {
      silent := s;
    }

    /** Print one message, unless silenced. */
    method Say(m: Message)
      modifies this`lines
      ensures lines == old(lines) + if silent then [] else [m]
    {
      if !silent {
        lines := lines + [m];
      }
    }
  }

  // ---------------- Starting playback ----------------

  /** The body of the start request: the optional offset is a position only. */
  function BuildPlayRequest(contextURI: Option<string>, uris: Option<seq<string>>, offset: Option<int>)
    : (req: PlaybackRequest)
    ensures req.contextURI == contextURI && req.uris == uris
    ensures req.offset.Some? <==> offset.Some?
    ensures req.offset.Some? ==> req.offset.value.position == offset && req.offset.value.uri.None?
    ensures req.positionMS.None?
  {
    PlaybackRequest(contextURI, uris, if offset.Some? then Some(PlaybackOffset(offset, None)) else None, None)
  }

  /** 404 means no device is active, 204 that playback started, anything else a failure. */
  function ClassifyStart(status: int): (o: StartOutcome)
    ensures o == NoActiveDevice <==> status == StatusNotFound
    ensures o == Started <==> status == StatusNoContent
    ensures o.StartRejected? <==> status != StatusNotFound && status != StatusNoContent
    ensures o.StartRejected? ==> o.status == status
  {
    if status == StatusNotFound then NoActiveDevice
    else if status != StatusNoContent then StartRejected(status)
    else Started
  }

  function StartMessage(res: CallResult): (m: Message)
    ensures res.NoClient? ==> m == ClientError(res.error)
    ensures res.CallFailed? ==> m == StartError(res.error)
    ensures res.Responded? ==> m == StartReport(ClassifyStart(res.response.status))
  {
    match res
    case NoClient(e) => ClientError(e)
    case CallFailed(e) => StartError(e)
    case Responded(resp) => StartReport(ClassifyStart(resp.status))
  }

  /** `StartMusicWithOffset`: PUT the start request, then report how it went. */
  method StartMusicWithOffset(cfg: Config, contextURI: Option<string>, uris: Option<seq<string>>, offset: Option<int>,
                              store: TokenStore, net: Net, console: Console)
    modifies store, net, console`lines
    ensures var (res, w) := CallSpec(cfg, old(WorldOf(store, net)), Method.Put, PlayUrl,
                                     JsonPayload(PlayJson(BuildPlayRequest(contextURI, uris, offset))));
            WorldOf(store, net) == w
            && console.lines == old(console.lines) + if console.silent then [] else [StartMessage(res)]
  {
    var req := BuildPlayRequest(contextURI, uris, offset);
    var res := Call(cfg, Method.Put, PlayUrl, JsonPayload(PlayJson(req)), store, net);
    console.Say(StartMessage(res));
  }

  /** `StartMusic`: the same as starting without an offset. */
  method StartMusic(cfg: Config, contextURI: Option<string>, uris: Option<seq<string>>,
                    store: TokenStore, net: Net, console: Console)
    modifies store, net, console`lines
    ensures var (res, w) := CallSpec(cfg, old(WorldOf(store, net)), Method.Put, PlayUrl,
                                     JsonPayload(PlayJson(BuildPlayRequest(contextURI, uris, None))));
            WorldOf(store, net) == w
            && console.lines == old(console.lines) + if console.silent then [] else [StartMessage(res)]
  {
    StartMusicWithOffset(cfg, contextURI, uris, None, store, net, console);
  }

  // ---------------- Pause, resume, next, previous ----------------

  /** Pause and resume are PUT requests; next and previous are POST requests. */
  function CommandVerb(c: Command): (verb: Method)
    ensures verb == Post <==> c == Next || c == Previous
    ensures verb == Put <==> c == Pause || c == Resume
  {
    match c
    case Pause => Put
    case Resume => Put
    case Next => Post
    case Previous => Post
  }

  function CommandUrl(c: Command): (url: Href)
    ensures url.Link? && url.query == map[]
    ensures c == Pause ==> url == PauseUrl
    ensures c == Resume ==> url == PlayUrl
    ensures c == Next ==> url == NextUrl
    ensures c == Previous ==> url == PreviousUrl
  {
    match c
    case Pause => PauseUrl
    case Resume => PlayUrl
    case Next => NextUrl
    case Previous => PreviousUrl
  }

  /** 200, 404 and 403 each have their own outcome; every other status is a failure. */
  function ClassifyControl(status: int): (o: ControlOutcome)
    ensures o == Done <==> status == StatusOK
    ensures o == NoDevice <==> status == StatusNotFound
    ensures o == NeedsPremium <==> status == StatusForbidden
    ensures o.ControlRejected? <==> status !in {StatusOK, StatusNotFound, StatusForbidden}
    ensures o.ControlRejected? ==> o.status == status
  {
    if status == StatusOK then Done
    else if status == StatusNotFound then NoDevice
    else if status == StatusForbidden then NeedsPremium
    else ControlRejected(status)
  }

  function ControlMessage(c: Command, res: CallResult): (m: Message)
    ensures res.NoClient? ==> m == ClientError(res.error)
    ensures res.CallFailed? ==> m == ControlError(c, res.error)
    ensures res.Responded? ==> m == ControlReport(c, ClassifyControl(res.response.status))
  {
    match res
    case NoClient(e) => ClientError(e)
    case CallFailed(e) => ControlError(c, e)
    case Responded(resp) => ControlReport(c, ClassifyControl(resp.status))
  }

  /**
   * `PausePlayback`, `ResumePlayback`, `NextTrack` and `PreviousTrack`: one
   * request without a body, then one message unless silenced.
   */
  method Control(cfg: Config, c: Command, store: TokenStore, net: Net, console: Console)
    modifies store, net, console`lines
    ensures var (res, w) := CallSpec(cfg, old(WorldOf(store, net)), CommandVerb(c), CommandUrl(c), NoPayload);
            WorldOf(store, net) == w
            && console.lines == old(console.lines) + if console.silent then [] else [ControlMessage(c, res)]
  {
    var res := Call(cfg, CommandVerb(c), CommandUrl(c), NoPayload, store, net);
    console.Say(ControlMessage(c, res));
  }

}
