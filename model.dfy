/**
 * The entities of the client: the OAuth token record, the catalogue values the
 * Web API returns, the HTTP requests and responses exchanged with it, and the
 * errors the client reports.
 */
module Model {
  import opened Wrappers

  type byte = x: int | 0 <= x < 256

  /** The token record kept in token.json (`SpotfiyToken` in cmd/api.go). */
  datatype Token = Token(
    accessToken: string,
    tokenType: string,
    refreshToken: string,
    scope: string,
    expiresIn: int)

  /**
   * A parsed URL: everything before the query, and the query as Go's
   * `url.Values` (each key maps to its list of values). `Empty` is the empty
   * string the Web API sends as `next` on the last page.
   */
  datatype Href = Empty | Link(base: string, query: map<string, seq<string>>)

  datatype Artist = Artist(name: string)

  /** A track; `uri` is used by the terminal UI though the struct does not declare it. */
  datatype Track = Track(name: string, id: string, artists: seq<Artist>, uri: string)

  datatype PlaylistTrack = PlaylistTrack(track: Track)

  datatype Playlist = Playlist(name: string, id: string, tracksHref: Href, uri: string)

  /** One page of a paginated listing (`PlaylistsResponse`, `PlaylistTracksResponse`). */
  datatype Page<T> = Page(items: seq<T>, next: Href)

  /** A search hit (`TrackItem`); its artists have the same shape as `Artist`. */
  datatype TrackItem = TrackItem(name: string, artists: seq<Artist>, spotifyUrl: string, id: string, uri: string)

  /** The signed-in user's profile; `userid` is used though the struct does not declare it. */
  datatype Profile = Profile(username: string, email: string, userid: string)

  /** The `item` of the currently-playing response. */
  datatype PlayingItem = PlayingItem(name: string, uri: string, artists: seq<Artist>)

  datatype CurrentPlayback = CurrentPlayback(isPlaying: bool, item: Option<PlayingItem>)

  /** What the terminal UI is told about playback. */
  datatype PlaybackInfo = PlaybackInfo(isPlaying: bool, trackName: string, artistName: string, trackURI: string)

  datatype PlaybackOffset = PlaybackOffset(position: Option<int>, uri: Option<string>)

  /** The body of a start-playback request; `None` fields are omitted from the JSON. */
  datatype PlaybackRequest = PlaybackRequest(
    contextURI: Option<string>,
    uris: Option<seq<string>>,
    offset: Option<PlaybackOffset>,
    positionMS: Option<int>)

  /**
   * A JSON document as the client decodes it: each variant is a document of
   * the shape one call site decodes; `Malformed` is a body that cannot be read
   * or parsed.
   */
  datatype Json =
    | TokenJson(token: Token)
    | PlaylistsJson(playlists: Page<Playlist>)
    | TracksJson(tracks: Page<PlaylistTrack>)
    | PlaybackJson(playback: CurrentPlayback)
    | PlayJson(request: PlaybackRequest)
    | Malformed

  datatype Method = Get | Post | Put

  /** The Authorization header: `Bearer <token>`, or HTTP Basic with the application's id and secret. */
  datatype Auth = Bearer(accessToken: string) | Basic(user: string, password: string)

  datatype Payload = NoPayload | Form(fields: map<string, string>) | JsonPayload(json: Json)

  datatype Request = Request(verb: Method, url: Href, auth: Auth, contentType: Option<string>, payload: Payload)

  datatype Response = Response(status: int, body: Json)

  datatype Error =
    | TokenFileMissing       // token.json cannot be read
    | TokenFileCorrupt       // token.json does not parse
    | Transport              // the HTTP round trip failed
    | DecodeFailed           // a response body cannot be read or decoded
    | WriteFailed            // token.json cannot be written
    | EntropyFailed          // the random source failed
    | BadStatus(status: int) // an unexpected HTTP status
    | RefreshFailed(cause: Error)

  const StatusOK := 200
  const StatusNoContent := 204
  const StatusBadRequest := 400
  const StatusUnauthorized := 401
  const StatusForbidden := 403
  const StatusNotFound := 404
  const StatusInternalServerError := 500
}
