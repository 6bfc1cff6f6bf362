# Gitify core, modelled in Dafny

Gitify is a Spotify client for the terminal. It has a command-line interface (`gitify spotify …`) and a Bubble Tea TUI. This project models the logic that sits between its I/O, and proves properties of it:

- **Authenticated request wrapper** (`cmd/util.go`): `makeRequest` attaches the bearer token. On a 401 it refreshes the token once, reloads `token.json`, and retries once.
- **OAuth helpers** (`cmd/api.go`):
  - the `state` string of the authorization request (hex of random bytes);
  - the access-token request with its status check;
  - the callback that stores the token;
  - the refresh grant and its merge rule.
- **Pagination and artist joining** (`cmd/playlist.go`): following `next` links with a default `limit`, concatenating page items, joining artist names, and the `playlist` command's choice check and context-URI fallback.
- **Playback** (`cmd/playback.go`):
  - mapping the currently-playing response to `PlaybackInfo`;
  - building the start-playback body;
  - classifying the statuses of the start, pause, resume, next and previous calls;
  - the silent switch.
- **TUI state machine** (`cmd/tui.go`):
  - `Update` on every message kind;
  - the two `playSelected…` helpers;
  - status-bar truncation, playlist-title shortening, column width and row height.

The environment is explicit:

- `token.json` is an `Env.TokenStore`: a file that is absent, unparseable or holds a token, plus whether it can be written.
- The HTTP transport is an `Env.Net`, which replays a scripted list of replies and logs every request sent.
- Each operation that reads or writes the file or the network is a method that works on these objects, either as a method of `Client.SpotifyClient` or as a module-level method taking the store and the transport as parameters (`Api.RefreshToken`, `Api.ExchangeToken`). Each is proved equal to a pure function over `Env.World`, the value of both objects together: `makeRequest` to `Client.RequestSpec`, the refresh to `Api.RefreshSpec`, the paging loops to `Playlists.PagesSpec`, and so on. The lemmas about those functions carry the protocol properties: at most one refresh, at most two resource calls, and a token that always agrees with the file.
- The random bytes, the environment variables and the configuration are parameters. The configuration (client id, secret, redirect URI) lives in Go package globals.
- The TUI model is a value, as in Bubble Tea. `Update` and the play helpers return the updated copy together with the `Effect`s they issue, in order. Effects cover commands returned to Bubble Tea and playback calls started with `go`.
- Status texts are a `Status` datatype: their emoji and formatting are rendering.

The model follows the code as written, including these behaviours:

- `RefreshToken` reads the refresh token from `token.json`, not from the client's in-memory token.
- `RefreshToken` does not check the token endpoint's HTTP status. A 400 answer whose JSON lacks `access_token` still overwrites the stored access token with "" and reports success (`Api.RefreshIgnoresStatus`); in general the status never changes the outcome (`Api.RefreshStatusIrrelevant`).
- `fetchAllPlaylists` and `fetchAllTracks` do not check the status either: any response whose body decodes as a page is accepted.
- `makeRequest`'s reload after a successful refresh cannot fail here, because nothing else touches the file between the write and the read (`Client.RetryUsesPersistedToken`).
- The `cmd/utils` package the callers import is not part of this model. Its `SpotifyClient` is the one in `cmd/util.go`, and `Put` is `makeRequest` with PUT: it sets no Content-Type.
- When a track inside a loaded playlist is played, the start request names only the playlist context, with no offset. The selected track is recorded as current, but the request does not name it (`Tui.PlaySelectedTrackFromList`).

## Model

| member | source | states |
|---|---|---|
| Env.Send | cmd/util.go:47-50 | one HTTP round trip: the request is logged, the file is untouched, and the reply is the next scripted response, or a transport error when the script is exhausted or the connection drops |
| Env.Save | cmd/api.go:212-220 | writing token.json succeeds exactly when the file is writable, and then reading it back gives the token; a failed write changes nothing |
| Env.Load | cmd/util.go:19-27 | reading token.json fails with "missing" when there is no file and with "corrupt" when it does not parse, and otherwise yields the stored token |
| Env.TokenStore.Read | cmd/util.go:19-27 | the read agrees with `Load` on the file's current contents |
| Env.TokenStore.Write | cmd/api.go:212-220 | a write succeeds exactly when the file is writable, and the file then holds the token; a failed write leaves it as it was |
| Env.Net.Do | cmd/util.go:47-50 | every request is logged; an exhausted script or a dropped connection is a transport error; otherwise the next scripted response is returned and consumed |
| Api.LoadConfig | cmd/api.go:26-37 | client id and secret come from the environment; the redirect URI is REDIRECT_URL when set and non-empty, else `http://localhost:8080/callback` |
| Api.HexEncode | cmd/api.go:53 | two characters per byte |
| Api.HexEncodeIsLowerHex | cmd/api.go:53 | every character of the encoding is a lower-case hex digit |
| Api.HexEncodeAt | cmd/api.go:53 | characters 2i and 2i+1 are the high and low nibble of byte i |
| Api.HexRoundTrip | cmd/api.go:48-54 | decoding the encoding gives back the bytes, so the encoding is injective |
| Api.GenerateRandomString | cmd/api.go:48-54 | fails exactly when the random source fails; otherwise `2*(length/2)` lower-case hex characters that decode to the random bytes |
| Api.AuthorizeUrl | cmd/api.go:142-151 | the authorization URL carries client id, `response_type=code`, redirect URI, the scope `user-read-private user-read-email user-library-read playlist-read-private` and state, and nothing else |
| Api.LoginHandler | cmd/api.go:135-154 | a random-source failure answers 400; otherwise a redirect to the authorization URL with a 16-character state |
| Api.ExchangeRequest | cmd/api.go:57-71 | the code exchange is a form POST to the token endpoint with HTTP Basic client credentials, grant type `authorization_code`, the code and the redirect URI |
| Api.TokenFromExchange | cmd/api.go:81-96 | a token is accepted exactly when the status is 200 and the body decodes; any other status is an error carrying that status |
| Api.ExchangeSpec | cmd/api.go:57-97 | exactly one request, the code exchange, and no change to the file; a token comes back exactly when the reply is a 200 carrying one, and any other status is an error carrying that status |
| Api.ExchangeToken | cmd/api.go:57-97 | one request to the token endpoint, then the status check; the token file is not touched |
| Api.CallbackSpec | cmd/api.go:101-132 | an empty code answers 400 with no request and no write; the answer is 200 exactly when the exchange succeeds and the file is writable, and then the file holds the exchanged token; on any other answer the file is unchanged |
| Api.HandleCallback | cmd/api.go:101-132 | the callback's status and effect on file and network are those of `CallbackSpec` |
| Api.Merge | cmd/api.go:203-210 | access token, type and lifetime come from the response; the refresh token is replaced only by a non-empty one; the scope is kept |
| Api.MergeIdempotent | cmd/api.go:203-210 | merging the same response twice equals merging it once |
| Api.RefreshRequest | cmd/api.go:170-182 | the refresh grant is a form POST to the token endpoint with the given refresh token and HTTP Basic client credentials |
| Api.RefreshSpec | cmd/api.go:156-224 | no request when token.json cannot be read, otherwise exactly one refresh grant with the stored refresh token; on failure the file is unchanged; on success the file holds the stored token merged with the response |
| Api.RefreshToken | cmd/api.go:156-224 | the in-place merge and write of `RefreshToken` has the outcome and effect of `RefreshSpec` |
| Api.RefreshKeepsScope | cmd/api.go:203-210 | after a successful refresh the stored scope is the old one, and an omitted refresh token keeps the old one |
| Api.RefreshIgnoresStatus | cmd/api.go:185-205 | a 400 answer with an empty token body still reports success and stores an empty access token |
| Api.RefreshStatusIrrelevant | cmd/api.go:185-205 | two answers that differ only in their status give the same outcome, file and log, and the same world whenever the token file loads |
| Client.ContentTypeFor | cmd/util.go:43-45 | `Content-Type: application/json` is set exactly for POST |
| Client.Authorized | cmd/util.go:42-45 | the resource request carries `Bearer` with the held access token, and the caller's method, URL and body |
| Client.RequestSpec | cmd/util.go:36-79 | the first call sent is the resource request with the held token, after which nothing earlier in the log changes; the held token changes only after a refresh and a retry, and then it is the token the file holds |
| Client.RefreshAndRetry | cmd/util.go:53-75 | after a 401 the client sends one refresh grant, then, only when it succeeded, one retry carrying the reloaded token |
| Client.SpotifyClient.constructor | cmd/util.go:29-32 | a client holds the given token, configuration, store and transport |
| Client.SpotifyClient.MakeRequest | cmd/util.go:36-79 | the result, the token held afterwards, the file and the request log are those of `RequestSpec` |
| Client.SpotifyClient.Get | cmd/util.go:82-84 | `makeRequest` with GET and no body |
| Client.SpotifyClient.Post | cmd/util.go:87-89 | `makeRequest` with POST |
| Client.SpotifyClient.Put | cmd/playback.go:139 | `makeRequest` with PUT |
| Client.NewSpotifyClient | cmd/util.go:18-33 | construction fails exactly when token.json is absent or unparseable, with that error; otherwise the new client holds the stored token |
| Client.CallsAppend | cmd/util.go:47-75 | counting resource calls and refresh calls distributes over concatenated logs |
| Client.AtMostOneRefresh | cmd/util.go:47-75 | one request sends the resource call first, and at most three calls in all, of which at most two are resource calls and at most one a refresh |
| Client.TransportErrorNoRetry | cmd/util.go:47-50 | a transport error on the first call is returned after that one call, with no refresh and no change to token or file |
| Client.NonUnauthorizedPassesThrough | cmd/util.go:47-78 | a non-401 response is returned unchanged after exactly one call, token and file unchanged |
| Client.RefreshFailureNoRetry | cmd/util.go:53-60 | a 401 whose refresh fails is an error, with one resource call only, token and file unchanged |
| Client.RetryUsesPersistedToken | cmd/util.go:62-75 | after a 401 and a successful refresh, the client holds the token now stored, the retry carries its access token, and the retry's answer, even another 401, is returned as it is |
| Client.TokenStaysPersisted | cmd/util.go:18-75 | if the held token agrees with the file before a request, it agrees after it, however the request went |
| Client.SuccessConsumesReply | cmd/util.go:47-75 | a successful request consumes at least one scripted reply |
| Playlists.WithDefaultLimit | cmd/playlist.go:147-152 | `limit` is set only when the URL has none; an existing limit and every other parameter are preserved |
| Playlists.ItemsAppend | cmd/playlist.go:165 | the items of concatenated page lists are the concatenated items |
| Playlists.PageUrls | cmd/playlist.go:146-154 | the URL requested for each page is the start link, then each page's `next`, each with the default `limit` set when absent, so every requested URL carries a limit |
| Playlists.PagesSpec | cmd/playlist.go:142-203 | the walk from a link: a successful walk returns pages that chain from the link through each page's `next` to the first page without one; a request is sent exactly when the link is non-empty, and nothing earlier in the log changes |
| Playlists.ServedWalk | cmd/playlist.go:142-203 | when the server answers with a chain of pages (any status but 401), the walk sends exactly one GET per page, for the link with the default limit and the held token, consumes exactly those replies, and returns exactly those pages in order |
| Playlists.WalkKeepsTokenPersisted | cmd/playlist.go:142-203 | a client token that agrees with the file before a walk agrees with it after the walk, however many refreshes happened |
| Playlists.FetchAllPlaylists | cmd/playlist.go:142-170 | the loop's result, held token, file and request log are those of `PagesSpec` with limit 50 and playlist pages, the result being all the pages' items in visit order |
| Playlists.TracksOf | cmd/playlist.go:195-197 | the track of each playlist entry, in order |
| Playlists.TracksOfAppend | cmd/playlist.go:195-197 | taking tracks distributes over concatenation |
| Playlists.AppendTracks | cmd/playlist.go:195-197 | the inner loop appends exactly the track of each entry of one page |
| Playlists.FetchAllTracks | cmd/playlist.go:172-203 | the loop's result, held token, file and request log are those of `PagesSpec` with limit 100 and track pages, the result being the track of every entry of every page in order |
| Playlists.NamesOf | cmd/playlist.go:205-214 | the artists' names, in order |
| Playlists.JoinArtists | cmd/playlist.go:205-214 | the loop yields the names joined by ", " |
| Playlists.JoinNamesAppend | cmd/playlist.go:205-214 | joining two non-empty lists puts exactly one separator between their joins |
| Playlists.JoinNamesCons | cmd/playlist.go:205-214 | the join is the first name alone, or the first name, ", " and the join of the rest, so there is no leading separator |
| Playlists.JoinNamesLength | cmd/playlist.go:205-214 | the join of no names is ""; otherwise its length is the names' total length plus two per gap, so it holds no other characters |
| Playlists.SelectPlaylist | cmd/playlist.go:93-100 | a choice is accepted exactly when it is a number from 1 to the number of playlists, and it selects entry `choice-1` |
| Playlists.PlaylistContextUri | cmd/playlist.go:125-128 | the playlist's URI when non-empty, else `spotify:playlist:` followed by its id |
| Playback.CallSpec | cmd/playback.go:131-146 | no request when no client can be built; otherwise the world after `makeRequest` with the stored token, whose first call is the authorized request |
| Playback.Call | cmd/playback.go:131-146 | building a client and making one request has the result and effect of `CallSpec` |
| Playback.PlaybackInfoOf | cmd/playback.go:69-104 | 204 means nothing playing with empty fields; any status other than 200 or 204 is an error; with 200, `IsPlaying` is copied, a missing item leaves track, artist and URI empty, and a present item gives its name, its URI and its artists' names joined by ", " |
| Playback.MapPlayback | cmd/playback.go:83-101 | the field assignments and the artist loop give `PlaybackInfoOf`; the artist text is the names joined by ", ", as `joinArtists` gives |
| Playback.GetCurrentPlayback | cmd/playback.go:57-105 | a client error or request error is returned; otherwise the response is mapped as above |
| Playback.Console.constructor | cmd/playback.go:48 | output starts empty and not silenced |
| Playback.Console.SetPlaybackSilent | cmd/playback.go:52-54 | sets the silent switch |
| Playback.Console.Say | cmd/playback.go:133-135 | a message is printed exactly when not silenced |
| Playback.BuildPlayRequest | cmd/playback.go:112-125 | context and URIs are passed through; an offset is present exactly when a position is given, with that position and no URI; `position_ms` is never set |
| Playback.ClassifyStart | cmd/playback.go:148-167 | 404 is "no device", 204 is success, and every other status is a failure carrying it |
| Playback.StartMessage | cmd/playback.go:131-167 | client errors, request errors and the classified status each give their own message |
| Playback.StartMusicWithOffset | cmd/playback.go:112-168 | one PUT of the built body to the play endpoint, then its message unless silenced |
| Playback.StartMusic | cmd/playback.go:107-109 | exactly `StartMusicWithOffset` without an offset |
| Playback.CommandVerb | cmd/playback.go:170-296 | pause and resume are PUT, next and previous are POST |
| Playback.CommandUrl | cmd/playback.go:170-296 | each command's endpoint, without a query: pause, next and previous their own endpoints, resume the play endpoint |
| Playback.ClassifyControl | cmd/playback.go:188-199 | 200, 404 and 403 each get their own outcome, and every other status is a failure carrying it |
| Playback.ControlMessage | cmd/playback.go:170-200 | client errors, request errors and the classified status each give their own message |
| Playback.Control | cmd/playback.go:170-200 | pause, resume, next and previous send one bodiless request, then print one message, or nothing when silenced |
| Tui.PlaylistRowsOf | cmd/tui.go:591-594 | one playlist row per playlist, carrying its name |
| Tui.TrackRowsOf | cmd/tui.go:607-616 | one row per entry: track name, joined artists, origin "playlist", position |
| Tui.SearchRowsOf | cmd/tui.go:626-635 | one row per hit: name, joined artists, origin "search", position |
| Tui.PlaylistRows | cmd/tui.go:591-595 | the loop builds `PlaylistRowsOf` |
| Tui.TrackRows | cmd/tui.go:607-617 | the loop builds `TrackRowsOf` |
| Tui.SearchArtistNames | cmd/tui.go:820-826 | the names joined by ", ", the same text `joinArtists` gives |
| Tui.SearchRows | cmd/tui.go:626-636 | the loop builds `SearchRowsOf` |
| Tui.OnProfileLoaded | cmd/tui.go:574-588 | `ProfileLoadedStep`: the login flag and profile are stored; logged-out shows a status and loads nothing; logged in with a profile greets by user name and loads that user's playlists; without a profile it loads "me"'s playlists |
| Tui.OnPlaylistsLoaded | cmd/tui.go:589-600 | `PlaylistsLoadedStep`: stores the playlists, one row each, and a status that tells "none" from the count; nothing else changes |
| Tui.OnTracksLoaded | cmd/tui.go:601-623 | `TracksLoadedStep`: an index outside the playlists leaves the model unchanged; otherwise it sets the current playlist index, tracks, rows and count status, and focuses the tracks |
| Tui.OnSearchResults | cmd/tui.go:624-642 | `SearchResultsStep`: stores the hits, one row each, a status with count and query, and focuses the results |
| Tui.OnPlaybackUpdated | cmd/tui.go:646-657 | `PlaybackUpdatedStep`: no info changes nothing; otherwise the play state is adopted, and the track URI and a playing/paused status only when a track name is given |
| Tui.PlaySelectedTrackFromList | cmd/tui.go:762-796 | `PlayTrackStep`: an out-of-range selection changes nothing; an empty URI changes only the status; otherwise the model is playing that track and one start request is issued, in the current playlist's context when its index is valid, else for the track alone |
| Tui.PlaySelectedSearchTrackFromList | cmd/tui.go:798-817 | `PlaySearchTrackStep`: the same guards; then the hit is playing and one start request for it alone is issued |
| Tui.OnShortcut | cmd/tui.go:658-707 | a key is handled exactly when `IsShortcut` holds, with the effect `ShortcutStep` gives: quit, then focus-search (outside the search box), then focus-playlists (from anywhere; only the status changes when no playlists are listed), then, outside the search box, pause/resume flips `isPlaying`, next and previous, each playback key issuing its call and a poll; any other key changes nothing |
| Tui.OnFocusedKey | cmd/tui.go:710-753 | `FocusedKeyStep`: Play on playlists loads the selected playlist's tracks when the index is valid; Enter in the search box searches the trimmed query only when it is not blank; Play on tracks or results is `PlayTrackStep` or `PlaySearchTrackStep`; the sidebar ignores keys |
| Tui.Update | cmd/tui.go:568-756 | each message as its step: window size, profile, playlists, tracks, search results, failure and playback info each as stated above, with effects only for a profile; a key is a shortcut per `ShortcutStep` or goes to the focused component per `FocusedKeyStep`; keys typed in the search box never change `isPlaying`; the key map is never changed |
| Tui.InitialModel | cmd/tui.go:381-443 | the program starts with sidebar focus, the default keys, nothing loaded or playing; keys other than shortcuts do nothing there, and the playlists key only reports that none are loaded |
| Tui.SkipSpaces | cmd/tui.go:737 | the first position not holding white space |
| Tui.DropTrailingSpaces | cmd/tui.go:737 | the end of the text once trailing white space is dropped |
| Tui.TrimSpace | cmd/tui.go:737 | the trimmed query is the text between leading and trailing white space; it is empty exactly when the query is all white space |
| Tui.StatusLimit | cmd/tui.go:1116-1119 | the rune limit is never negative, at least `width-4`, and either 0 or `width-4` |
| Tui.TruncateStatus | cmd/tui.go:1114-1129 | with a positive width and more runes than the limit, the result has exactly the limit's length: a prefix followed by the ellipsis when the limit is longer than the ellipsis, else a bare prefix; otherwise the text is unchanged |
| Tui.TruncateStatusFits | cmd/tui.go:1114-1129 | a truncated status fits the limit, truncating again changes nothing, and it ends in the ellipsis whenever the ellipsis fits |
| Tui.TruncateStatusEllipsis | cmd/tui.go:1114-1129 | with the single-rune ellipsis U+2026, a status longer than a limit above one keeps its first `limit - 1` runes and ends in U+2026 |
| Tui.ShortPlaylistName | cmd/tui.go:989-991 | names over 20 bytes keep 17 bytes plus "...", so titles never exceed 20 bytes |
| Tui.GoQuotient | cmd/tui.go:942 | the remainder `a - q*b` has the sign of `a` and is smaller than `b` in size, which is division truncating toward zero |
| Tui.ColumnWidth | cmd/tui.go:942-945 | half the width, but at least 28 |
| Tui.DelegateHeight | cmd/tui.go:251-256 | rows showing a description are two lines high, others one |

## Left out

- Client.SpotifyClient.MakeRequest: building a request cannot fail in the model; the error that `http.NewRequest` can return at cmd/util.go:37-40 (an unparseable URL or method) has no counterpart, because URLs and verbs are datatypes that are always well formed.
- cmd/login.go, cmd/profile.go, cmd/base.go and cmd/search.go are not part of this model. They hold a local HTTP server, browser launching, goroutine hand-offs and cobra wiring. Search's artist join is the same join as `joinArtists`.
- The `playlist` command's printing and reading of standard input are left out. Only its choice check and its context URI are modelled. Its "P" option is `StartMusic` with that URI, which is modelled.
- Lipgloss styling and layout (`View`, `renderSidebar`, `renderSearch`, `customDelegate.Render`) are left out. The status bar's text is assembled from styled parts before truncation; the model truncates any given rune sequence.
- `list.Model` and `textinput.Model` are library components that are not shown. Cursor movement, filtering, pagination and text editing are left out. The selected index and the search query are fields that `Update` reads and does not change. Messages other than keys are not passed to them.
- `Init`, `initialModel`'s styles and the loader commands are left out. The loaders are `loadProfileCmd`, `loadPlaylistsCmd`, `loadTracksCmd`, `searchCmd` and `fetchPlaybackCmd`. They appear only as the `Effect`s that start them, and are not executed.
- Concurrency is left out. The `go` playback calls are recorded as effects, not run. The race between concurrent refreshes is out of scope.
- `time.Now`/`lastActionAt`, `sidebarIndex` and `loading` are left out: `Update` does not use them for anything observable here.
- Standard output is left out except for the playback helpers' messages, which are modelled to show the silent switch. The line "Access token expired. Refreshing..." is not modelled.
- JSON is not modelled as bytes:
  - A body is modelled as already decoded.
  - A body of the wrong shape is a decode error. Go's lenient decoding, where missing fields become zero values and unknown fields are ignored, is not modelled.
  - Marshalling errors are not modelled.
- URL handling is not modelled as text. URLs are modelled parsed, and `url.Values.Encode` ordering and percent-encoding are not modelled. Parse errors, ignored at cmd/playlist.go:147 and cmd/playlist.go:177, are not represented.
- The request body consumed by the first attempt is not replayed on the retry at cmd/util.go:75. The model's retry carries the same payload value.
- Env.TokenStore.Write: treats a write as all-or-nothing. The `os.Create`-then-encode sequence at cmd/api.go:114-126 could leave a truncated file, and the model does not capture that. File permissions are not modelled.
- Api.GenerateRandomString: takes a natural `length`, so Go's panic on a negative length is not modelled. The random bytes are a parameter.
- A server that serves `next` links forever cannot be represented: the paging walk ends because every successful request consumes a scripted reply.
- Tui.ShortPlaylistName: works on bytes, as Go's `len` and slicing do. The UTF-8 encoding of the name into those bytes is not modelled.
- Tui.TruncateStatus: works on runes, which are Dafny characters. Go's replacement of invalid UTF-8 by U+FFFD is not modelled.
- Tui.TruncateStatus: takes the ellipsis as a parameter, with the guard `limit > |ellipsis|` as at cmd/tui.go:1122. The literal at cmd/tui.go:1121 is stored as the bytes of the three runes "‚Ä¶" (U+201A U+00C4 U+00B6), evidently a mis-decoded "…", like every emoji in that file. `Tui.Ellipsis` is the single rune U+2026, under which the guard is `limit > 1`. As stored, the guard is `limit > 3`: for a limit of 2 or 3 the code keeps a bare prefix, and above 3 it appends the three runes after `limit - 3` runes. The model covers both readings; `Tui.TruncateStatusEllipsis` states the intended one.
