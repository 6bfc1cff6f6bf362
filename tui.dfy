/**
 * The terminal UI's state machine (cmd/tui.go): the model Bubble Tea passes
 * by value through `Update`, the track-playing helpers, and the pure rules the
 * renderer applies (status-bar truncation, playlist-title shortening, column
 * width, row height).
 *
 * Commands returned to Bubble Tea and playback calls started with `go` are
 * both recorded as `Effect`s, in the order the code issues them; nothing here
 * runs them.
 */
module Tui {
  import opened Wrappers
  import opened Model
  import opened Playlists
  import Playback

  // ---------------- Keys ----------------

  /** A key binding: the key names (as Bubble Tea spells them) that trigger it. */
  datatype Binding = Binding(keys: seq<string>)

  /** `key.Matches`: the pressed key is one of the binding's keys. */
  predicate Matches(key: string, b: Binding)
  {
    key in b.keys
  }

  datatype KeyMap = KeyMap(
    quit: Binding, help: Binding, nextPane: Binding, prevPane: Binding, search: Binding,
    playlists: Binding, play: Binding, pause: Binding, next: Binding, prev: Binding)

  const DefaultKeyMap := KeyMap(
    Binding(["q", "ctrl+c"]), Binding(["h", "?"]), Binding(["]"]), Binding(["["]), Binding(["/", "s"]),
    Binding(["p"]), Binding(["enter"]), Binding([" "]), Binding(["l", "right"]), Binding(["h", "left"]))

  /** The name of the Enter key, which the search box reacts to by key type. */
  const EnterKey := "enter"

  // ---------------- Model ----------------

  datatype Focus = SidebarFocus | PlaylistsFocus | TracksFocus | SearchFocus | SearchResultsFocus

  datatype Origin = FromPlaylist | FromSearch

  /** A list row: a playlist name, or a track with its artists and its position in the source list. */
  datatype Item =
    | PlaylistItem(name: string)
    | TrackRow(title: string, sub: string, isFrom: Origin, index: int)

  /** `list.Model`: the rows it shows and the index of the selected one. */
  datatype ListView = ListView(index: int, items: seq<Item>)

  /** The status line, by kind; the decorations around each text are rendering. */
  datatype Status =
    | Welcome
    | NotLoggedIn
    | Hello(username: string)
    | LoggedIn
    | NoPlaylists
    | PlaylistsLoaded(count: int)
    | NoTracks
    | TracksLoaded(count: int)
    | NoResults(query: string)
    | ResultsFound(count: int, query: string)
    | ErrorStatus(message: string)
    | NowPlaying(track: string, artists: string)
    | PausedOn(track: string, artists: string)
    | NoPlaylistsYet
    | Paused
    | Resumed
    | Skipping
    | GoingBack
    | LoadingTracks
    | Searching
    | UriMissing

  datatype TuiModel = TuiModel(
    width: int,
    height: int,
    keys: KeyMap,
    status: Status,
    focus: Focus,
    isLoggedIn: bool,
    userProfile: Option<Profile>,
    playlists: seq<Playlist>,
    currentPlaylistIdx: int,
    currentTracks: seq<PlaylistTrack>,
    searchTracks: seq<TrackItem>,
    playlistList: ListView,
    trackList: ListView,
    searchQuery: string,
    searchList: ListView,
    isPlaying: bool,
    currentTrackURI: string,
    errMsg: string)

  /** `initialModel`: empty lists, sidebar focus, nothing playing. */
  const Initial := TuiModel(
    0, 0, DefaultKeyMap, Welcome, SidebarFocus, false, None, [], 0, [], [],
    ListView(0, []), ListView(0, []), "", ListView(0, []), false, "", "")

  /** The messages `Update` reacts to. */
  datatype Msg =
    | WindowSize(width: int, height: int)
    | ProfileLoaded(profile: Option<Profile>, logged: bool)
    | PlaylistsArrived(playlists: seq<Playlist>)
    | TracksArrived(playlistIdx: int, tracks: seq<PlaylistTrack>)
    | SearchArrived(found: seq<TrackItem>, query: string)
    | Failure(message: string)
    | PlaybackUpdated(info: Option<PlaybackInfo>)
    | Key(key: string)

  /** A command handed back to Bubble Tea, or a playback call started in the background. */
  datatype Effect =
    | QuitProgram
    | LoadPlaylists(userId: string)
    | LoadTracks(playlist: Playlist, index: int)
    | RunSearch(query: string)
    | PollPlayback
    | PlayerControl(command: Playback.Command)
    | StartPlayback(contextURI: Option<string>, uris: Option<seq<string>>)

  // ---------------- Rows ----------------

  function PlaylistRowsOf(playlists: seq<Playlist>): (rows: seq<Item>)
    ensures |rows| == |playlists|
    ensures forall i :: 0 <= i < |playlists| ==> rows[i] == PlaylistItem(playlists[i].name)
  {
    seq(|playlists|, i requires 0 <= i < |playlists| => PlaylistItem(playlists[i].name))
  }

  function TrackRowsOf(tracks: seq<PlaylistTrack>): (rows: seq<Item>)
    ensures |rows| == |tracks|
    ensures forall i :: 0 <= i < |tracks| ==>
              rows[i] == TrackRow(tracks[i].track.name, JoinNames(NamesOf(tracks[i].track.artists)), FromPlaylist, i)
  {
    seq(|tracks|, i requires 0 <= i < |tracks| =>
      TrackRow(tracks[i].track.name, JoinNames(NamesOf(tracks[i].track.artists)), FromPlaylist, i))
  }

  function SearchRowsOf(found: seq<TrackItem>): (rows: seq<Item>)
    ensures |rows| == |found|
    ensures forall i :: 0 <= i < |found| ==>
              rows[i] == TrackRow(found[i].name, JoinNames(NamesOf(found[i].artists)), FromSearch, i)
  {
    seq(|found|, i requires 0 <= i < |found| =>
      TrackRow(found[i].name, JoinNames(NamesOf(found[i].artists)), FromSearch, i))
  }

  /** One playlist row per playlist, in order. */
  method PlaylistRows(playlists: seq<Playlist>) returns (items: seq<Item>)
    ensures items == PlaylistRowsOf(playlists)
  {
    items := [];
    for i := 0 to |playlists|
      invariant items == PlaylistRowsOf(playlists)[..i]
    {
      items := items + [PlaylistItem(playlists[i].name)];
    }
  }

  /** One row per playlist entry, in order, its artists joined by `joinArtists`. */
  method TrackRows(tracks: seq<PlaylistTrack>) returns (items: seq<Item>)
    ensures items == TrackRowsOf(tracks)
  {
    items := [];
    for i := 0 to |tracks|
      invariant items == TrackRowsOf(tracks)[..i]
    {
      var sub := JoinArtists(tracks[i].track.artists);
      items := items + [TrackRow(tracks[i].track.name, sub, FromPlaylist, i)];
    }
  }

  /** `getSearchArtistNames`: collect the names, then join them with ", ". */
  method SearchArtistNames(artists: seq<Artist>) returns (joined: string)
    ensures joined == JoinNames(NamesOf(artists))
  {
    var names: seq<string> := [];
    for i := 0 to |artists|
      invariant names == NamesOf(artists)[..i]
    {
      names := names + [artists[i].name];
    }
    assert names == NamesOf(artists);
    joined := JoinNames(names);
  }

  /** One row per search hit, in order. */
  method SearchRows(found: seq<TrackItem>) returns (items: seq<Item>)
    ensures items == SearchRowsOf(found)
  {
    items := [];
    for i := 0 to |found|
      invariant items == SearchRowsOf(found)[..i]
    {
      var sub := SearchArtistNames(found[i].artists);
      items := items + [TrackRow(found[i].name, sub, FromSearch, i)];
    }
  }

  // ---------------- Messages other than keys ----------------

  /**
   * A loaded profile: the login flag and the profile are stored; the status
   * greets the user, and the playlists are requested for the profile's id, or
   * for "me" when there is no profile; nothing is requested when logged out.
   */
  predicate ProfileLoadedStep(m: TuiModel, profile: Option<Profile>, logged: bool, next: TuiModel, effects: seq<Effect>)
  {
    && next == m.(isLoggedIn := logged, userProfile := profile, status := next.status)
    && (!logged ==> next.status == NotLoggedIn && effects == [])
    && (logged && profile.Some? ==>
          next.status == Hello(profile.value.username) && effects == [LoadPlaylists(profile.value.userid)])
    && (logged && profile.None? ==> next.status == LoggedIn && effects == [LoadPlaylists("me")])
  }

  method OnProfileLoaded(m: TuiModel, profile: Option<Profile>, logged: bool)
    returns (next: TuiModel, effects: seq<Effect>)
    ensures ProfileLoadedStep(m, profile, logged, next, effects)
  {
    next := m.(isLoggedIn := logged, userProfile := profile);
    effects := [];
    if !next.isLoggedIn {
      next := next.(status := NotLoggedIn);
    } else if next.userProfile.Some? {
      next := next.(status := Hello(next.userProfile.value.username));
      effects := effects + [LoadPlaylists(next.userProfile.value.userid)];
    } else {
      next := next.(status := LoggedIn);
      effects := effects + [LoadPlaylists("me")];
    }
  }

  /** Loaded playlists: stored with one row each, and counted in the status. */
  predicate PlaylistsLoadedStep(m: TuiModel, playlists: seq<Playlist>, next: TuiModel)
  {
    next == m.(playlists := playlists, playlistList := m.playlistList.(items := PlaylistRowsOf(playlists)),
               status := if playlists == [] then NoPlaylists else PlaylistsLoaded(|playlists|))
  }

  method OnPlaylistsLoaded(m: TuiModel, playlists: seq<Playlist>) returns (next: TuiModel)
    ensures PlaylistsLoadedStep(m, playlists, next)
  {
    next := m.(playlists := playlists);
    var items := PlaylistRows(playlists);
    next := next.(playlistList := next.playlistList.(items := items));
    if |items| == 0 {
      next := next.(status := NoPlaylists);
    } else {
      next := next.(status := PlaylistsLoaded(|items|));
    }
  }

  /**
   * Loaded tracks: for a playlist index the model does not know they are
   * dropped; otherwise they become the current tracks, with one row each, a
   * count in the status and the focus on the track list.
   */
  predicate TracksLoadedStep(m: TuiModel, idx: int, tracks: seq<PlaylistTrack>, next: TuiModel)
  {
    if 0 <= idx < |m.playlists| then
      next == m.(currentPlaylistIdx := idx, currentTracks := tracks,
                 trackList := m.trackList.(items := TrackRowsOf(tracks)),
                 status := if tracks == [] then NoTracks else TracksLoaded(|tracks|),
                 focus := TracksFocus)
    else next == m
  }

  method OnTracksLoaded(m: TuiModel, idx: int, tracks: seq<PlaylistTrack>) returns (next: TuiModel)
    ensures TracksLoadedStep(m, idx, tracks, next)
  {
    next := m;
    if idx < 0 || idx >= |m.playlists| {
      return;
    }
    next := next.(currentPlaylistIdx := idx, currentTracks := tracks);
    var items := TrackRows(tracks);
    next := next.(trackList := next.trackList.(items := items));
    if |items| == 0 {
      next := next.(status := NoTracks);
    } else {
      next := next.(status := TracksLoaded(|items|));
    }
    next := next.(focus := TracksFocus);
  }

  /** Search results: stored with one row each, counted in the status, and focused. */
  predicate SearchResultsStep(m: TuiModel, found: seq<TrackItem>, query: string, next: TuiModel)
  {
    next == m.(searchTracks := found, searchList := m.searchList.(items := SearchRowsOf(found)),
               status := if found == [] then NoResults(query) else ResultsFound(|found|, query),
               focus := SearchResultsFocus)
  }

  method OnSearchResults(m: TuiModel, found: seq<TrackItem>, query: string) returns (next: TuiModel)
    ensures SearchResultsStep(m, found, query, next)
  {
    next := m.(searchTracks := found);
    var items := SearchRows(found);
    next := next.(searchList := next.searchList.(items := items));
    if |items| == 0 {
      next := next.(status := NoResults(query));
    } else {
      next := next.(status := ResultsFound(|items|, query));
    }
    next := next.(focus := SearchResultsFocus);
  }

  /** A poll result: adopt its play state, and its track and status only when it names a track. */
  predicate PlaybackUpdatedStep(m: TuiModel, info: Option<PlaybackInfo>, next: TuiModel)
  {
    && (info.None? ==> next == m)
    && (info.Some? && info.value.trackName == "" ==> next == m.(isPlaying := info.value.isPlaying))
    && (info.Some? && info.value.trackName != "" ==>
          next == m.(isPlaying := info.value.isPlaying, currentTrackURI := info.value.trackURI,
                     status := if info.value.isPlaying
                               then NowPlaying(info.value.trackName, info.value.artistName)
                               else PausedOn(info.value.trackName, info.value.artistName)))
  }

  method OnPlaybackUpdated(m: TuiModel, info: Option<PlaybackInfo>) returns (next: TuiModel)
    ensures PlaybackUpdatedStep(m, info, next)
  {
    next := m;
    if info.Some? {
      next := next.(isPlaying := info.value.isPlaying);
      if info.value.trackName != "" {
        next := next.(currentTrackURI := info.value.trackURI);
        if next.isPlaying {
          next := next.(status := NowPlaying(info.value.trackName, info.value.artistName));
        } else {
          next := next.(status := PausedOn(info.value.trackName, info.value.artistName));
        }
      }
    }
  }

  // ---------------- Playing the selected track ----------------

  /**
   * Playing the selected entry of the loaded playlist: nothing happens without
   * a valid selection; a track without URI only says so; otherwise the track
   * becomes current and playing, and one start request goes out, in the
   * playlist's context when the current playlist index is valid and for the
   * single track otherwise.
   */
  predicate PlayTrackStep(m: TuiModel, next: TuiModel, effects: seq<Effect>)
  {
    var idx := m.trackList.index;
    if !(0 <= idx < |m.currentTracks|) then next == m && effects == []
    else
      var track := m.currentTracks[idx].track;
      if track.uri == "" then next == m.(status := UriMissing) && effects == []
      else
        && next == m.(isPlaying := true, currentTrackURI := track.uri,
                      status := NowPlaying(track.name, JoinNames(NamesOf(track.artists))))
        && effects == [if 0 <= m.currentPlaylistIdx < |m.playlists|
                       then StartPlayback(Some(PlaylistContextUri(m.playlists[m.currentPlaylistIdx])), None)
                       else StartPlayback(None, Some([track.uri]))]
  }

  /** `playSelectedTrackFromList`. */
  method PlaySelectedTrackFromList(m: TuiModel) returns (next: TuiModel, effects: seq<Effect>)
    ensures PlayTrackStep(m, next, effects)
  {
    next, effects := m, [];
    if |m.currentTracks| == 0 {
      return;
    }
    var idx := m.trackList.index;
    if idx < 0 || idx >= |m.currentTracks| {
      return;
    }
    var track := m.currentTracks[idx].track;
    if track.uri == "" {
      next := next.(status := UriMissing);
      return;
    }
    if 0 <= m.currentPlaylistIdx < |m.playlists| {
      var pl := m.playlists[m.currentPlaylistIdx];
      var playlistURI := pl.uri;
      if playlistURI == "" {
        playlistURI := PlaylistUriPrefix + pl.id;
      }
      effects := effects + [StartPlayback(Some(playlistURI), None)];
    } else {
      effects := effects + [StartPlayback(None, Some([track.uri]))];
    }
    var artists := JoinArtists(track.artists);
    next := next.(isPlaying := true, currentTrackURI := track.uri, status := NowPlaying(track.name, artists));
  }

  /** Playing the selected search hit: as `PlayTrackStep`, always as a single track. */
  predicate PlaySearchTrackStep(m: TuiModel, next: TuiModel, effects: seq<Effect>)
  {
    var idx := m.searchList.index;
    if !(0 <= idx < |m.searchTracks|) then next == m && effects == []
    else
      var track := m.searchTracks[idx];
      if track.uri == "" then next == m.(status := UriMissing) && effects == []
      else
        && next == m.(isPlaying := true, currentTrackURI := track.uri,
                      status := NowPlaying(track.name, JoinNames(NamesOf(track.artists))))
        && effects == [StartPlayback(None, Some([track.uri]))]
  }

  /** `playSelectedSearchTrackFromList`. */
  method PlaySelectedSearchTrackFromList(m: TuiModel) returns (next: TuiModel, effects: seq<Effect>)
    ensures PlaySearchTrackStep(m, next, effects)
  {
    next, effects := m, [];
    if |m.searchTracks| == 0 {
      return;
    }
    var idx := m.searchList.index;
    if idx < 0 || idx >= |m.searchTracks| {
      return;
    }
    var track := m.searchTracks[idx];
    if track.uri == "" {
      next := next.(status := UriMissing);
      return;
    }
    effects := effects + [StartPlayback(None, Some([track.uri]))];
    var artists := SearchArtistNames(track.artists);
    next := next.(isPlaying := true, currentTrackURI := track.uri, status := NowPlaying(track.name, artists));
  }

  // ---------------- Keys ----------------

  /**
   * The keys the global shortcuts take: quit, focus search (unless already
   * there), focus playlists (even from the search box) and, outside the
   * search box, play/pause, next and previous.
   */
  predicate IsShortcut(m: TuiModel, key: string)
  {
    || Matches(key, m.keys.quit)
    || (Matches(key, m.keys.search) && m.focus != SearchFocus)
    || Matches(key, m.keys.playlists)
    || (m.focus != SearchFocus
        && (Matches(key, m.keys.pause) || Matches(key, m.keys.next) || Matches(key, m.keys.prev)))
  }

  /** What a shortcut does, the first matching binding in the order above winning. */
  predicate ShortcutStep(m: TuiModel, key: string, next: TuiModel, effects: seq<Effect>)
  {
    if Matches(key, m.keys.quit) then next == m && effects == [QuitProgram]
    else if Matches(key, m.keys.search) && m.focus != SearchFocus then
      next == m.(focus := SearchFocus) && effects == []
    else if Matches(key, m.keys.playlists) then
      && effects == []
      && next == if m.playlistList.items == [] then m.(status := NoPlaylistsYet) else m.(focus := PlaylistsFocus)
    else if Matches(key, m.keys.pause) then
      && next == m.(isPlaying := !m.isPlaying, status := if m.isPlaying then Paused else Resumed)
      && effects == [PlayerControl(if m.isPlaying then Playback.Pause else Playback.Resume), PollPlayback]
    else if Matches(key, m.keys.next) then
      next == m.(status := Skipping) && effects == [PlayerControl(Playback.Next), PollPlayback]
    else
      next == m.(status := GoingBack) && effects == [PlayerControl(Playback.Previous), PollPlayback]
  }

  /** The global shortcuts. `handled` is false when the key goes on to the focused component. */
  method OnShortcut(m: TuiModel, key: string) returns (next: TuiModel, effects: seq<Effect>, handled: bool)
    ensures handled <==> IsShortcut(m, key)
    ensures handled ==> ShortcutStep(m, key, next, effects)
    ensures !handled ==> next == m && effects == []
  {
    next, effects, handled := m, [], true;
    if Matches(key, m.keys.quit) {
      effects := [QuitProgram];
      return;
    }
    if Matches(key, m.keys.search) && m.focus != SearchFocus {
      next := next.(focus := SearchFocus);
      return;
    }
    if Matches(key, m.keys.playlists) {
      if |m.playlistList.items| == 0 {
        next := next.(status := NoPlaylistsYet);
        return;
      }
      next := next.(focus := PlaylistsFocus);
      return;
    }
    if m.focus == SearchFocus {
      handled := false;
      return;
    }
    if Matches(key, m.keys.pause) {
      if m.isPlaying {
        effects := effects + [PlayerControl(Playback.Pause)];
        next := next.(isPlaying := false, status := Paused);
      } else {
        effects := effects + [PlayerControl(Playback.Resume)];
        next := next.(isPlaying := true, status := Resumed);
      }
      effects := effects + [PollPlayback];
    } else if Matches(key, m.keys.next) {
      effects := effects + [PlayerControl(Playback.Next), PollPlayback];
      next := next.(status := Skipping);
    } else if Matches(key, m.keys.prev) {
      effects := effects + [PlayerControl(Playback.Previous), PollPlayback];
      next := next.(status := GoingBack);
    } else {
      handled := false;
    }
  }

  /**
   * What a key the shortcuts left does in the focused component: Play loads
   * the selected playlist's tracks or plays the selected track, and Enter in
   * the search box searches for the trimmed query when it is not blank.
   */
  predicate FocusedKeyStep(m: TuiModel, key: string, next: TuiModel, effects: seq<Effect>)
  {
    match m.focus
    case SidebarFocus => next == m && effects == []
    case PlaylistsFocus =>
      var idx := m.playlistList.index;
      if Matches(key, m.keys.play) && 0 <= idx < |m.playlists|
      then next == m.(status := LoadingTracks) && effects == [LoadTracks(m.playlists[idx], idx)]
      else next == m && effects == []
    case SearchFocus =>
      var q := TrimSpace(m.searchQuery);
      if key == EnterKey && q != ""
      then next == m.(status := Searching) && effects == [RunSearch(q)]
      else next == m && effects == []
    case TracksFocus =>
      if Matches(key, m.keys.play) then PlayTrackStep(m, next, effects) else next == m && effects == []
    case SearchResultsFocus =>
      if Matches(key, m.keys.play) then PlaySearchTrackStep(m, next, effects) else next == m && effects == []
  }

  method OnFocusedKey(m: TuiModel, key: string) returns (next: TuiModel, effects: seq<Effect>)
    ensures FocusedKeyStep(m, key, next, effects)
  {
    next, effects := m, [];
    match m.focus {
      case PlaylistsFocus =>
        if Matches(key, m.keys.play) {
          if |m.playlists| == 0 {
            return;
          }
          var idx := m.playlistList.index;
          if 0 <= idx < |m.playlists| {
            next := next.(status := LoadingTracks);
            effects := effects + [LoadTracks(m.playlists[idx], idx)];
          }
        }
      case TracksFocus =>
        if Matches(key, m.keys.play) {
          next, effects := PlaySelectedTrackFromList(m);
        }
      case SearchFocus =>
        if key == EnterKey {
          var q := TrimSpace(m.searchQuery);
          if q != "" {
            next := next.(status := Searching);
            effects := effects + [RunSearch(q)];
          }
        }
      case SearchResultsFocus =>
        if Matches(key, m.keys.play) {
          next, effects := PlaySelectedSearchTrackFromList(m);
        }
      case SidebarFocus =>
    }
  }

  /**
   * `tuiModel.Update`: each message as its step predicate says; a key is
   * either a shortcut or goes to the focused component. Whatever happens, the
   * key map stays, typing in the search box never toggles playback, and only
   * keys and a loaded profile issue effects.
   */
  method Update(m: TuiModel, msg: Msg) returns (next: TuiModel, effects: seq<Effect>)
    ensures msg.WindowSize? ==> next == m.(width := msg.width, height := msg.height) && effects == []
    ensures msg.ProfileLoaded? ==> ProfileLoadedStep(m, msg.profile, msg.logged, next, effects)
    ensures msg.PlaylistsArrived? ==> PlaylistsLoadedStep(m, msg.playlists, next) && effects == []
    ensures msg.TracksArrived? ==> TracksLoadedStep(m, msg.playlistIdx, msg.tracks, next) && effects == []
    ensures msg.SearchArrived? ==> SearchResultsStep(m, msg.found, msg.query, next) && effects == []
    ensures msg.Failure? ==> next == m.(errMsg := msg.message, status := ErrorStatus(msg.message)) && effects == []
    ensures msg.PlaybackUpdated? ==> PlaybackUpdatedStep(m, msg.info, next) && effects == []
    ensures msg.Key? && IsShortcut(m, msg.key) ==> ShortcutStep(m, msg.key, next, effects)
    ensures msg.Key? && !IsShortcut(m, msg.key) ==> FocusedKeyStep(m, msg.key, next, effects)
    ensures msg.Key? && m.focus == SearchFocus ==> next.isPlaying == m.isPlaying
    ensures next.keys == m.keys
  {
    next, effects := m, [];
    match msg {
      case WindowSize(w, h) =>
        next := next.(width := w, height := h);
      case ProfileLoaded(profile, logged) =>
        next, effects := OnProfileLoaded(m, profile, logged);
      case PlaylistsArrived(playlists) =>
        next := OnPlaylistsLoaded(m, playlists);
      case TracksArrived(idx, tracks) =>
        next := OnTracksLoaded(m, idx, tracks);
      case SearchArrived(found, query) =>
        next := OnSearchResults(m, found, query);
      case Failure(message) =>
        next := next.(errMsg := message, status := ErrorStatus(message));
      case PlaybackUpdated(info) =>
        next := OnPlaybackUpdated(m, info);
      case Key(key) =>
        var handled;
        next, effects, handled := OnShortcut(m, key);
        if !handled {
          next, effects := OnFocusedKey(m, key);
        }
    }
  }

  /**
   * The model the program starts from: sidebar focus, the default keys,
   * nothing loaded and nothing playing; so no key but the shortcuts does
   * anything in it, and the playlists key only reports that there are none.
   */
  lemma InitialModel(key: string, next: TuiModel, effects: seq<Effect>)
    ensures Initial.focus == SidebarFocus && Initial.keys == DefaultKeyMap && Initial.status == Welcome
    ensures !Initial.isLoggedIn && !Initial.isPlaying && Initial.playlists == [] && Initial.currentTracks == []
    ensures !IsShortcut(Initial, key) && FocusedKeyStep(Initial, key, next, effects) ==> next == Initial && effects == []
    ensures key == "p" && ShortcutStep(Initial, key, next, effects) ==>
              next == Initial.(status := NoPlaylistsYet) && effects == []
  {
  }

  // ---------------- Text ----------------

  /** Go's `unicode.IsSpace`. */
  predicate IsSpace(c: char)
  {
    || '\t' <= c <= '\r' || c == ' ' || c == '\U{85}' || c == '\U{A0}' || c == '\U{1680}'
    || '\U{2000}' <= c <= '\U{200A}' || c == '\U{2028}' || c == '\U{2029}' || c == '\U{202F}'
    || c == '\U{205F}' || c == '\U{3000}'
  }

  /** The first index at or after `i` that does not hold a space (or the end). */
  function SkipSpaces(s: string, i: nat): (k: nat)
    requires i <= |s|
    ensures i <= k <= |s|
    ensures forall j :: i <= j < k ==> IsSpace(s[j])
    ensures k < |s| ==> !IsSpace(s[k])
    decreases |s| - i
  {
    if i == |s| || !IsSpace(s[i]) then i else SkipSpaces(s, i + 1)
  }

  /** The end of `s[lo..hi]` once its trailing spaces are dropped. */
  function DropTrailingSpaces(s: string, lo: nat, hi: nat): (k: nat)
    requires lo <= hi <= |s|
    ensures lo <= k <= hi
    ensures forall j :: k <= j < hi ==> IsSpace(s[j])
    ensures lo < k ==> !IsSpace(s[k - 1])
    decreases hi
  {
    if hi == lo || !IsSpace(s[hi - 1]) then hi else DropTrailingSpaces(s, lo, hi - 1)
  }

  /** `strings.TrimSpace`: the text between the leading and the trailing white space. */
  function TrimSpace(s: string): (r: string)
    ensures r == "" <==> forall j :: 0 <= j < |s| ==> IsSpace(s[j])
    ensures r != "" ==> !IsSpace(r[0]) && !IsSpace(r[|r| - 1])
    ensures exists lo, hi :: 0 <= lo <= hi <= |s| && r == s[lo..hi]
              && (forall j :: 0 <= j < lo ==> IsSpace(s[j])) && (forall j :: hi <= j < |s| ==> IsSpace(s[j]))
  {
    var lo := SkipSpaces(s, 0);
    var hi := DropTrailingSpaces(s, lo, |s|);
    s[lo..hi]
  }

  /** The ellipsis that ends a truncated status bar: the single rune U+2026. */
  const Ellipsis: seq<char> := ['\U{2026}']

  /** The longest status bar, in runes, for a terminal `width` columns wide. */
  function StatusLimit(width: int): (limit: nat)
    ensures limit >= width - 4
    ensures limit == 0 || limit == width - 4
  {
    if width - 4 < 0 then 0 else width - 4
  }

  /**
   * The status-bar truncation of `renderStatusBar`, on runes: when the text is
   * over the limit, it keeps room for the ellipsis and appends it if the limit
   * is longer than the ellipsis, and otherwise cuts to the limit.
   */
  function TruncateStatus(runes: seq<char>, width: int, ellipsis: seq<char>): (r: seq<char>)
    ensures width <= 0 || |runes| <= StatusLimit(width) ==> r == runes
    ensures width > 0 && |runes| > StatusLimit(width) ==>
              && |r| == StatusLimit(width)
              && (StatusLimit(width) > |ellipsis| ==> r == runes[..|r| - |ellipsis|] + ellipsis)
              && (StatusLimit(width) <= |ellipsis| ==> r == runes[..|r|])
  {
    if width > 0 then
      var limit := StatusLimit(width);
      if |runes| > limit then
        if limit > |ellipsis| then runes[..limit - |ellipsis|] + ellipsis else runes[..limit]
      else runes
    else runes
  }

  /**
   * A truncated status bar fits, truncating it again changes nothing, and it
   * ends in the ellipsis whenever the ellipsis fits.
   */
  lemma TruncateStatusFits(runes: seq<char>, width: int, ellipsis: seq<char>)
    requires width > 0
    ensures |TruncateStatus(runes, width, ellipsis)| <= StatusLimit(width)
    ensures TruncateStatus(TruncateStatus(runes, width, ellipsis), width, ellipsis)
            == TruncateStatus(runes, width, ellipsis)
    ensures |runes| > StatusLimit(width) > |ellipsis| ==>
              TruncateStatus(runes, width, ellipsis)[StatusLimit(width) - |ellipsis|..] == ellipsis
  {
  }

  /**
   * With the single-rune ellipsis, a status cut short keeps its first
   * `limit - 1` runes and ends in U+2026 whenever the limit exceeds one rune.
   */
  lemma TruncateStatusEllipsis(runes: seq<char>, width: int)
    requires width > 0
    ensures var r := TruncateStatus(runes, width, Ellipsis);
            |runes| > StatusLimit(width) > 1 ==>
              |r| == StatusLimit(width) && r[|r| - 1] == '\U{2026}' && r[..|r| - 1] == runes[..|r| - 1]
  {
    TruncateStatusFits(runes, width, Ellipsis);
  }

  /** The byte string "...". */
  const Dots: seq<byte> := [46, 46, 46]

  /**
   * The playlist name in the tracks column title: names longer than 20 bytes
   * keep their first 17 bytes and end in "...".
   */
  function ShortPlaylistName(name: seq<byte>): (r: seq<byte>)
    ensures |r| <= 20
    ensures |name| <= 20 ==> r == name
    ensures |name| > 20 ==> |r| == 20 && r[..17] == name[..17] && r[17..] == Dots
  {
    if |name| > 20 then name[..17] + Dots else name
  }

  /**
   * Go's integer division, which truncates toward zero: the remainder has the
   * sign of the dividend and is smaller than the divisor.
   */
  function GoQuotient(a: int, b: int): (q: int)
    requires b > 0
    ensures a >= 0 ==> 0 <= a - q * b < b
    ensures a < 0 ==> -b < a - q * b <= 0
  {
    if a >= 0 then a / b else -((-a) / b)
  }

  /** The width of each of the two columns: half the content, at least 28. */
  function ColumnWidth(width: int): (w: int)
    ensures w >= 28
    ensures w == 28 || w == GoQuotient(width, 2)
    ensures w >= GoQuotient(width, 2)
  {
    var half := GoQuotient(width, 2);
    if half < 28 then 28 else half
  }

  /** `customDelegate.Height`: a second line only for rows that show a description. */
  function DelegateHeight(showDesc: bool): (h: int)
    ensures h == 2 <==> showDesc
    ensures h == 1 <==> !showDesc
  {
    if showDesc then 2 else 1
  }
}
