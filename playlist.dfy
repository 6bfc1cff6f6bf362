/**
 * Playlist browsing (cmd/playlist.go): walking the `next` links of paginated
 * listings through the authenticated client, joining artist names, and the
 * choices the `playlist` command makes.
 */
module Playlists {
  import opened Wrappers
  import opened Model
  import opened Env
  import opened Api
  import opened Client

  const PlaylistPageLimit := "50"
  const TrackPageLimit := "100"
  const PlaylistUriPrefix := "spotify:playlist:"

  // ---------------- Query parameters ----------------

  /** `url.Values.Get`: the first value of a key, or "" when there is none. */
  function QueryGet(query: map<string, seq<string>>, key: string): string
  {
    if key in query && query[key] != [] then query[key][0] else ""
  }

  /** The `limit` parameter is set to `limit` only when the URL has no (non-empty) one. */
  function WithDefaultLimit(h: Href, limit: string): (r: Href)
    requires h.Link?
    ensures r.Link? && r.base == h.base
    ensures QueryGet(h.query, "limit") != "" ==> r == h
    ensures QueryGet(h.query, "limit") == "" ==> r.query == h.query["limit" := [limit]]
    ensures limit != "" ==> QueryGet(r.query, "limit") != ""
    ensures forall k :: k != "limit" ==> QueryGet(r.query, k) == QueryGet(h.query, k)
  {
    if QueryGet(h.query, "limit") == "" then h.(query := h.query["limit" := [limit]]) else h
  }

  // ---------------- Pagination ----------------

  /** The items of the pages, page after page. */
  function Items<T>(pages: seq<Page<T>>): seq<T>
  {
    if pages == [] then [] else Items(pages[..|pages| - 1]) + pages[|pages| - 1].items
  }

  /** Concatenating the page lists concatenates their items. */
  lemma {:induction false} ItemsAppend<T>(a: seq<Page<T>>, b: seq<Page<T>>)
    ensures Items(a + b) == Items(a) + Items(b)
    decreases |b|
  {
    if b == [] {
      assert a + b == a;
    } else {
      var c := b[..|b| - 1];
      assert (a + b)[..|a + b| - 1] == a + c;
      assert (a + b)[|a + b| - 1] == b[|b| - 1];
      ItemsAppend(a, c);
    }
  }

  /** The page a listing body holds, when it is a page of playlists. */
  function PlaylistPageOf(body: Json): Option<Page<Playlist>>
  {
    if body.PlaylistsJson? then Some(body.playlists) else None
  }

  /** The page a listing body holds, when it is a page of playlist entries. */
  function TrackPageOf(body: Json): Option<Page<PlaylistTrack>>
  {
    if body.TracksJson? then Some(body.tracks) else None
  }

  /**
   * The pages link up from `start`: there are none exactly when `start` is
   * empty, and otherwise the rest begin at the first page's `next`, so only
   * the last page has no `next`.
   */
  predicate Chain<T>(start: Href, pages: seq<Page<T>>)
    decreases |pages|
  {
    if pages == [] then start == Empty else start.Link? && Chain(pages[0].next, pages[1..])
  }

  /** The URL requested for each page of a chain: its link, with the default `limit`. */
  function PageUrls<T>(start: Href, limit: string, pages: seq<Page<T>>): (urls: seq<Href>)
    requires Chain(start, pages)
    ensures |urls| == |pages|
    ensures pages != [] ==> urls[0] == WithDefaultLimit(start, limit)
    ensures forall i :: 0 <= i < |pages| - 1 ==>
              pages[i].next.Link? && urls[i + 1] == WithDefaultLimit(pages[i].next, limit)
    ensures limit != "" ==> forall i :: 0 <= i < |urls| ==> urls[i].Link? && QueryGet(urls[i].query, "limit") != ""
    decreases |pages|
  {
    if pages == [] then []
    else [WithDefaultLimit(start, limit)] + PageUrls(pages[0].next, limit, pages[1..])
  }

  /**
   * `fetchAllPlaylists` and `fetchAllTracks` as a function of the token the
   * client holds and the world: from `next` on, GET each page with the
   * default limit and follow its `next` link. A failed request, or a body that
   * is not a page of the expected kind, ends the walk with an error; the
   * status is not looked at. The result holds the pages in visit order.
   */
  function PagesSpec<T>(cfg: Config, token: Token, w: World, next: Href, limit: string,
                        pageOf: Json -> Option<Page<T>>): (out: (Result<seq<Page<T>>, Error>, Token, World))
    ensures out.0.Ok? ==> Chain(next, out.0.value)
    ensures |w.log| <= |out.2.log| && out.2.log[..|w.log|] == w.log
    ensures next == Empty <==> |out.2.log| == |w.log|
    decreases |w.script|
  {
    if next == Empty then (Ok([]), token, w)
    else
      var url := WithDefaultLimit(next, limit);
      var (resp, t1, w1) := RequestSpec(cfg, token, w, Method.Get, url, NoPayload);
      AtMostOneRefresh(cfg, token, w, Method.Get, url, NoPayload);
      SuccessConsumesReply(cfg, token, w, Method.Get, url, NoPayload);
      if resp.Err? then (Err(resp.error), t1, w1)
      else match pageOf(resp.value.body)
        case None => (Err(DecodeFailed), t1, w1)
        case Some(page) =>
          var (rest, t2, w2) := PagesSpec(cfg, t1, w1, page.next, limit, pageOf);
          assert w2.log[..|w.log|] == w1.log[..|w1.log|][..|w.log|];
          (if rest.Err? then Err(rest.error) else Ok([page] + rest.value), t2, w2)
  }

  /** The pages already walked, put in front of what the rest of the walk yields. */
  function After<T>(done: seq<Page<T>>, rest: (Result<seq<Page<T>>, Error>, Token, World))
    : (Result<seq<Page<T>>, Error>, Token, World)
  {
    (if rest.0.Err? then Err(rest.0.error) else Ok(done + rest.0.value), rest.1, rest.2)
  }

  /** Putting pages in front twice is putting their concatenation in front once. */
  lemma AfterAfter<T>(a: seq<Page<T>>, b: seq<Page<T>>, rest: (Result<seq<Page<T>>, Error>, Token, World))
    ensures After(a, After(b, rest)) == After(a + b, rest)
  {
    if rest.0.Ok? {
      assert a + (b + rest.0.value) == a + b + rest.0.value;
    }
  }

  /** One step of the walk: the GET of the current link, then the rest of the walk from the page's `next`. */
  lemma PagesStep<T>(cfg: Config, token: Token, w: World, next: Href, limit: string, pageOf: Json -> Option<Page<T>>)
    requires next != Empty
    ensures var out1 := RequestSpec(cfg, token, w, Method.Get, WithDefaultLimit(next, limit), NoPayload);
            PagesSpec(cfg, token, w, next, limit, pageOf)
            == if out1.0.Err? then (Err(out1.0.error), out1.1, out1.2)
               else if pageOf(out1.0.value.body).None? then (Err(DecodeFailed), out1.1, out1.2)
               else After([pageOf(out1.0.value.body).value],
                          PagesSpec(cfg, out1.1, out1.2, pageOf(out1.0.value.body).value.next, limit, pageOf))
  {
  }

  /** The resource GETs of `urls`, in order, all with the same bearer token. */
  function Gets(token: Token, urls: seq<Href>): (reqs: seq<Request>)
    ensures |reqs| == |urls|
    ensures forall i :: 0 <= i < |urls| ==> reqs[i] == Authorized(token, Method.Get, urls[i], NoPayload)
  {
    seq(|urls|, i requires 0 <= i < |urls| => Authorized(token, Method.Get, urls[i], NoPayload))
  }

  /** The server's next replies answer, one by one, with `pages`, none of them a 401. */
  ghost predicate Serves<T>(script: seq<Reply>, pages: seq<Page<T>>, pageOf: Json -> Option<Page<T>>)
  {
    && |pages| <= |script|
    && forall i :: 0 <= i < |pages| ==>
         && script[i].Answer? && script[i].response.status != StatusUnauthorized
         && pageOf(script[i].response.body) == Some(pages[i])
  }

  /** One step of a served walk: the first GET is answered with the first page. */
  lemma ServedStep<T>(cfg: Config, token: Token, w: World, start: Href, limit: string,
                      pageOf: Json -> Option<Page<T>>, pages: seq<Page<T>>)
    requires Chain(start, pages) && Serves(w.script, pages, pageOf) && pages != []
    ensures var req := Authorized(token, Method.Get, WithDefaultLimit(start, limit), NoPayload);
            var w1 := w.(script := w.script[1..], log := w.log + [req]);
            && Serves(w1.script, pages[1..], pageOf)
            && PagesSpec(cfg, token, w, start, limit, pageOf)
               == After([pages[0]], PagesSpec(cfg, token, w1, pages[0].next, limit, pageOf))
  {
    var url := WithDefaultLimit(start, limit);
    NonUnauthorizedPassesThrough(cfg, token, w, Method.Get, url, NoPayload);
    var w1 := w.(script := w.script[1..], log := w.log + [Authorized(token, Method.Get, url, NoPayload)]);
    assert RequestSpec(cfg, token, w, Method.Get, url, NoPayload) == (Ok(w.script[0].response), token, w1);
    forall i | 0 <= i < |pages| - 1
      ensures w1.script[i] == w.script[i + 1] && pages[1..][i] == pages[i + 1]
    {
    }
  }

  /** The GETs of a URL list: the first URL's, then those of the rest. */
  lemma GetsCons(token: Token, u: Href, us: seq<Href>)
    ensures Gets(token, [u] + us) == [Authorized(token, Method.Get, u, NoPayload)] + Gets(token, us)
  {
    var lhs, rhs := Gets(token, [u] + us), [Authorized(token, Method.Get, u, NoPayload)] + Gets(token, us);
    assert |lhs| == |rhs|;
    forall i | 0 <= i < |lhs|
      ensures lhs[i] == rhs[i]
    {
      if i > 0 {
        assert ([u] + us)[i] == us[i - 1];
      }
    }
  }

  /** The GETs for a chain's URLs: the first page's, then those of the rest of the chain. */
  lemma GetsOfChain<T>(token: Token, start: Href, limit: string, pages: seq<Page<T>>)
    requires Chain(start, pages) && pages != []
    ensures Gets(token, PageUrls(start, limit, pages))
            == [Authorized(token, Method.Get, WithDefaultLimit(start, limit), NoPayload)]
               + Gets(token, PageUrls(pages[0].next, limit, pages[1..]))
  {
    var rest := PageUrls(pages[0].next, limit, pages[1..]);
    assert PageUrls(start, limit, pages) == [WithDefaultLimit(start, limit)] + rest;
    GetsCons(token, WithDefaultLimit(start, limit), rest);
  }

  /**
   * A server that answers with a chain of pages gets exactly one GET per page,
   * each for the page's link with the default limit, and the walk returns
   * exactly those pages, in order, whatever their statuses other than 401.
   */
  lemma {:induction false} ServedWalk<T>(cfg: Config, token: Token, w: World, start: Href, limit: string,
                                         pageOf: Json -> Option<Page<T>>, pages: seq<Page<T>>)
    requires Chain(start, pages) && Serves(w.script, pages, pageOf)
    ensures PagesSpec(cfg, token, w, start, limit, pageOf)
            == (Ok(pages), token,
                w.(script := w.script[|pages|..], log := w.log + Gets(token, PageUrls(start, limit, pages))))
    decreases |pages|
  {
    if pages != [] {
      var req := Authorized(token, Method.Get, WithDefaultLimit(start, limit), NoPayload);
      var w1 := w.(script := w.script[1..], log := w.log + [req]);
      ServedStep(cfg, token, w, start, limit, pageOf, pages);
      ServedWalk(cfg, token, w1, pages[0].next, limit, pageOf, pages[1..]);
      ServedWorld(token, w, start, limit, pages);
      assert [pages[0]] + pages[1..] == pages;
    } else {
      assert w.script[0..] == w.script && w.log + Gets(token, []) == w.log;
    }
  }

  /** The world after the first GET and then the rest of a served walk. */
  lemma ServedWorld<T>(token: Token, w: World, start: Href, limit: string, pages: seq<Page<T>>)
    requires Chain(start, pages) && pages != [] && |pages| <= |w.script|
    ensures var req := Authorized(token, Method.Get, WithDefaultLimit(start, limit), NoPayload);
            var w1 := w.(script := w.script[1..], log := w.log + [req]);
            w1.(script := w1.script[|pages[1..]|..],
                log := w1.log + Gets(token, PageUrls(pages[0].next, limit, pages[1..])))
            == w.(script := w.script[|pages|..], log := w.log + Gets(token, PageUrls(start, limit, pages)))
  {
    var req := Authorized(token, Method.Get, WithDefaultLimit(start, limit), NoPayload);
    var gets := Gets(token, PageUrls(pages[0].next, limit, pages[1..]));
    assert w.script[1..][|pages[1..]|..] == w.script[|pages|..];
    GetsOfChain(token, start, limit, pages);
    assert w.log + [req] + gets == w.log + ([req] + gets);
  }

  /** The client's token agrees with the file before the walk, so it does after it. */
  lemma {:induction false} WalkKeepsTokenPersisted<T>(cfg: Config, token: Token, w: World, next: Href, limit: string,
                                                      pageOf: Json -> Option<Page<T>>)
    requires Load(w.file) == Ok(token)
    ensures var out := PagesSpec(cfg, token, w, next, limit, pageOf);
            Load(out.2.file) == Ok(out.1)
    decreases |w.script|
  {
    if next != Empty {
      var url := WithDefaultLimit(next, limit);
      var (resp, t1, w1) := RequestSpec(cfg, token, w, Method.Get, url, NoPayload);
      TokenStaysPersisted(cfg, token, w, Method.Get, url, NoPayload);
      SuccessConsumesReply(cfg, token, w, Method.Get, url, NoPayload);
      if resp.Ok? && pageOf(resp.value.body).Some? {
        WalkKeepsTokenPersisted(cfg, t1, w1, pageOf(resp.value.body).value.next, limit, pageOf);
      }
    }
  }

  /** `fetchAllPlaylists`: every page from `href` on, items concatenated in visit order. */
  method FetchAllPlaylists(client: SpotifyClient, href: Href) returns (r: Result<seq<Playlist>, Error>)
    modifies client, client.store, client.net
    ensures var out := PagesSpec(client.config, old(client.token), old(WorldOf(client.store, client.net)),
                                 href, PlaylistPageLimit, PlaylistPageOf);
            && client.token == out.1 && WorldOf(client.store, client.net) == out.2
            && r == if out.0.Ok? then Ok(Items(out.0.value)) else Err(out.0.error)
  {
    ghost var spec := PagesSpec(client.config, client.token, WorldOf(client.store, client.net),
                                href, PlaylistPageLimit, PlaylistPageOf);
    ghost var pages: seq<Page<Playlist>> := [];
    var all: seq<Playlist> := [];
    var next := href;
    assert spec.0.Ok? ==> [] + spec.0.value == spec.0.value;
    while next != Empty
      invariant spec == After(pages, PagesSpec(client.config, client.token, WorldOf(client.store, client.net),
                                               next, PlaylistPageLimit, PlaylistPageOf))
      invariant all == Items(pages)
      decreases |client.net.script|
    {
      var url := WithDefaultLimit(next, PlaylistPageLimit);
      ghost var w0, t0 := WorldOf(client.store, client.net), client.token;
      PagesStep(client.config, t0, w0, next, PlaylistPageLimit, PlaylistPageOf);
      var resp := client.Get(url);
      if resp.Err? {
        return Err(resp.error);
      }
      SuccessConsumesReply(client.config, t0, w0, Method.Get, url, NoPayload);
      if !resp.value.body.PlaylistsJson? {
        return Err(DecodeFailed);
      }
      var page := resp.value.body.playlists;
      ItemsAppend(pages, [page]);
      assert Items([page]) == page.items by {
        assert [page][..0] == [];
      }
      ghost var rest := PagesSpec(client.config, client.token, WorldOf(client.store, client.net),
                                  page.next, PlaylistPageLimit, PlaylistPageOf);
      AfterAfter(pages, [page], rest);
      all := all + page.items;
      pages := pages + [page];
      next := page.next;
    }
    assert pages + [] == pages;
    r := Ok(all);
  }

  /** The track of each playlist entry, in order. */
  function TracksOf(items: seq<PlaylistTrack>): (tracks: seq<Track>)
    ensures |tracks| == |items|
    ensures forall i :: 0 <= i < |items| ==> tracks[i] == items[i].track
  {
    seq(|items|, i requires 0 <= i < |items| => items[i].track)
  }

  /** Taking tracks distributes over concatenation. */
  lemma TracksOfAppend(a: seq<PlaylistTrack>, b: seq<PlaylistTrack>)
    ensures TracksOf(a + b) == TracksOf(a) + TracksOf(b)
  {
  }

  /** The inner loop of `fetchAllTracks`: appends the track of each entry of one page. */
  method AppendTracks(all: seq<Track>, items: seq<PlaylistTrack>) returns (out: seq<Track>)
    ensures out == all + TracksOf(items)
  {
    out := all;
    var j := 0;
    while j < |items|
      invariant 0 <= j <= |items|
      invariant out == all + TracksOf(items[..j])
    {
      assert TracksOf(items[..j + 1]) == TracksOf(items[..j]) + [items[j].track];
      out := out + [items[j].track];
      j := j + 1;
    }
    assert items[..j] == items;
  }

  /** `fetchAllTracks`: every page from `href` on, the track of each entry in visit order. */
  method FetchAllTracks(client: SpotifyClient, href: Href) returns (r: Result<seq<Track>, Error>)
    modifies client, client.store, client.net
    ensures var out := PagesSpec(client.config, old(client.token), old(WorldOf(client.store, client.net)),
                                 href, TrackPageLimit, TrackPageOf);
            && client.token == out.1 && WorldOf(client.store, client.net) == out.2
            && r == if out.0.Ok? then Ok(TracksOf(Items(out.0.value))) else Err(out.0.error)
  {
    ghost var spec := PagesSpec(client.config, client.token, WorldOf(client.store, client.net),
                                href, TrackPageLimit, TrackPageOf);
    ghost var pages: seq<Page<PlaylistTrack>> := [];
    var all: seq<Track> := [];
    var next := href;
    assert spec.0.Ok? ==> [] + spec.0.value == spec.0.value;
    while next != Empty
      invariant spec == After(pages, PagesSpec(client.config, client.token, WorldOf(client.store, client.net),
                                               next, TrackPageLimit, TrackPageOf))
      invariant all == TracksOf(Items(pages))
      decreases |client.net.script|
    {
      var url := WithDefaultLimit(next, TrackPageLimit);
      ghost var w0, t0 := WorldOf(client.store, client.net), client.token;
      PagesStep(client.config, t0, w0, next, TrackPageLimit, TrackPageOf);
      var resp := client.Get(url);
      if resp.Err? {
        return Err(resp.error);
      }
      SuccessConsumesReply(client.config, t0, w0, Method.Get, url, NoPayload);
      if !resp.value.body.TracksJson? {
        return Err(DecodeFailed);
      }
      var page := resp.value.body.tracks;
      ItemsAppend(pages, [page]);
      assert Items([page]) == page.items by {
        assert [page][..0] == [];
      }
      TracksOfAppend(Items(pages), page.items);
      ghost var rest := PagesSpec(client.config, client.token, WorldOf(client.store, client.net),
                                  page.next, TrackPageLimit, TrackPageOf);
      AfterAfter(pages, [page], rest);
      all := AppendTracks(all, page.items);
      pages := pages + [page];
      next := page.next;
    }
    assert pages + [] == pages;
    r := Ok(all);
  }

  // ---------------- Artist names ----------------

  /** `strings.Join(names, ", ")`. */
  function JoinNames(names: seq<string>): string
  {
    if |names| == 0 then ""
    else if |names| == 1 then names[0]
    else JoinNames(names[..|names| - 1]) + ", " + names[|names| - 1]
  }

  function NamesOf(artists: seq<Artist>): (names: seq<string>)
    ensures |names| == |artists|
    ensures forall i :: 0 <= i < |artists| ==> names[i] == artists[i].name
  {
    seq(|artists|, i requires 0 <= i < |artists| => artists[i].name)
  }

  /** Joining two non-empty lists puts exactly one separator between their joins. */
  lemma {:induction false} JoinNamesAppend(a: seq<string>, b: seq<string>)
    requires a != [] && b != []
    ensures JoinNames(a + b) == JoinNames(a) + ", " + JoinNames(b)
    decreases |b|
  {
    if |b| > 1 {
      var c := b[..|b| - 1];
      assert (a + b)[..|a + b| - 1] == a + c;
      assert (a + b)[|a + b| - 1] == b[|b| - 1];
      JoinNamesAppend(a, c);
    } else {
      assert (a + b)[..|a + b| - 1] == a;
    }
  }

  /** The join is the first name, then ", " and the join of the rest. */
  lemma JoinNamesCons(first: string, rest: seq<string>)
    ensures rest == [] ==> JoinNames([first] + rest) == first
    ensures rest != [] ==> JoinNames([first] + rest) == first + ", " + JoinNames(rest)
  {
    if rest != [] {
      JoinNamesAppend([first], rest);
    } else {
      assert [first] + rest == [first];
    }
  }

  function TotalLength(names: seq<string>): nat
  {
    if names == [] then 0 else TotalLength(names[..|names| - 1]) + |names[|names| - 1]|
  }

  /** Nothing but the names and one two-character separator between neighbours. */
  lemma {:induction false} JoinNamesLength(names: seq<string>)
    ensures names != [] ==> |JoinNames(names)| == TotalLength(names) + 2 * (|names| - 1)
    ensures names == [] ==> JoinNames(names) == ""
  {
    if |names| > 1 {
      JoinNamesLength(names[..|names| - 1]);
    } else if |names| == 1 {
      assert names[..0] == [];
    }
  }

  /** `joinArtists`. */
  method JoinArtists(artists: seq<Artist>) returns (names: string)
    ensures names == JoinNames(NamesOf(artists))
  {
    ghost var all := NamesOf(artists);
    names := "";
    var i := 0;
    while i < |artists|
      invariant 0 <= i <= |artists|
      invariant names == JoinNames(all[..i])
    {
      assert all[..i + 1][..i] == all[..i];
      if i > 0 {
        names := names + ", ";
      }
      names := names + artists[i].name;
      i := i + 1;
    }
    assert all[..i] == all;
  }

  // ---------------- The `playlist` command's choices ----------------

  /**
   * The playlist picked by the number the user typed (`None` when no number
   * could be read): accepted only between 1 and the number of playlists.
   */
  function SelectPlaylist(all: seq<Playlist>, choice: Option<int>): (r: Option<Playlist>)
    ensures r.Some? <==> choice.Some? && 1 <= choice.value <= |all|
    ensures r.Some? ==> r.value == all[choice.value - 1]
  {
    if choice.None? || choice.value < 1 || choice.value > |all| then None
    else Some(all[choice.value - 1])
  }

  /** The context URI a playlist is played with: its own, or one built from its id. */
  function PlaylistContextUri(p: Playlist): (uri: string)
    ensures uri != ""
    ensures p.uri != "" ==> uri == p.uri
    ensures p.uri == "" ==> uri == PlaylistUriPrefix + p.id
  {
    if p.uri == "" then PlaylistUriPrefix + p.id else p.uri
  }
}
