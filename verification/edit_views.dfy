/**
 * The pages of playlists/views.py around the ledger: `playlist_dashboard`,
 * `render_edit` with its review queue and progress counts, and
 * `get_playlist_tracks_with_previews`.
 */
module EditViews {
  import opened Wrappers
  import opened Users
  import opened AsciiText
  import opened KeptSongs
  import opened Sessions
  import opened SpotifyApi
  import opened Decisions

  // ---------------------------------------------------------------------
  // Songs shown for review.

  /** A dictionary of `get_playlist_tracks_with_previews`. */
  datatype SongView = SongView(
    name: Option<string>, imageUrl: Option<string>, previewUrl: Option<string>,
    spotifyUrl: Option<string>, artists: seq<Option<string>>, trackUri: Option<string>)

  /** The first album image when the track has an album with images. */
  function CoverOf(t: Track): (r: Option<string>)
    ensures r.Some? <==> t.albumImages.Some? && t.albumImages.value != []
    ensures r.Some? ==> r.value == t.albumImages.value[0]
  {
    if t.albumImages.Some? && t.albumImages.value != [] then Some(t.albumImages.value[0]) else None
  }

  function SongOf(t: Track): SongView
  {
    SongView(t.name, CoverOf(t), t.previewUrl, t.spotifyUrl,
             seq(|t.artists|, i requires 0 <= i < |t.artists| => t.artists[i].name), t.uri)
  }

  /** One song per non-null track, in playlist order. */
  function Previews(items: seq<Item>): seq<SongView>
  {
    if items == [] then []
    else
      var last := items[|items| - 1];
      Previews(items[..|items| - 1]) + (if last.Some? then [SongOf(last.value)] else [])
  }

  function NonNull(items: seq<Item>): nat
  {
    if items == [] then 0 else NonNull(items[..|items| - 1]) + (if items[|items| - 1].Some? then 1 else 0)
  }

  /** `get_playlist_tracks_with_previews`, given the items `get_playlist_tracks` returned. */
  method TracksWithPreviews(items: seq<Item>) returns (songs: seq<SongView>)
    ensures songs == Previews(items)
  {
    songs := [];
    var i := 0;
    while i < |items|
      invariant 0 <= i <= |items|
      invariant songs == Previews(items[..i])
    {
      assert items[..i + 1][..i] == items[..i];
      var track := items[i];
      if track.Some? {
        songs := songs + [SongOf(track.value)];
      } else {
        assert Previews(items[..i + 1]) == Previews(items[..i]) + [];
      }
      i := i + 1;
    }
    assert items[..i] == items;
  }

  /** The songs of a playlist split anywhere are the songs of the two parts, and there is one per non-null item. */
  lemma {:induction false} PreviewsAppend(a: seq<Item>, b: seq<Item>)
    ensures Previews(a + b) == Previews(a) + Previews(b)
    ensures |Previews(a)| == NonNull(a) <= |a|
    decreases |b|
  {
    if b == [] {
      assert a + b == a;
      PreviewsCount(a);
    } else {
      var b' := b[..|b| - 1];
      assert (a + b)[..|a + b| - 1] == a + b';
      PreviewsAppend(a, b');
    }
  }

  lemma {:induction false} PreviewsCount(a: seq<Item>)
    ensures |Previews(a)| == NonNull(a) <= |a|
  {
    if a != [] {
      PreviewsCount(a[..|a| - 1]);
    }
  }

  // ---------------------------------------------------------------------
  // The review queue and the progress counts of `render_edit`.

  /** Songs whose URI is not excluded; a song without a URI always stays. */
  function ReviewQueue(songs: seq<SongView>, excluded: set<string>): (q: seq<SongView>)
    ensures |q| <= |songs|
  {
    if songs == [] then []
    else
      var s := songs[0];
      (if s.trackUri.None? || s.trackUri.value !in excluded then [s] else []) + ReviewQueue(songs[1..], excluded)
  }

  lemma {:induction false} ReviewQueueAppend(a: seq<SongView>, b: seq<SongView>, excluded: set<string>)
    ensures ReviewQueue(a + b, excluded) == ReviewQueue(a, excluded) + ReviewQueue(b, excluded)
  {
    if a == [] {
      assert a + b == b;
    } else {
      var s := a[0];
      var head := if s.trackUri.None? || s.trackUri.value !in excluded then [s] else [];
      assert (a + b)[0] == s;
      assert (a + b)[1..] == a[1..] + b;
      assert ReviewQueue(a + b, excluded) == head + ReviewQueue(a[1..] + b, excluded);
      assert ReviewQueue(a, excluded) == head + ReviewQueue(a[1..], excluded);
      ReviewQueueAppend(a[1..], b, excluded);
    }
  }

  /** Every queued song is a song of the playlist whose URI is not excluded. */
  lemma {:induction false} ReviewQueueMembers(songs: seq<SongView>, excluded: set<string>)
    ensures forall s :: s in ReviewQueue(songs, excluded) <==> s in songs && (s.trackUri.None? || s.trackUri.value !in excluded)
  {
    if songs != [] {
      ReviewQueueMembers(songs[1..], excluded);
      assert songs == [songs[0]] + songs[1..];
    }
  }

  datatype Progress = Progress(total: int, processed: int)

  /** `total_count` and `processed_count` of `render_edit`. */
  function ProgressOf(songs: seq<SongView>, removed: set<string>, kept: set<string>): Progress
  {
    var total := |songs| - |removed|;
    Progress(total, total - |ReviewQueue(songs, removed + kept)|)
  }

  function SongUris(songs: seq<SongView>): set<string>
  {
    set i | 0 <= i < |songs| && songs[i].trackUri.Some? :: songs[i].trackUri.value
  }

  /** Every song has a URI and no URI appears twice. */
  predicate DistinctUris(songs: seq<SongView>)
  {
    && (forall i :: 0 <= i < |songs| ==> songs[i].trackUri.Some?)
    && (forall i, j :: 0 <= i < j < |songs| ==> songs[i].trackUri != songs[j].trackUri)
  }

  lemma SongUrisCons(songs: seq<SongView>)
    requires songs != [] && songs[0].trackUri.Some?
    ensures SongUris(songs) == {songs[0].trackUri.value} + SongUris(songs[1..])
  {
    var rest := songs[1..];
    forall x | x in SongUris(songs) ensures x in {songs[0].trackUri.value} + SongUris(rest) {
      var i :| 0 <= i < |songs| && songs[i].trackUri.Some? && songs[i].trackUri.value == x;
      if i > 0 {
        assert rest[i - 1] == songs[i];
      }
    }
    forall x | x in SongUris(rest) ensures x in SongUris(songs) {
      var i :| 0 <= i < |rest| && rest[i].trackUri.Some? && rest[i].trackUri.value == x;
      assert songs[i + 1] == rest[i];
    }
  }

  lemma HeadUriUnique(songs: seq<SongView>)
    requires DistinctUris(songs) && songs != []
    ensures DistinctUris(songs[1..])
    ensures songs[0].trackUri.value !in SongUris(songs[1..])
  {
    var rest := songs[1..];
    forall i | 0 <= i < |rest| ensures rest[i].trackUri != songs[0].trackUri {
      assert rest[i] == songs[i + 1];
    }
  }

  lemma {:induction false} QueueLength(songs: seq<SongView>, excluded: set<string>)
    requires DistinctUris(songs)
    ensures |ReviewQueue(songs, excluded)| + |SongUris(songs) * excluded| == |songs|
  {
    if songs != [] {
      var rest := songs[1..];
      var u := songs[0].trackUri.value;
      HeadUriUnique(songs);
      SongUrisCons(songs);
      QueueLength(rest, excluded);
      if u in excluded {
        assert SongUris(songs) * excluded == {u} + SongUris(rest) * excluded;
      } else {
        assert SongUris(songs) * excluded == SongUris(rest) * excluded;
      }
    }
  }

  lemma {:induction false} SongUrisCard(songs: seq<SongView>)
    requires DistinctUris(songs)
    ensures |SongUris(songs)| == |songs|
  {
    if songs != [] {
      HeadUriUnique(songs);
      SongUrisCons(songs);
      SongUrisCard(songs[1..]);
    }
  }

  /**
   * When every song has its own URI, every removed track is still in the
   * playlist, and no track is both kept and removed, the progress counts
   * the kept songs of the playlist: 0 <= processed <= total.
   */
  lemma ProgressCountsKept(songs: seq<SongView>, removed: set<string>, kept: set<string>)
    requires DistinctUris(songs)
    requires removed <= SongUris(songs)
    requires removed * kept == {}
    ensures ProgressOf(songs, removed, kept).total == |songs| - |removed| >= 0
    ensures ProgressOf(songs, removed, kept).processed == |SongUris(songs) * kept|
    ensures 0 <= ProgressOf(songs, removed, kept).processed <= ProgressOf(songs, removed, kept).total
  {
    var S := SongUris(songs);
    QueueLength(songs, removed + kept);
    SongUrisCard(songs);
    assert S * (removed + kept) == removed + (S * kept);
    assert removed * (S * kept) == {};
    assert |removed + (S * kept)| == |removed| + |S * kept|;
    assert removed + (S * kept) <= S;
    assert |removed + (S * kept)| <= |S| by {
      SubsetCard(removed + (S * kept), S);
    }
  }

  lemma SubsetCard(a: set<string>, b: set<string>)
    requires a <= b
    ensures |a| <= |b|
  {
    assert b == a + (b - a);
  }

  /** After the `show_all` reset, nothing of the playlist counts as processed. */
  lemma ResetRestartsProgress(m: Records, user: User, playlistId: string, songs: seq<SongView>)
    requires DistinctUris(songs)
    requires RemovedUris(m, user, playlistId) <= SongUris(songs)
    ensures var m' := WithoutKept(m, user, playlistId);
      ProgressOf(songs, RemovedUris(m', user, playlistId), KeptUris(m', user, playlistId)).processed == 0
  {
    var m' := WithoutKept(m, user, playlistId);
    ResetClearsKept(m, user, playlistId);
    ProgressCountsKept(songs, RemovedUris(m', user, playlistId), KeptUris(m', user, playlistId));
  }

  // ---------------------------------------------------------------------
  // Choosing the playlist of `render_edit`.

  /** A playlist of the listing: its id, name and track total. */
  datatype PlaylistCard = PlaylistCard(id: string, name: string, total: int)

  function FirstWithId(cards: seq<PlaylistCard>, id: string): (r: Option<nat>)
    ensures r.Some? ==> r.value < |cards| && cards[r.value].id == id
    ensures r.Some? ==> forall j :: 0 <= j < r.value ==> cards[j].id != id
    ensures r.None? ==> forall j :: 0 <= j < |cards| ==> cards[j].id != id
  {
    if cards == [] then None
    else if cards[0].id == id then Some(0)
    else match FirstWithId(cards[1..], id)
      case Some(k) => Some(k + 1)
      case None => None
  }

  /**
   * The requested playlist fetched directly; when that fetch fails, the
   * first card of the first listing page with that id; otherwise the first
   * card; None when there is none.
   */
  function ChoosePlaylist(requested: Option<string>, direct: Fetched<PlaylistCard>, firstPage: seq<PlaylistCard>): (r: Option<PlaylistCard>)
    ensures Present(requested) && direct.Got? ==> r == Some(direct.value)
    ensures Present(requested) && direct.RequestFailed? && FirstWithId(firstPage, requested.value).Some? ==>
      r.Some? && r.value.id == requested.value
    ensures Present(requested) && direct.RequestFailed? && FirstWithId(firstPage, requested.value).Some? ==>
      r == Some(firstPage[FirstWithId(firstPage, requested.value).value])
    ensures (!Present(requested) || (direct.RequestFailed? && FirstWithId(firstPage, requested.value).None?)) ==>
      r == (if firstPage == [] then None else Some(firstPage[0]))
  {
    var found :=
      if !Present(requested) then None
      else if direct.Got? then Some(direct.value)
      else match FirstWithId(firstPage, requested.value)
        case Some(k) => Some(firstPage[k])
        case None => None;
    if found.Some? then found
    else if firstPage == [] then None
    else Some(firstPage[0])
  }

  /** `request.GET.get('show_all', 'false').lower() == 'true'`. */
  predicate ShowAllRequested(param: Option<string>)
  {
    Lower(param.GetOr("false")) == "true"
  }

  datatype EditPage =
    | NoPlaylist
    | ResetThenRedirect(playlistId: string)
    | Edit(songs: seq<SongView>, playlistName: string, playlistId: string, progress: Progress, hasSongs: bool)

  /**
   * `render_edit` once the playlist is chosen: with `show_all` the kept
   * records are reset and the page redirects; otherwise the queue and the
   * progress are computed from the ledger, which is left as it was.
   */
  method RenderEdit(ledger: Ledger, user: User, playlist: Option<PlaylistCard>, showAll: Option<string>, items: seq<Item>)
    returns (page: EditPage)
    modifies ledger
    ensures playlist.None? ==> page == NoPlaylist && ledger.records == old(ledger.records)
    ensures playlist.Some? && ShowAllRequested(showAll) ==>
      page == ResetThenRedirect(playlist.value.id) && ledger.records == WithoutKept(old(ledger.records), user, playlist.value.id)
    ensures playlist.Some? && !ShowAllRequested(showAll) ==>
      var pid := playlist.value.id;
      var songs := Previews(items);
      var removed := RemovedUris(ledger.records, user, pid);
      var kept := KeptUris(ledger.records, user, pid);
      && ledger.records == old(ledger.records)
      && page == Edit(ReviewQueue(songs, removed + kept), playlist.value.name, pid, ProgressOf(songs, removed, kept), songs != [])
  {
    if playlist.None? {
      return NoPlaylist;
    }
    var pid := playlist.value.id;
    if ShowAllRequested(showAll) {
      ledger.ResetKept(user, pid);
      return ResetThenRedirect(pid);
    }
    var songs := TracksWithPreviews(items);
    var removed := RemovedUris(ledger.records, user, pid);
    var kept := KeptUris(ledger.records, user, pid);
    var filtered := ReviewQueue(songs, removed + kept);
    var total := |songs| - |removed|;
    var processed := total - |filtered|;
    page := Edit(filtered, playlist.value.name, pid, Progress(total, processed), |songs| > 0);
  }

  // ---------------------------------------------------------------------
  // The dashboard.

  /** `get_user_playlists` as seen by the dashboard: the first page, or a `requests` error with its text. */
  datatype Listing = Listed(cards: seq<PlaylistCard>) | ListingFailed(reason: string)

  datatype DashboardPage = DashboardPage(playlists: seq<PlaylistCard>, error: Option<string>)

  /**
   * The card of the recently modified playlist, the first with its id,
   * takes the total of a fresh fetch when that fetch answered with tracks;
   * every other card is as listed.
   */
  function FreshCounts(cards: seq<PlaylistCard>, modified: string, latest: Fetched<Option<int>>): (r: seq<PlaylistCard>)
    ensures |r| == |cards|
    ensures forall i :: 0 <= i < |cards| ==> r[i].id == cards[i].id && r[i].name == cards[i].name
    ensures forall i :: 0 <= i < |cards| && FirstWithId(cards, modified) != Some(i) ==> r[i] == cards[i]
    ensures latest.Got? && latest.value.Some? && FirstWithId(cards, modified).Some? ==>
      r[FirstWithId(cards, modified).value].total == latest.value.value
    ensures !(latest.Got? && latest.value.Some?) ==> r == cards
  {
    match FirstWithId(cards, modified)
    case None => cards
    case Some(k) =>
      if latest.Got? && latest.value.Some? then cards[k := cards[k].(total := latest.value.value)] else cards
  }

  /**
   * `playlist_dashboard`: after a listing, a truthy 'modified_playlist_id'
   * refreshes that playlist's count (`latest` answers `get_playlist` for an
   * id: a total, no tracks, or an error) and is then cleared.
   */
  method PlaylistDashboard(session: Session, listing: Listing, latest: string -> Fetched<Option<int>>)
    returns (page: DashboardPage)
    modifies session
    ensures listing.ListingFailed? ==>
      page == DashboardPage([], Some("Failed to fetch playlists: " + listing.reason))
      && session.modifiedPlaylist == old(session.modifiedPlaylist)
    ensures listing.Listed? && !Present(old(session.modifiedPlaylist)) ==>
      page == DashboardPage(listing.cards, None) && session.modifiedPlaylist == old(session.modifiedPlaylist)
    ensures listing.Listed? && Present(old(session.modifiedPlaylist)) ==>
      var m := old(session.modifiedPlaylist).value;
      page == DashboardPage(FreshCounts(listing.cards, m, latest(m)), None) && session.modifiedPlaylist == None
    ensures session.authState == old(session.authState) && session.oauth == old(session.oauth)
  {
    if listing.ListingFailed? {
      return DashboardPage([], Some("Failed to fetch playlists: " + listing.reason));
    }
    var playlists := listing.cards;
    var modified := session.modifiedPlaylist;
    if Present(modified) {
      var i := 0;
      while i < |playlists|
        invariant 0 <= i <= |playlists|
        invariant playlists == listing.cards
        invariant forall j :: 0 <= j < i ==> playlists[j].id != modified.value
      {
        if playlists[i].id == modified.value {
          var freshData := latest(playlists[i].id);
          if freshData.Got? && freshData.value.Some? {
            playlists := playlists[i := playlists[i].(total := freshData.value.value)];
          }
          break;
        }
        i := i + 1;
      }
      session.modifiedPlaylist := None;
    }
    page := DashboardPage(playlists, None);
  }
}
