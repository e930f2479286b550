/**
 * The Spotify Web API objects the core reads, the page loop of
 * `get_playlist_tracks` and the payload of `remove_tracks_from_playlist`
 * (accounts/spotify.py). HTTP answers are inputs: a `Server` maps a page URL
 * to the answer it gets.
 */
module SpotifyApi {
  import opened Wrappers

  /** An artist object; `name` is None when missing or null. */
  datatype Artist = Artist(name: Option<string>)

  /** The fields of a track object that the core reads. */
  datatype Track = Track(
    name: Option<string>,
    uri: Option<string>,
    previewUrl: Option<string>,
    spotifyUrl: Option<string>,            // external_urls.spotify
    albumImages: Option<seq<string>>,      // album.images[*].url; None when the album is missing
    artists: seq<Artist>,
    markets: seq<string>)                  // available_markets

  /** A playlist item: the track object, or None when the track is null. */
  type Item = Option<Track>

  datatype Page = Page(items: seq<Item>, next: Option<string>)

  /** A page request's answer: 2xx with a body, or a failure `raise_for_status` raises. */
  datatype PageResponse = PageOk(page: Page) | PageFailed

  type Server = string -> PageResponse

  datatype Fetched<T> = Got(value: T) | RequestFailed

  const ApiBase := "https://api.spotify.com/v1"

  function TracksUrl(playlistId: string): (u: string)
    ensures u != ""
  {
    ApiBase + "/playlists/" + playlistId + "/tracks"
  }

  /**
   * What draining the pages from `url` yields when at most `n` pages may be
   * fetched: None when the `next` chain is longer than that.
   */
  function Drain(server: Server, url: string, n: nat): Option<Fetched<seq<Item>>>
    decreases n
  {
    if n == 0 then None
    else match server(url)
      case PageFailed => Some(RequestFailed)
      case PageOk(p) =>
        if !Present(p.next) then Some(Got(p.items))
        else Prefix(p.items, Drain(server, p.next.value, n - 1))
  }

  function Prefix(items: seq<Item>, w: Option<Fetched<seq<Item>>>): (r: Option<Fetched<seq<Item>>>)
    ensures r.Some? <==> w.Some?
  {
    match w
    case Some(Got(rest)) => Some(Got(items + rest))
    case _ => w
  }

  lemma PrefixAssoc(a: seq<Item>, b: seq<Item>, w: Option<Fetched<seq<Item>>>)
    ensures Prefix(a, Prefix(b, w)) == Prefix(a + b, w)
    ensures Prefix([], w) == w
  {
    match w
    case Some(Got(rest)) =>
      assert a + (b + rest) == (a + b) + rest;
      assert [] + rest == rest;
    case _ =>
  }

  /**
   * The page loop of `get_playlist_tracks`: fetch, append the page's items,
   * follow `next` until it is null. Its termination rests on the provider's
   * chain ending, stated by the ghost `bound`; the result does not depend on
   * it (`DrainMoreFuel`).
   */
  method FetchAllItems(server: Server, playlistId: string, ghost bound: nat) returns (r: Fetched<seq<Item>>)
    requires Drain(server, TracksUrl(playlistId), bound).Some?
    ensures Some(r) == Drain(server, TracksUrl(playlistId), bound)
  {
    var tracks: seq<Item> := [];
    var url: Option<string> := Some(TracksUrl(playlistId));
    ghost var left := bound;
    PrefixAssoc([], [], Drain(server, url.value, left));
    while Present(url)
      invariant Present(url) ==> Drain(server, TracksUrl(playlistId), bound) == Prefix(tracks, Drain(server, url.value, left))
      invariant Present(url) ==> Drain(server, url.value, left).Some?
      invariant !Present(url) ==> Drain(server, TracksUrl(playlistId), bound) == Some(Got(tracks))
      decreases left
    {
      match server(url.value) {
        case PageFailed =>
          return RequestFailed;
        case PageOk(p) =>
          if Present(p.next) {
            PrefixAssoc(tracks, p.items, Drain(server, p.next.value, left - 1));
          }
          tracks := tracks + p.items;
          url := p.next;
          left := left - 1;
      }
    }
    r := Got(tracks);
  }

  /** More fuel changes nothing once the chain has ended. */
  lemma {:induction false} DrainMoreFuel(server: Server, url: string, n: nat, m: nat)
    requires n <= m && Drain(server, url, n).Some?
    ensures Drain(server, url, m) == Drain(server, url, n)
    decreases n
  {
    match server(url)
    case PageFailed =>
    case PageOk(p) =>
      if Present(p.next) {
        DrainMoreFuel(server, p.next.value, n - 1, m - 1);
      }
  }

  /** `pages` is what the provider serves from `url` on: each page's `next` leads to the following one, the last has none. */
  ghost predicate IsChain(server: Server, url: string, pages: seq<Page>)
  {
    && |pages| > 0
    && server(url) == PageOk(pages[0])
    && (forall i :: 0 <= i < |pages| - 1 ==> Present(pages[i].next) && server(pages[i].next.value) == PageOk(pages[i + 1]))
    && !Present(pages[|pages| - 1].next)
  }

  function AllItems(pages: seq<Page>): seq<Item>
  {
    if pages == [] then [] else pages[0].items + AllItems(pages[1..])
  }

  /** Draining a chain of k pages takes exactly k fetches and yields every page's items, in fetch order. */
  lemma {:induction false} DrainChain(server: Server, url: string, pages: seq<Page>)
    requires IsChain(server, url, pages)
    ensures Drain(server, url, |pages|) == Some(Got(AllItems(pages)))
    ensures forall n: nat :: n < |pages| ==> Drain(server, url, n).None?
    decreases |pages|
  {
    if |pages| == 1 {
      assert pages[1..] == [];
      assert AllItems(pages) == pages[0].items + AllItems([]);
      assert pages[0].items + [] == pages[0].items;
    } else {
      var next := pages[0].next.value;
      assert IsChain(server, next, pages[1..]) by {
        forall i | 0 <= i < |pages[1..]| - 1
          ensures Present(pages[1..][i].next) && server(pages[1..][i].next.value) == PageOk(pages[1..][i + 1])
        {
          assert pages[1..][i] == pages[i + 1];
        }
      }
      DrainChain(server, next, pages[1..]);
      forall n: nat | n < |pages| ensures Drain(server, url, n).None? {
        if n > 0 { assert n - 1 < |pages[1..]|; }
      }
    }
  }

  lemma {:induction false} AllItemsLength(pages: seq<Page>, sizes: seq<nat>)
    requires |sizes| == |pages| && forall i :: 0 <= i < |pages| ==> |pages[i].items| == sizes[i]
    ensures |AllItems(pages)| == Sum(sizes)
  {
    if pages != [] {
      AllItemsLength(pages[1..], sizes[1..]);
    }
  }

  function Sum(s: seq<nat>): nat
  {
    if s == [] then 0 else s[0] + Sum(s[1..])
  }

  /** One entry `{"uri": uri}` of the removal body. */
  datatype TrackRef = TrackRef(uri: string)

  /** `[{"uri": uri} for uri in track_uris]` */
  function RemovalPayload(uris: seq<string>): (p: seq<TrackRef>)
    ensures |p| == |uris|
  {
    seq(|uris|, i requires 0 <= i < |uris| => TrackRef(uris[i]))
  }

  function UrisOf(p: seq<TrackRef>): seq<string>
  {
    if p == [] then [] else [p[0].uri] + UrisOf(p[1..])
  }

  /** The payload names exactly the given URIs, in order. */
  lemma {:induction false} PayloadRoundTrip(uris: seq<string>)
    ensures UrisOf(RemovalPayload(uris)) == uris
  {
    if uris != [] {
      assert RemovalPayload(uris)[1..] == RemovalPayload(uris[1..]);
      PayloadRoundTrip(uris[1..]);
    }
  }
}
