/**
 * The map endpoints of maps/views.py: the playlist picker, the per-country
 * presence and top artists of one playlist, and the country chart proxy.
 */
module Geo {
  import opened Wrappers
  import opened Ranking
  import opened SortedStrings
  import opened AsciiText
  import opened SpotifyApi
  import opened SpotifyCharts

  /** The ISO 3166-1 alpha-2 codes of the markets Spotify serves. */
  const SpotifyMarkets: set<string> := {
      "AD", "AE", "AF", "AG", "AL", "AM", "AO", "AR", "AT", "AU", "AZ", "BA", "BB", "BD", "BE", "BF",
      "BG", "BH", "BI", "BJ", "BN", "BO", "BR", "BS", "BT", "BW", "BY", "BZ", "CA", "CD", "CG", "CH",
      "CI", "CL", "CM", "CO", "CR", "CV", "CW", "CY", "CZ", "DE", "DJ", "DK", "DM", "DO", "DZ", "EC",
      "EE", "EG", "ES", "ET", "FI", "FJ", "FM", "FR", "GA", "GB", "GD", "GE", "GH", "GM", "GN", "GQ",
      "GR", "GT", "GW", "GY", "HK", "HN", "HR", "HT", "HU", "ID", "IE", "IL", "IN", "IQ", "IS", "IT",
      "JM", "JO", "JP", "KE", "KG", "KH", "KI", "KM", "KN", "KR", "KW", "KZ", "LA", "LB", "LC", "LI",
      "LK", "LR", "LS", "LT", "LU", "LV", "LY", "MA", "MC", "MD", "ME", "MG", "MH", "MK", "ML", "MM",
      "MN", "MO", "MR", "MT", "MU", "MV", "MW", "MX", "MY", "MZ", "NA", "NE", "NG", "NI", "NL", "NO",
      "NP", "NR", "NZ", "OM", "PA", "PE", "PG", "PH", "PK", "PL", "PS", "PT", "PW", "PY", "QA", "RO",
      "RS", "RU", "RW", "SA", "SB", "SC", "SE", "SG", "SI", "SK", "SL", "SM", "SN", "SO", "SR", "ST",
      "SV", "SZ", "TD", "TG", "TH", "TJ", "TL", "TN", "TO", "TR", "TT", "TV", "TW", "TZ", "UA", "UG",
      "US", "UY", "UZ", "VC", "VE", "VN", "VU", "WS", "XK", "ZA", "ZM", "ZW"
    }

  // ----- api_playlists -----

  /** The fields of a `/me/playlists` item the picker reads. */
  datatype Summary = Summary(id: Option<string>, name: Option<string>)

  datatype Choice = Choice(id: string, name: string)

  datatype PlaylistsReply = Choices(playlists: seq<Choice>) | PlaylistsFailed(error: string)

  /** The items with a non-empty id and name, in their listed order. */
  function Selectable(items: seq<Summary>): (r: seq<Choice>)
    ensures |r| <= |items|
  {
    if items == [] then []
    else
      var p := items[|items| - 1];
      Selectable(items[..|items| - 1]) + (if Present(p.id) && Present(p.name) then [Choice(p.id.value, p.name.value)] else [])
  }

  /** Every offered playlist is a listed one with a non-empty id and name, and every such one is offered. */
  lemma {:induction false} SelectableExactly(items: seq<Summary>)
    ensures forall c :: c in Selectable(items) ==> c.id != "" && c.name != "" && Summary(Some(c.id), Some(c.name)) in items
    ensures forall p :: p in items && Present(p.id) && Present(p.name) ==> Choice(p.id.value, p.name.value) in Selectable(items)
  {
    if items != [] {
      var p := items[|items| - 1];
      var init := items[..|items| - 1];
      assert items == init + [p];
      SelectableExactly(init);
      SelectableSnoc(init, p);
    }
  }

  /** Filtering a listing piece by piece gives the filtered listing. */
  lemma {:induction false} SelectableAppend(a: seq<Summary>, b: seq<Summary>)
    ensures Selectable(a + b) == Selectable(a) + Selectable(b)
    decreases |b|
  {
    if b == [] {
      assert a + b == a;
    } else {
      var init := b[..|b| - 1];
      var p := b[|b| - 1];
      assert b == init + [p];
      assert a + b == (a + init) + [p];
      SelectableSnoc(a + init, p);
      SelectableSnoc(init, p);
      SelectableAppend(a, init);
    }
  }

  lemma SelectableSnoc(items: seq<Summary>, p: Summary)
    ensures Selectable(items + [p]) == Selectable(items) + (if Present(p.id) && Present(p.name) then [Choice(p.id.value, p.name.value)] else [])
  {
    assert (items + [p])[..|items|] == items;
  }

  /** `api_playlists`: a failed listing is a 400 error, otherwise the selectable playlists. */
  function ApiPlaylists(listing: Fetched<seq<Summary>>): (r: PlaylistsReply)
    ensures listing.RequestFailed? ==> r == PlaylistsFailed("Failed to fetch playlists")
    ensures listing.Got? ==> r == Choices(Selectable(listing.value)) && |r.playlists| <= |listing.value|
  {
    match listing
    case RequestFailed => PlaylistsFailed("Failed to fetch playlists")
    case Got(items) => Choices(Selectable(items))
  }

  // ----- api_playlist_geo -----

  /** One market of one qualifying track, with the track's named artists. */
  datatype Visit = Visit(market: string, names: seq<string>)

  /** The non-empty markets of a track, each paired with its artist names. */
  function MarketVisits(markets: seq<string>, names: seq<string>): (r: seq<Visit>)
    ensures forall v :: v in r ==> v.market in markets && v.market != "" && v.names == names
    ensures forall m :: m in markets && m != "" ==> Visit(m, names) in r
  {
    if markets == [] then []
    else
      var m := markets[|markets| - 1];
      var init := markets[..|markets| - 1];
      assert markets == init + [m];
      MarketVisits(init, names) + (if m != "" then [Visit(m, names)] else [])
  }

  /** A track counts when it is not null and has at least one named artist. */
  function ItemVisits(item: Item): seq<Visit>
  {
    match item
    case None => []
    case Some(t) =>
      var names := NamedArtists(t.artists);
      if names == [] then [] else MarketVisits(t.markets, names)
  }

  function Visits(items: seq<Item>): seq<Visit>
  {
    if items == [] then []
    else Visits(items[..|items| - 1]) + ItemVisits(items[|items| - 1])
  }

  /** `presence` and `top_artists_by_country` while the tracks are scanned. */
  datatype Tallies = Tallies(presence: set<string>, buckets: map<string, seq<Entry>>)

  const NoTallies := Tallies({}, map[])

  /** `top_artists_by_country.setdefault(m, {})` */
  function Bucket(buckets: map<string, seq<Entry>>, m: string): seq<Entry>
  {
    if m in buckets then buckets[m] else []
  }

  function Record(t: Tallies, v: Visit): Tallies
  {
    Tallies(t.presence + {v.market}, t.buckets[v.market := TallyOnto(Bucket(t.buckets, v.market), v.names)])
  }

  function RecordAll(t: Tallies, vs: seq<Visit>): Tallies
  {
    if vs == [] then t else Record(RecordAll(t, vs[..|vs| - 1]), vs[|vs| - 1])
  }

  lemma {:induction false} RecordAllAppend(t: Tallies, a: seq<Visit>, b: seq<Visit>)
    ensures RecordAll(t, a + b) == RecordAll(RecordAll(t, a), b)
    decreases |b|
  {
    if b == [] {
      assert a + b == a;
    } else {
      assert (a + b)[..|a + b| - 1] == a + b[..|b| - 1];
      RecordAllAppend(t, a, b[..|b| - 1]);
    }
  }

  function MarketsOf(vs: seq<Visit>): set<string>
  {
    set v | v in vs :: v.market
  }

  /** The artist names counted for market `m`: those of every visit to `m`, in order. */
  function StreamFor(vs: seq<Visit>, m: string): seq<string>
  {
    if vs == [] then []
    else
      var v := vs[|vs| - 1];
      StreamFor(vs[..|vs| - 1], m) + (if v.market == m then v.names else [])
  }

  /** Scanning the visits from nothing marks exactly their markets present and opens one bucket for each. */
  lemma {:induction false} RecordAllMarkets(vs: seq<Visit>)
    ensures RecordAll(NoTallies, vs).presence == MarketsOf(vs)
    ensures RecordAll(NoTallies, vs).buckets.Keys == MarketsOf(vs)
  {
    if vs != [] {
      var init, v := vs[..|vs| - 1], vs[|vs| - 1];
      assert vs == init + [v];
      RecordAllMarkets(init);
      assert MarketsOf(vs) == MarketsOf(init) + {v.market};
    }
  }

  /** Each bucket counts the artist names streamed to its market. */
  lemma {:induction false} RecordAllBucket(vs: seq<Visit>, m: string)
    ensures Bucket(RecordAll(NoTallies, vs).buckets, m) == Tally(StreamFor(vs, m))
  {
    if vs != [] {
      var init, v := vs[..|vs| - 1], vs[|vs| - 1];
      RecordAllBucket(init, m);
      var t := RecordAll(NoTallies, init);
      assert RecordAll(NoTallies, vs) == Record(t, v);
      if m == v.market {
        TallyOntoAppend([], StreamFor(init, m), v.names);
      } else {
        assert StreamFor(vs, m) == StreamFor(init, m) + [] == StreamFor(init, m);
        assert Bucket(Record(t, v).buckets, m) == Bucket(t.buckets, m);
      }
    }
  }

  /** `m` is a non-empty market of a non-null track with at least one named artist. */
  predicate ListsMarket(item: Item, m: string)
  {
    item.Some? && NamedArtists(item.value.artists) != [] && m in item.value.markets && m != ""
  }

  /** A market is visited exactly when some qualifying track lists it. */
  lemma {:induction false} VisitedMarkets(items: seq<Item>, m: string)
    ensures m in MarketsOf(Visits(items)) <==> exists i :: 0 <= i < |items| && ListsMarket(items[i], m)
  {
    if items != [] {
      var init, x := items[..|items| - 1], items[|items| - 1];
      VisitedMarkets(init, m);
      MarketsOfAppend(Visits(init), ItemVisits(x));
      ItemMarkets(x, m);
      ListedSomewhere(items, init, m);
    }
  }

  lemma MarketsOfAppend(a: seq<Visit>, b: seq<Visit>)
    ensures MarketsOf(a + b) == MarketsOf(a) + MarketsOf(b)
  {
  }

  /** One track visits exactly the markets it lists, when it qualifies. */
  lemma ItemMarkets(x: Item, m: string)
    ensures m in MarketsOf(ItemVisits(x)) <==> ListsMarket(x, m)
  {
    if ListsMarket(x, m) {
      assert Visit(m, NamedArtists(x.value.artists)) in ItemVisits(x);
    }
  }

  /** Some track lists `m` exactly when an earlier one or the last one does. */
  lemma ListedSomewhere(items: seq<Item>, init: seq<Item>, m: string)
    requires items != [] && init == items[..|items| - 1]
    ensures (exists i :: 0 <= i < |items| && ListsMarket(items[i], m))
        <==> (exists i :: 0 <= i < |init| && ListsMarket(init[i], m)) || ListsMarket(items[|items| - 1], m)
  {
    if exists i :: 0 <= i < |items| && ListsMarket(items[i], m) {
      var i :| 0 <= i < |items| && ListsMarket(items[i], m);
      if i < |init| {
        assert init[i] == items[i];
      }
    }
    if exists i :: 0 <= i < |init| && ListsMarket(init[i], m) {
      var i :| 0 <= i < |init| && ListsMarket(init[i], m);
      assert items[i] == init[i];
    }
  }

  datatype GeoReply =
    | GeoBadRequest(message: string)
    | GeoFetchFailed(error: string)
    | GeoJson(presence: seq<string>, absence: seq<string>, topArtists: map<string, seq<Entry>>)

  /** The five most frequent artists of each bucket. */
  function TopArtists(buckets: map<string, seq<Entry>>): (r: map<string, seq<Entry>>)
    ensures r.Keys == buckets.Keys
  {
    map m | m in buckets :: TopK(buckets[m], 5)
  }

  /** The JSON answer built from the final tallies. */
  function GeoOf(t: Tallies): GeoReply
  {
    GeoJson(Sorted(t.presence), Sorted(SpotifyMarkets - t.presence), TopArtists(t.buckets))
  }

  /** What `api_playlist_geo` answers once the track fetch has an outcome. */
  function GeoAnswer(fetched: Fetched<seq<Item>>): GeoReply
  {
    match fetched
    case RequestFailed => GeoFetchFailed("Failed to fetch playlist tracks")
    case Got(items) => GeoOf(RecordAll(NoTallies, Visits(items)))
  }

  /**
   * The markets of a playlist's answer: both lists sorted, a market present
   * exactly when some qualifying track lists it, absent exactly when Spotify
   * serves it and it is not present, and top artists given for exactly the
   * present markets.
   */
  lemma GeoMarkets(items: seq<Item>)
    ensures var g := GeoAnswer(Got(items));
      && g.GeoJson?
      && StrictlySorted(g.presence) && StrictlySorted(g.absence)
      && (forall m :: m in g.presence <==> exists i :: 0 <= i < |items| && ListsMarket(items[i], m))
      && (forall m :: m in g.absence <==> m in SpotifyMarkets && m !in g.presence)
      && g.topArtists.Keys == MarketsOf(Visits(items))
  {
    GeoOfShape(RecordAll(NoTallies, Visits(items)));
    RecordAllMarkets(Visits(items));
    PresentMarkets(items);
  }

  lemma PresentMarkets(items: seq<Item>)
    ensures forall m :: m in MarketsOf(Visits(items)) <==> exists i :: 0 <= i < |items| && ListsMarket(items[i], m)
  {
    forall m ensures m in MarketsOf(Visits(items)) <==> exists i :: 0 <= i < |items| && ListsMarket(items[i], m) {
      VisitedMarkets(items, m);
    }
  }

  /** The answer lists the present markets and the other Spotify markets, both sorted. */
  lemma GeoOfShape(t: Tallies)
    ensures var g := GeoOf(t);
      && g.GeoJson?
      && StrictlySorted(g.presence) && StrictlySorted(g.absence)
      && (forall m :: m in g.presence <==> m in t.presence)
      && (forall m :: m in g.absence <==> m in SpotifyMarkets && m !in t.presence)
      && g.topArtists.Keys == t.buckets.Keys
  {
  }

  /**
   * The top artists of a present market: at most five distinct artists by
   * non-increasing count, each with the number of times it was credited on
   * a qualifying track listing that market; no artist left out was credited
   * more often than one listed.
   */
  lemma GeoTopArtists(items: seq<Item>, m: string)
    requires m in MarketsOf(Visits(items))
    ensures var top := TopArtists(RecordAll(NoTallies, Visits(items)).buckets);
      var s := StreamFor(Visits(items), m);
      && m in top
      && |top[m]| <= 5 && NonIncreasing(top[m]) && DistinctNames(top[m])
      && (forall e :: e in top[m] ==> e.0 in s && e.1 == CountOf(s, e.0))
      && (forall x, i :: x in s && x !in Names(top[m]) && 0 <= i < |top[m]| ==> CountOf(s, x) <= top[m][i].1)
  {
    var vs := Visits(items);
    var t := RecordAll(NoTallies, vs);
    RecordAllMarkets(vs);
    RecordAllBucket(vs, m);
    assert t.buckets[m] == Tally(StreamFor(vs, m));
    TopTallyProperties(StreamFor(vs, m), 5);
  }

  /** `bucket[name] = bucket.get(name, 0) + 1` for each name in turn. */
  method CountNames(bucket: seq<Entry>, names: seq<string>) returns (b: seq<Entry>)
    ensures b == TallyOnto(bucket, names)
  {
    b := bucket;
    for k := 0 to |names|
      invariant b == TallyOnto(bucket, names[..k])
    {
      assert names[..k + 1][..k] == names[..k];
      b := Bump(b, names[k]);
    }
    assert names[..|names|] == names;
  }

  /** The loop over one track's markets. */
  method RecordMarkets(t: Tallies, markets: seq<string>, names: seq<string>) returns (t': Tallies)
    ensures t' == RecordAll(t, MarketVisits(markets, names))
  {
    var presence, buckets := t.presence, t.buckets;
    for j := 0 to |markets|
      invariant Tallies(presence, buckets) == RecordAll(t, MarketVisits(markets[..j], names))
    {
      var m := markets[j];
      assert markets[..j + 1][..j] == markets[..j];
      ghost var before := MarketVisits(markets[..j], names);
      if m != "" {
        presence := presence + {m};
        var bucket := Bucket(buckets, m);
        bucket := CountNames(bucket, names);
        buckets := buckets[m := bucket];
        assert (before + [Visit(m, names)])[..|before|] == before;
      } else {
        assert before + [] == before;
      }
    }
    assert markets[..|markets|] == markets;
    t' := Tallies(presence, buckets);
  }

  /** `api_playlist_geo`, with `get_playlist_tracks` as the paginated fetch. */
  method ApiPlaylistGeo(playlistId: Option<string>, server: Server, ghost bound: nat) returns (r: GeoReply)
    requires Present(playlistId) ==> Drain(server, TracksUrl(playlistId.value), bound).Some?
    ensures !Present(playlistId) ==> r == GeoBadRequest("playlist_id is required")
    ensures Present(playlistId) ==> r == GeoAnswer(Drain(server, TracksUrl(playlistId.value), bound).value)
  {
    if !Present(playlistId) {
      return GeoBadRequest("playlist_id is required");
    }
    var fetched := FetchAllItems(server, playlistId.value, bound);
    if fetched.RequestFailed? {
      return GeoFetchFailed("Failed to fetch playlist tracks");
    }
    var t := ScanTracks(fetched.value);
    r := GeoOf(t);
  }

  lemma ScanStep(items: seq<Item>, i: nat)
    requires i < |items|
    ensures RecordAll(NoTallies, Visits(items[..i + 1])) == RecordAll(RecordAll(NoTallies, Visits(items[..i])), ItemVisits(items[i]))
  {
    assert items[..i + 1][..i] == items[..i];
    RecordAllAppend(NoTallies, Visits(items[..i]), ItemVisits(items[i]));
  }

  /** The loop over a playlist's tracks, skipping null tracks and tracks without a named artist. */
  method ScanTracks(items: seq<Item>) returns (t: Tallies)
    ensures t == RecordAll(NoTallies, Visits(items))
  {
    t := NoTallies;
    for i := 0 to |items|
      invariant t == RecordAll(NoTallies, Visits(items[..i]))
    {
      ScanStep(items, i);
      var item := items[i];
      if item.Some? {
        var names := NamedArtists(item.value.artists);
        if names != [] {
          t := RecordMarkets(t, item.value.markets, names);
        }
      }
    }
    assert items[..|items|] == items;
  }

  // ----- api_country_charts and api_chart_countries -----

  datatype ChartsReply =
    | ChartsBadRequest(message: string)
    | ChartsJson(chart: ChartResult)
    /** status 400 with the upper-cased code, `has_chart` false and no artists */
    | ChartsError(countryCode: string)

  /**
   * The first request of `trace` that raises (a connection error, a time-out,
   * or a reply whose body is not JSON), if any.
   */
  function FirstRaised(trace: seq<Request>, raises: Request -> bool): (r: Option<nat>)
    ensures r.Some? ==> r.value < |trace| && raises(trace[r.value])
    ensures r.Some? ==> forall j :: 0 <= j < r.value ==> !raises(trace[j])
    ensures r.None? ==> forall j :: 0 <= j < |trace| ==> !raises(trace[j])
  {
    if trace == [] then None
    else if raises(trace[0]) then Some(0)
    else match FirstRaised(trace[1..], raises)
      case Some(k) => Some(k + 1)
      case None => None
  }

  /**
   * `api_country_charts`; `api` is None when `get_top_charts_for_country`
   * raises before its first request (no token, or a failed refresh), and
   * `raises` names the discovery requests that raise. Discovery chooses each
   * request from the replies before it, so a run that raises at a request
   * has made exactly the requests of the full discovery up to that one.
   */
  method ApiCountryCharts(country: Option<string>, api: Option<ChartApi>, raises: Request -> bool)
    returns (r: ChartsReply, trace: seq<Request>)
    ensures !Present(country) ==> r == ChartsBadRequest("country parameter is required") && trace == []
    ensures Present(country) && api.None? ==> r == ChartsError(Upper(country.value)) && trace == []
    ensures Present(country) && api.Some? && FirstRaised(Charts(country.value, api.value).1, raises).None? ==>
      r == ChartsJson(Charts(country.value, api.value).0) && trace == Charts(country.value, api.value).1
    ensures Present(country) && api.Some? && FirstRaised(Charts(country.value, api.value).1, raises).Some? ==>
      var k := FirstRaised(Charts(country.value, api.value).1, raises).value;
      r == ChartsError(Upper(country.value)) && trace == Charts(country.value, api.value).1[..k + 1]
  {
    if !Present(country) {
      return ChartsBadRequest("country parameter is required"), [];
    }
    if api.None? {
      return ChartsError(Upper(country.value)), [];
    }
    var chart, full := TopChartsForCountry(country.value, api.value);
    var raised := FirstRaised(full, raises);
    if raised.Some? {
      return ChartsError(Upper(country.value)), full[..raised.value + 1];
    }
    r, trace := ChartsJson(chart), full;
  }

  /** Whatever happens, a chart answer names the requested country upper-cased. */
  lemma ChartsReplyCode(country: Option<string>, api: Option<ChartApi>, r: ChartsReply, trace: seq<Request>)
    requires Present(country)
    requires r.ChartsError? ==> r == ChartsError(Upper(country.value))
    requires r.ChartsJson? ==> api.Some? && (r.chart, trace) == Charts(country.value, api.value)
    ensures r.ChartsError? ==> r.countryCode == Upper(country.value)
    ensures r.ChartsJson? ==> r.chart.countryCode == Upper(country.value)
  {
    if r.ChartsJson? {
      ChartOutcome(country.value, api.value, false);
    }
  }

  /** `api_chart_countries` */
  function ApiChartCountries(): (r: seq<string>)
    ensures forall c :: c in r <==> TableGet(Top50Playlists, c).Some?
  {
    ChartCountries()
  }
}
