/**
 * Chart discovery (`get_top_charts_for_country`), artist counting
 * (`_parse_playlist_artists`) and the list of chart countries
 * (`get_available_chart_countries`) of accounts/spotify.py.
 *
 * The search and playlist-tracks endpoints are inputs (`ChartApi`); every
 * request made is recorded, in order, in a trace.
 */
module SpotifyCharts {
  import opened Wrappers
  import opened SpotifyApi
  import opened Ranking
  import opened AsciiText

  /** `SPOTIFY_TOP50_PLAYLISTS`, in its insertion order. */
  const Top50Playlists: seq<(string, string)> := [
    ("US", "37i9dQZEVXbLRQDuF5jeBp"), ("GB", "37i9dQZEVXbLnolsZ8PSNw"),
    ("CA", "37i9dQZEVXbKj23U1GF4IR"), ("AU", "37i9dQZEVXbJPcfkRz0wJ0"),
    ("DE", "37i9dQZEVXbJiZcmkrIHGU"), ("FR", "37i9dQZEVXbIPWwFssbupI"),
    ("ES", "37i9dQZEVXbNFJfN1Vw8d9"), ("IT", "37i9dQZEVXbIQnj7RRhdSX"),
    ("BR", "37i9dQZEVXbMXbN3EUUhlg"), ("MX", "37i9dQZEVXbO3qyFxbkOE1"),
    ("JP", "37i9dQZEVXbKXQ4mDTEBXq"), ("GLOBAL", "37i9dQZEVXbMDoHDwVN2tF")]

  /** The id used for the last fallback; the table's 'GLOBAL' entry and the default agree. */
  const GlobalId := "37i9dQZEVXbMDoHDwVN2tF"

  /** `country_names.get(code, '')` in `get_top_charts_for_country`. */
  function CountryName(code: string): string
  {
    if |code| != 2 then "" else NameOfLetters(code[0], code[1])
  }

  /** The display name of the two-letter code `ab`, or "" when it has none. */
  function NameOfLetters(a: char, b: char): string
  {
    match (a, b)
    case ('U', 'S') => "USA"
    case ('G', 'B') => "UK"
    case ('C', 'A') => "Canada"
    case ('A', 'U') => "Australia"
    case ('D', 'E') => "Germany"
    case ('F', 'R') => "France"
    case ('E', 'S') => "Spain"
    case ('I', 'T') => "Italy"
    case ('B', 'R') => "Brazil"
    case ('M', 'X') => "Mexico"
    case ('J', 'P') => "Japan"
    case ('K', 'R') => "South Korea"
    case ('I', 'N') => "India"
    case ('A', 'R') => "Argentina"
    case ('N', 'L') => "Netherlands"
    case ('S', 'E') => "Sweden"
    case ('N', 'O') => "Norway"
    case ('D', 'K') => "Denmark"
    case ('F', 'I') => "Finland"
    case ('P', 'L') => "Poland"
    case ('P', 'T') => "Portugal"
    case ('I', 'E') => "Ireland"
    case ('N', 'Z') => "New Zealand"
    case ('Z', 'A') => "South Africa"
    case ('P', 'H') => "Philippines"
    case ('I', 'D') => "Indonesia"
    case ('T', 'H') => "Thailand"
    case ('T', 'R') => "Turkey"
    case ('U', 'A') => "Ukraine"
    case ('R', 'O') => "Romania"
    case ('H', 'U') => "Hungary"
    case ('C', 'Z') => "Czechia"
    case ('G', 'R') => "Greece"
    case ('I', 'L') => "Israel"
    case ('E', 'G') => "Egypt"
    case ('S', 'A') => "Saudi Arabia"
    case ('A', 'E') => "UAE"
    case ('C', 'H') => "Switzerland"
    case ('A', 'T') => "Austria"
    case ('B', 'E') => "Belgium"
    case ('C', 'L') => "Chile"
    case ('C', 'O') => "Colombia"
    case ('P', 'E') => "Peru"
    case ('V', 'E') => "Venezuela"
    case _ => ""
  }

  /** `table.get(k)` on a dictionary literal. */
  function TableGet(table: seq<(string, string)>, k: string): (r: Option<string>)
    ensures r.Some? ==> (k, r.value) in table
    ensures r.None? ==> forall i :: 0 <= i < |table| ==> table[i].0 != k
  {
    if table == [] then None else if table[0].0 == k then Some(table[0].1) else TableGet(table[1..], k)
  }

  // ---------------------------------------------------------------------
  // Counting artists.

  function NamedArtists(artists: seq<Artist>): (r: seq<string>)
    ensures |r| <= |artists|
  {
    if artists == [] then []
    else
      var last := artists[|artists| - 1];
      NamedArtists(artists[..|artists| - 1]) + (if Present(last.name) then [last.name.value] else [])
  }

  /** A name is counted exactly when some artist of the track carries it as a non-empty name. */
  lemma {:induction false} NamedArtistsExactly(artists: seq<Artist>)
    ensures forall x :: x in NamedArtists(artists) <==>
      exists i :: 0 <= i < |artists| && Present(artists[i].name) && artists[i].name.value == x
  {
    if artists != [] {
      var init := artists[..|artists| - 1];
      NamedArtistsExactly(init);
      assert forall i :: 0 <= i < |init| ==> init[i] == artists[i];
    }
  }

  /** The names keep the artists' order: filtering distributes over concatenation. */
  lemma {:induction false} NamedArtistsAppend(a: seq<Artist>, b: seq<Artist>)
    ensures NamedArtists(a + b) == NamedArtists(a) + NamedArtists(b)
    decreases |b|
  {
    if b == [] {
      assert a + b == a;
    } else {
      var init := b[..|b| - 1];
      assert (a + b)[..|a + b| - 1] == a + init;
      assert (a + b)[|a + b| - 1] == b[|b| - 1];
      NamedArtistsAppend(a, init);
    }
  }

  /** The artist names a playlist item contributes: none for a null track. */
  function ItemArtistNames(item: Item): seq<string>
  {
    match item
    case None => []
    case Some(t) => NamedArtists(t.artists)
  }

  /** Every named artist of every non-null track, in order. */
  function ChartNames(items: seq<Item>): seq<string>
  {
    if items == [] then []
    else ChartNames(items[..|items| - 1]) + ItemArtistNames(items[|items| - 1])
  }

  /** The ten most frequent artists, as `_parse_playlist_artists` ranks them. */
  function ArtistRanking(items: seq<Item>): seq<Entry>
  {
    TopK(Tally(ChartNames(items)), 10)
  }

  datatype ChartResult = ChartResult(countryCode: string, hasChart: bool, artists: seq<Entry>, error: Option<string>)

  function Parsed(items: seq<Item>, code: string, hasChart: bool): ChartResult
  {
    ChartResult(code, hasChart, ArtistRanking(items), None)
  }

  lemma TallyStep(t: seq<Entry>, s: seq<string>, x: string)
    ensures TallyOnto(t, s + [x]) == Bump(TallyOnto(t, s), x)
  {
    assert (s + [x])[..|s + [x]| - 1] == s;
  }

  lemma NamedArtistsStep(artists: seq<Artist>, j: nat)
    requires j < |artists|
    ensures NamedArtists(artists[..j + 1])
         == NamedArtists(artists[..j]) + (if Present(artists[j].name) then [artists[j].name.value] else [])
  {
    assert artists[..j + 1][..j] == artists[..j];
  }

  /** One iteration of the inner loop keeps the count of the names seen so far. */
  lemma CountStep(seen: seq<string>, cur: seq<string>, artists: seq<Artist>, j: nat)
    requires j < |artists| && cur == seen + NamedArtists(artists[..j])
    ensures var name := artists[j].name;
      && (Present(name) ==> cur + [name.value] == seen + NamedArtists(artists[..j + 1])
                            && Tally(cur + [name.value]) == Bump(Tally(cur), name.value))
      && (!Present(name) ==> cur == seen + NamedArtists(artists[..j + 1]))
  {
    NamedArtistsStep(artists, j);
    var name := artists[j].name;
    if Present(name) {
      TallyStep([], cur, name.value);
      assert cur + [name.value] == seen + (NamedArtists(artists[..j]) + [name.value]);
    } else {
      assert NamedArtists(artists[..j + 1]) == NamedArtists(artists[..j]) + [];
    }
  }

  /** The inner loop of `_parse_playlist_artists`: count each named artist of one track. */
  method CountArtists(counts: seq<Entry>, ghost seen: seq<string>, artists: seq<Artist>)
    returns (counts': seq<Entry>, ghost seen': seq<string>)
    requires counts == Tally(seen)
    ensures counts' == Tally(seen + NamedArtists(artists))
    ensures seen' == seen + NamedArtists(artists)
  {
    counts', seen' := counts, seen;
    var j := 0;
    assert artists[..0] == [];
    assert seen + [] == seen;
    while j < |artists|
      invariant 0 <= j <= |artists|
      invariant seen' == seen + NamedArtists(artists[..j])
      invariant counts' == Tally(seen')
    {
      CountStep(seen, seen', artists, j);
      var name := artists[j].name;
      if Present(name) {
        counts' := Bump(counts', name.value);
        seen' := seen' + [name.value];
      }
      j := j + 1;
    }
    assert artists[..j] == artists;
  }

  /** `_parse_playlist_artists`: the counting loop over the items, then the ranking. */
  method ParsePlaylistArtists(items: seq<Item>, code: string, hasChart: bool) returns (r: ChartResult)
    ensures r == Parsed(items, code, hasChart)
  {
    var counts: seq<Entry> := [];
    ghost var seen: seq<string> := [];
    var i := 0;
    while i < |items|
      invariant 0 <= i <= |items|
      invariant seen == ChartNames(items[..i])
      invariant counts == Tally(seen)
    {
      assert items[..i + 1][..i] == items[..i];
      assert ChartNames(items[..i + 1]) == seen + ItemArtistNames(items[i]);
      match items[i] {
        case None =>
          assert seen + [] == seen;
        case Some(track) =>
          counts, seen := CountArtists(counts, seen, track.artists);
      }
      i := i + 1;
    }
    assert items[..i] == items;
    r := ChartResult(code, hasChart, TopK(counts, 10), None);
  }

  /**
   * The artist list of a chart: at most ten distinct artists, each with its
   * number of appearances over the non-null tracks, by non-increasing count;
   * no artist left out appears more often than one listed; ties in order of
   * first appearance.
   */
  lemma ArtistRankingProperties(items: seq<Item>)
    ensures |ArtistRanking(items)| <= 10
    ensures NonIncreasing(ArtistRanking(items))
    ensures DistinctNames(ArtistRanking(items))
    ensures forall e :: e in ArtistRanking(items) ==> e.0 in ChartNames(items) && e.1 == CountOf(ChartNames(items), e.0)
    ensures forall x, i :: x in ChartNames(items) && x !in Names(ArtistRanking(items)) && 0 <= i < |ArtistRanking(items)|
              ==> CountOf(ChartNames(items), x) <= ArtistRanking(items)[i].1
    ensures forall c: nat :: WithCount(ArtistRanking(items), c) <= WithCount(Tally(ChartNames(items)), c)
  {
    TopTallyProperties(ChartNames(items), 10);
  }

  // ---------------------------------------------------------------------
  // Discovery.

  /** A search hit; `total` is `pl.get('tracks', {}).get('total', 0) if pl.get('tracks') else 0`. */
  datatype Candidate = Candidate(id: Option<string>, name: Option<string>, total: int)

  datatype SearchResponse = SearchResponse(status: int, playlists: seq<Option<Candidate>>)

  datatype TracksResponse = TracksResponse(status: int, items: seq<Item>)

  /** The two endpoints: search by (query, limit), and the first tracks of a playlist by id. */
  datatype ChartApi = ChartApi(search: (string, nat) -> SearchResponse, tracks: string -> TracksResponse)

  datatype Request = Search(query: string, limit: nat) | FetchTracks(playlistId: string)

  /** The primary search's test: a chart-like name and at least 20 tracks. */
  predicate PrimaryHit(c: Option<Candidate>)
  {
    c.Some? &&
    var n := Lower(c.value.name.GetOr(""));
    (Contains(n, "top") || Contains(n, "chart") || Contains(n, "hits")) && c.value.total >= 20
  }

  /** The alternate searches' test: at least 20 tracks. */
  predicate AlternateHit(c: Option<Candidate>)
  {
    c.Some? && c.value.total >= 20
  }

  /** The index of the first candidate passing the test. */
  function FirstHit(cs: seq<Option<Candidate>>, primary: bool): (r: Option<nat>)
    ensures r.Some? ==> r.value < |cs| && (if primary then PrimaryHit(cs[r.value]) else AlternateHit(cs[r.value]))
    ensures r.Some? ==> forall j :: 0 <= j < r.value ==> !(if primary then PrimaryHit(cs[j]) else AlternateHit(cs[j]))
    ensures r.None? ==> forall j :: 0 <= j < |cs| ==> !(if primary then PrimaryHit(cs[j]) else AlternateHit(cs[j]))
  {
    if cs == [] then None
    else if (if primary then PrimaryHit(cs[0]) else AlternateHit(cs[0])) then Some(0)
    else match FirstHit(cs[1..], primary)
      case Some(k) => Some(k + 1)
      case None => None
  }

  /** `pl.get('id')` of the first hit, or `otherwise` when nothing passes. */
  function HitId(cs: seq<Option<Candidate>>, primary: bool, otherwise: Option<string>): Option<string>
  {
    match FirstHit(cs, primary)
    case Some(k) => cs[k].value.id
    case None => otherwise
  }

  function AlternateQueries(name: string): seq<string>
  {
    [name + " top hits", name + " charts 2024", "top songs " + name]
  }

  function NoChart(code: string): ChartResult
  {
    ChartResult(code, false, [], Some("Could not fetch charts"))
  }

  /** The requests a strategy makes and, when it settles the answer, the answer. */
  datatype Attempt = Attempt(trace: seq<Request>, result: Option<ChartResult>)

  function Prepend(r: Request, a: Attempt): Attempt
  {
    a.(trace := [r] + a.trace)
  }

  /** `a` preceded by the requests `done`. */
  function AfterSearches(done: seq<Request>, a: Attempt): Attempt
  {
    a.(trace := done + a.trace)
  }

  lemma AfterSearchesStep(done: seq<Request>, r: Request, a: Attempt)
    ensures AfterSearches(done, Prepend(r, a)) == AfterSearches(done + [r], a)
  {
    assert done + ([r] + a.trace) == (done + [r]) + a.trace;
  }

  /** Strategy 1: the registered chart playlist, accepted with a 200 and at least one item. */
  function KnownChart(code: string, api: ChartApi): (a: Attempt)
    ensures TableGet(Top50Playlists, code).None? ==> a == Attempt([], None)
    ensures TableGet(Top50Playlists, code).Some? ==> a.trace == [FetchTracks(TableGet(Top50Playlists, code).value)]
    ensures a.result.Some? ==>
      var t := api.tracks(a.trace[0].playlistId);
      t.status == 200 && t.items != [] && a.result.value == Parsed(t.items, code, true)
  {
    var playlistId := TableGet(Top50Playlists, code);
    if playlistId.None? then Attempt([], None)
    else
      var resp := api.tracks(playlistId.value);
      Attempt([FetchTracks(playlistId.value)],
              if resp.status == 200 && resp.items != [] then Some(Parsed(resp.items, code, true)) else None)
  }

  /**
   * Strategy 2: search "Top 50 <country>" and fetch the first chart-like
   * hit; a 200 is accepted even with no items. Also yields the value
   * `found_playlist_id` holds afterwards.
   */
  function PrimarySearch(code: string, name: string, api: ChartApi): (r: (Attempt, Option<string>))
    ensures name == "" ==> r == (Attempt([], None), None)
    ensures name != "" ==> 1 <= |r.0.trace| <= 2 && r.0.trace[0] == Search("Top 50 " + name, 10)
    ensures |r.0.trace| == 2 ==> Present(r.1) && r.0.trace[1] == FetchTracks(r.1.value)
    ensures r.0.result.Some? ==>
      && |r.0.trace| == 2 && api.tracks(r.1.value).status == 200
      && r.0.result.value == Parsed(api.tracks(r.1.value).items, code, true)
  {
    if name == "" then (Attempt([], None), None)
    else
      var q := "Top 50 " + name;
      var s := api.search(q, 10);
      if s.status != 200 then (Attempt([Search(q, 10)], None), None)
      else
        var found := HitId(s.playlists, true, None);
        if !Present(found) then (Attempt([Search(q, 10)], None), found)
        else
          var t := api.tracks(found.value);
          (Attempt([Search(q, 10), FetchTracks(found.value)],
                   if t.status == 200 then Some(Parsed(t.items, code, true)) else None), found)
  }

  /**
   * Strategy 3: the alternate search terms, in order. Once an id is in hand
   * its playlist is fetched and no further term is tried. With `carryOver`
   * (the code as written) a 200 search without a hit leaves the previous
   * `found` in place; without it, each term starts afresh.
   */
  function Alternates(terms: seq<string>, found: Option<string>, carryOver: bool, code: string, api: ChartApi): (a: Attempt)
    ensures |a.trace| <= |terms| + 1
    decreases |terms|
  {
    if terms == [] then Attempt([], None)
    else
      var q := terms[0];
      var s := api.search(q, 5);
      if s.status != 200 then Prepend(Search(q, 5), Alternates(terms[1..], found, carryOver, code, api))
      else
        var f := HitId(s.playlists, false, if carryOver then found else None);
        if Present(f) then
          var t := api.tracks(f.value);
          Attempt([Search(q, 5), FetchTracks(f.value)], if t.status == 200 then Some(Parsed(t.items, code, true)) else None)
        else Prepend(Search(q, 5), Alternates(terms[1..], f, carryOver, code, api))
  }

  /** Without carry-over, the `found` a term starts with plays no part. */
  lemma FoundIgnored(terms: seq<string>, found: Option<string>, code: string, api: ChartApi)
    ensures Alternates(terms, found, false, code, api) == Alternates(terms, None, false, code, api)
  {
  }

  /** Strategy 4: the Global Top 50, accepted only with at least one item, and then without `has_chart`. */
  function GlobalChart(code: string, api: ChartApi): (a: Attempt)
    ensures a.trace == [FetchTracks(GlobalId)]
    ensures a.result.Some? <==> api.tracks(GlobalId).status == 200 && api.tracks(GlobalId).items != []
    ensures a.result.Some? ==> !a.result.value.hasChart && a.result.value.countryCode == code
  {
    var resp := api.tracks(GlobalId);
    Attempt([FetchTracks(GlobalId)], if resp.status == 200 && resp.items != [] then Some(Parsed(resp.items, code, false)) else None)
  }

  /**
   * The strategies in turn: the first that settles the answer decides it,
   * and the requests are those of every strategy tried.
   */
  function Chain(code: string, known: Attempt, primary: Attempt, alternates: Attempt, global: Attempt): (ChartResult, seq<Request>)
  {
    if known.result.Some? then (known.result.value, known.trace)
    else if primary.result.Some? then (primary.result.value, known.trace + primary.trace)
    else if alternates.result.Some? then (alternates.result.value, known.trace + primary.trace + alternates.trace)
    else (global.result.GetOr(NoChart(code)), known.trace + primary.trace + alternates.trace + global.trace)
  }

  /** The whole discovery: the answer and every request made, in order. */
  function Discovery(countryCode: string, api: ChartApi, carryOver: bool): (ChartResult, seq<Request>)
  {
    var code := Upper(countryCode);
    var name := CountryName(code);
    var (primary, found) := PrimarySearch(code, name, api);
    var alternates := if name == "" then Attempt([], None) else Alternates(AlternateQueries(name), found, carryOver, code, api);
    Chain(code, KnownChart(code, api), primary, alternates, GlobalChart(code, api))
  }

  /** `get_top_charts_for_country` as written. */
  function ChartsAsWritten(countryCode: string, api: ChartApi): (r: (ChartResult, seq<Request>))
    ensures DecidedByLastFetch(Upper(countryCode), api, r)
  {
    ChartOutcome(countryCode, api, true);
    Discovery(countryCode, api, true)
  }

  /** `get_top_charts_for_country` with `found_playlist_id` cleared before each alternate term. */
  function Charts(countryCode: string, api: ChartApi): (r: (ChartResult, seq<Request>))
    ensures DecidedByLastFetch(Upper(countryCode), api, r)
  {
    ChartOutcome(countryCode, api, false);
    Discovery(countryCode, api, false)
  }

  /** A candidate loop of `get_top_charts_for_country`: `found` is overwritten by the first hit's id. */
  method FindHit(cs: seq<Option<Candidate>>, primary: bool, found: Option<string>) returns (f: Option<string>)
    ensures f == HitId(cs, primary, found)
  {
    f := found;
    var k := 0;
    while k < |cs|
      invariant 0 <= k <= |cs|
      invariant f == found
      invariant forall j :: 0 <= j < k ==> !(if primary then PrimaryHit(cs[j]) else AlternateHit(cs[j]))
    {
      var pl := cs[k];
      if pl.Some? {
        var hit := if primary then PrimaryHit(pl) else AlternateHit(pl);
        if hit {
          f := pl.value.id;
          assert FirstHit(cs, primary) == Some(k);
          return;
        }
      }
      k := k + 1;
    }
  }

  /** Strategy 1 of `get_top_charts_for_country`. */
  method TryKnownChart(code: string, api: ChartApi) returns (a: Attempt)
    ensures a == KnownChart(code, api)
  {
    var playlistId := TableGet(Top50Playlists, code);
    if playlistId.None? {
      return Attempt([], None);
    }
    var resp := api.tracks(playlistId.value);
    var result: Option<ChartResult> := None;
    if resp.status == 200 && resp.items != [] {
      var parsed := ParsePlaylistArtists(resp.items, code, true);
      result := Some(parsed);
    }
    a := Attempt([FetchTracks(playlistId.value)], result);
  }

  /** Strategy 2 of `get_top_charts_for_country`, with the `found_playlist_id` it leaves. */
  method TryPrimary(code: string, name: string, api: ChartApi) returns (a: Attempt, found: Option<string>)
    ensures (a, found) == PrimarySearch(code, name, api)
  {
    found := None;
    if name == "" {
      return Attempt([], None), found;
    }
    var q := "Top 50 " + name;
    var s := api.search(q, 10);
    if s.status != 200 {
      return Attempt([Search(q, 10)], None), found;
    }
    found := FindHit(s.playlists, true, found);
    if !Present(found) {
      return Attempt([Search(q, 10)], None), found;
    }
    var t := api.tracks(found.value);
    var result: Option<ChartResult> := None;
    if t.status == 200 {
      var parsed := ParsePlaylistArtists(t.items, code, true);
      result := Some(parsed);
    }
    a := Attempt([Search(q, 10), FetchTracks(found.value)], result);
  }

  /** Strategy 3 of `get_top_charts_for_country`, with `found_playlist_id` cleared before each term. */
  method TryAlternates(terms: seq<string>, code: string, api: ChartApi) returns (a: Attempt)
    ensures a == Alternates(terms, None, false, code, api)
  {
    var trace: seq<Request> := [];
    var i := 0;
    while i < |terms|
      invariant 0 <= i <= |terms|
      invariant Alternates(terms, None, false, code, api) == AfterSearches(trace, Alternates(terms[i..], None, false, code, api))
    {
      var found: Option<string> := None;
      var q := terms[i];
      var s := api.search(q, 5);
      assert terms[i..][1..] == terms[i + 1..];
      if s.status == 200 {
        found := FindHit(s.playlists, false, found);
        if Present(found) {
          var t := api.tracks(found.value);
          var result: Option<ChartResult> := None;
          if t.status == 200 {
            var parsed := ParsePlaylistArtists(t.items, code, true);
            result := Some(parsed);
          }
          return Attempt(trace + [Search(q, 5), FetchTracks(found.value)], result);
        }
      }
      FoundIgnored(terms[i + 1..], found, code, api);
      AfterSearchesStep(trace, Search(q, 5), Alternates(terms[i + 1..], None, false, code, api));
      trace := trace + [Search(q, 5)];
      i := i + 1;
    }
    a := Attempt(trace, None);
  }

  /** Strategy 4 of `get_top_charts_for_country`. */
  method TryGlobal(code: string, api: ChartApi) returns (a: Attempt)
    ensures a == GlobalChart(code, api)
  {
    var resp := api.tracks(GlobalId);
    a := Attempt([FetchTracks(GlobalId)], None);
    if resp.status == 200 && resp.items != [] {
      var parsed := ParsePlaylistArtists(resp.items, code, false);
      a := a.(result := Some(parsed));
    }
  }

  /**
   * `get_top_charts_for_country` once the access token is in hand, with
   * `found_playlist_id` cleared before each alternate term.
   */
  method TopChartsForCountry(countryCode: string, api: ChartApi) returns (r: ChartResult, trace: seq<Request>)
    ensures (r, trace) == Charts(countryCode, api)
  {
    var code := Upper(countryCode);
    var name := CountryName(code);
    var known := TryKnownChart(code, api);
    if known.result.Some? {
      return known.result.value, known.trace;
    }
    var primary, found := TryPrimary(code, name, api);
    if primary.result.Some? {
      return primary.result.value, known.trace + primary.trace;
    }
    var alternates := Attempt([], None);
    if name != "" {
      alternates := TryAlternates(AlternateQueries(name), code, api);
      FoundIgnored(AlternateQueries(name), found, code, api);
    }
    assert alternates == if name == "" then Attempt([], None) else Alternates(AlternateQueries(name), found, false, code, api);
    if alternates.result.Some? {
      return alternates.result.value, known.trace + primary.trace + alternates.trace;
    }
    var global := TryGlobal(code, api);
    r := if global.result.Some? then global.result.value else NoChart(code);
    trace := known.trace + primary.trace + alternates.trace + global.trace;
  }

  // ---------------------------------------------------------------------
  // Properties of the chain.

  function SearchesFor(terms: seq<string>): (r: seq<Request>)
    ensures |r| == |terms|
  {
    seq(|terms|, i requires 0 <= i < |terms| => Search(terms[i], 5))
  }

  lemma SearchesForCons(q: string, rest: seq<string>)
    ensures SearchesFor([q] + rest) == [Search(q, 5)] + SearchesFor(rest)
  {
  }

  /**
   * The shape of the alternate stage `a`: the first `k` terms are searched
   * in the listed order; the stage either runs out of terms without an
   * answer, or ends with exactly one playlist fetch, whose 200 response is
   * accepted whatever its items. Without carry-over the fetched id is the
   * hit of the search just made.
   */
  predicate Shaped(terms: seq<string>, carryOver: bool, code: string, api: ChartApi, a: Attempt, k: nat)
  {
    && k <= |terms| && k <= |a.trace| && a.trace[..k] == SearchesFor(terms[..k])
    && (|a.trace| == k ==> k == |terms| && a.result.None?)
    && (|a.trace| != k ==>
          && 1 <= k && |a.trace| == k + 1 && a.trace[k].FetchTracks?
          && var t := api.tracks(a.trace[k].playlistId);
          && a.result == (if t.status == 200 then Some(Parsed(t.items, code, true)) else None)
          && (!carryOver ==> && api.search(terms[k - 1], 5).status == 200
                             && HitId(api.search(terms[k - 1], 5).playlists, false, None) == Some(a.trace[k].playlistId)))
  }

  /** The alternate stage has the shape above, for some number `k` of searches. */
  lemma {:induction false} AlternatesShape(terms: seq<string>, found: Option<string>, carryOver: bool, code: string, api: ChartApi)
    returns (k: nat)
    ensures Shaped(terms, carryOver, code, api, Alternates(terms, found, carryOver, code, api), k)
    decreases |terms|
  {
    if terms == [] {
      k := 0;
    } else {
      var s := api.search(terms[0], 5);
      var f := HitId(s.playlists, false, if carryOver then found else None);
      if s.status == 200 && Present(f) {
        k := 1;
        HitShaped(terms, found, carryOver, code, api);
      } else {
        var next := if s.status != 200 then found else f;
        var k' := AlternatesShape(terms[1..], next, carryOver, code, api);
        MissShaped(terms, found, carryOver, code, api, k');
        k := k' + 1;
      }
    }
  }

  /** A first term whose search finds a hit: one search, then the fetch. */
  lemma HitShaped(terms: seq<string>, found: Option<string>, carryOver: bool, code: string, api: ChartApi)
    requires terms != []
    requires var s := api.search(terms[0], 5);
      s.status == 200 && Present(HitId(s.playlists, false, if carryOver then found else None))
    ensures Shaped(terms, carryOver, code, api, Alternates(terms, found, carryOver, code, api), 1)
  {
    var q := terms[0];
    var f := HitId(api.search(q, 5).playlists, false, if carryOver then found else None);
    assert Alternates(terms, found, carryOver, code, api).trace == [Search(q, 5), FetchTracks(f.value)];
    assert terms[..1] == [q];
  }

  /** A first term without a hit: its search, then the stage for the other terms. */
  lemma MissShaped(terms: seq<string>, found: Option<string>, carryOver: bool, code: string, api: ChartApi, k': nat)
    requires terms != []
    requires var s := api.search(terms[0], 5);
      var f := HitId(s.playlists, false, if carryOver then found else None);
      && !(s.status == 200 && Present(f))
      && Shaped(terms[1..], carryOver, code, api, Alternates(terms[1..], if s.status != 200 then found else f, carryOver, code, api), k')
    ensures Shaped(terms, carryOver, code, api, Alternates(terms, found, carryOver, code, api), k' + 1)
  {
    var s := api.search(terms[0], 5);
    var f := HitId(s.playlists, false, if carryOver then found else None);
    var rest := Alternates(terms[1..], if s.status != 200 then found else f, carryOver, code, api);
    assert Alternates(terms, found, carryOver, code, api) == Prepend(Search(terms[0], 5), rest);
    PrependShaped(terms, carryOver, code, api, rest, k');
  }

  /** Searching one more term in front of a shaped stage keeps it shaped. */
  lemma PrependShaped(terms: seq<string>, carryOver: bool, code: string, api: ChartApi, rest: Attempt, k': nat)
    requires terms != [] && Shaped(terms[1..], carryOver, code, api, rest, k')
    ensures Shaped(terms, carryOver, code, api, Prepend(Search(terms[0], 5), rest), k' + 1)
  {
    var q := terms[0];
    var a := Prepend(Search(q, 5), rest);
    var k := k' + 1;
    assert terms[1..][..k'] == terms[1..k];
    assert terms[..k] == [q] + terms[1..k];
    SearchesForCons(q, terms[1..k]);
    ConsPrefix(Search(q, 5), rest.trace, k');
    if |a.trace| != k {
      assert a.trace[k] == rest.trace[k'];
      assert terms[k - 1] == terms[1..][k' - 1];
    }
  }

  lemma ConsPrefix(r: Request, s: seq<Request>, n: nat)
    requires n <= |s|
    ensures ([r] + s)[..n + 1] == [r] + s[..n]
  {
  }

  /** When `a` settles the answer, its last request fetched the playlist whose 200 answer was parsed. */
  predicate SettledByLastFetch(a: Attempt, code: string, api: ChartApi, hasChart: bool)
  {
    a.result.Some? ==>
      && a.trace != [] && a.trace[|a.trace| - 1].FetchTracks?
      && var t := api.tracks(a.trace[|a.trace| - 1].playlistId);
      && t.status == 200 && a.result.value == Parsed(t.items, code, hasChart)
  }

  lemma KnownSettled(code: string, api: ChartApi)
    ensures SettledByLastFetch(KnownChart(code, api), code, api, true)
  {
  }

  lemma PrimarySettled(code: string, name: string, api: ChartApi)
    ensures SettledByLastFetch(PrimarySearch(code, name, api).0, code, api, true)
  {
  }

  lemma AlternatesSettled(terms: seq<string>, found: Option<string>, carryOver: bool, code: string, api: ChartApi)
    ensures SettledByLastFetch(Alternates(terms, found, carryOver, code, api), code, api, true)
  {
    var k := AlternatesShape(terms, found, carryOver, code, api);
    ShapedSettled(terms, carryOver, code, api, Alternates(terms, found, carryOver, code, api), k);
  }

  lemma ShapedSettled(terms: seq<string>, carryOver: bool, code: string, api: ChartApi, a: Attempt, k: nat)
    requires Shaped(terms, carryOver, code, api, a, k)
    ensures SettledByLastFetch(a, code, api, true)
  {
    if a.result.Some? {
      assert |a.trace| == k + 1;
    }
  }

  lemma GlobalSettled(code: string, api: ChartApi)
    ensures SettledByLastFetch(GlobalChart(code, api), code, api, false)
  {
  }

  lemma LastOfAppend(a: seq<Request>, b: seq<Request>)
    requires b != []
    ensures (a + b)[|a + b| - 1] == b[|b| - 1]
  {
  }

  /**
   * An answer for `code` decided by its last request, a playlist fetch:
   * with `has_chart` that fetch answered 200 and was parsed; without
   * `has_chart` and without error it was the Global list, with at least one
   * item; otherwise it is the error answer after the Global list failed.
   */
  predicate DecidedByLastFetch(code: string, api: ChartApi, answer: (ChartResult, seq<Request>))
  {
    var (r, trace) := answer;
      && r.countryCode == code
      && trace != [] && trace[|trace| - 1].FetchTracks?
      && var last := api.tracks(trace[|trace| - 1].playlistId);
      && (r.hasChart ==> last.status == 200 && r == Parsed(last.items, code, true))
      && (!r.hasChart && r.error.None? ==>
            trace[|trace| - 1] == FetchTracks(GlobalId) && last.status == 200 && last.items != [] && r == Parsed(last.items, code, false))
      && (r.error.Some? ==>
            r == NoChart(code) && trace[|trace| - 1] == FetchTracks(GlobalId) && !(last.status == 200 && last.items != []))
  }

  /** The chain's answer is settled by its last request, a playlist fetch, whenever each strategy's is. */
  lemma ChainOutcome(code: string, api: ChartApi, known: Attempt, primary: Attempt, alternates: Attempt)
    requires SettledByLastFetch(known, code, api, true)
    requires SettledByLastFetch(primary, code, api, true)
    requires SettledByLastFetch(alternates, code, api, true)
    ensures DecidedByLastFetch(code, api, Chain(code, known, primary, alternates, GlobalChart(code, api)))
  {
    if known.result.Some? {
      SettledDecides(code, api, [], known);
      assert [] + known.trace == known.trace;
    } else if primary.result.Some? {
      SettledDecides(code, api, known.trace, primary);
    } else if alternates.result.Some? {
      SettledDecides(code, api, known.trace + primary.trace, alternates);
    } else {
      GlobalDecides(code, api, known.trace + primary.trace + alternates.trace);
    }
  }

  /** A strategy that settles the answer after the requests `done` decides it by its last fetch. */
  lemma SettledDecides(code: string, api: ChartApi, done: seq<Request>, a: Attempt)
    requires a.result.Some? && SettledByLastFetch(a, code, api, true)
    ensures DecidedByLastFetch(code, api, (a.result.value, done + a.trace))
  {
    LastOfAppend(done, a.trace);
  }

  /** The Global Top 50, tried after the requests `done`, decides the answer by its fetch. */
  lemma GlobalDecides(code: string, api: ChartApi, done: seq<Request>)
    ensures var g := GlobalChart(code, api);
      DecidedByLastFetch(code, api, (g.result.GetOr(NoChart(code)), done + g.trace))
  {
    LastOfAppend(done, GlobalChart(code, api).trace);
  }

  /** Discovery is the chain of its four strategies, the middle two settled by their last fetch. */
  lemma DiscoveryStages(countryCode: string, api: ChartApi, carryOver: bool) returns (primary: Attempt, alternates: Attempt)
    ensures var code := Upper(countryCode);
      Discovery(countryCode, api, carryOver) == Chain(code, KnownChart(code, api), primary, alternates, GlobalChart(code, api))
    ensures SettledByLastFetch(primary, Upper(countryCode), api, true)
    ensures SettledByLastFetch(alternates, Upper(countryCode), api, true)
    ensures CountryName(Upper(countryCode)) == "" ==> primary == alternates == Attempt([], None)
  {
    var code := Upper(countryCode);
    var name := CountryName(code);
    var found;
    primary, found := PrimarySearch(code, name, api).0, PrimarySearch(code, name, api).1;
    alternates := if name == "" then Attempt([], None) else Alternates(AlternateQueries(name), found, carryOver, code, api);
    PrimarySettled(code, name, api);
    if name != "" {
      AlternatesSettled(AlternateQueries(name), found, carryOver, code, api);
    }
  }

  /**
   * The answer is decided by the last request, always a playlist fetch:
   * with `has_chart` it is a 200 answer, parsed; without `has_chart` and
   * without error it is the Global list with at least one item; otherwise
   * it is the error answer after the Global list failed. In every case the
   * answer carries the upper-cased code.
   */
  lemma ChartOutcome(countryCode: string, api: ChartApi, carryOver: bool)
    ensures DecidedByLastFetch(Upper(countryCode), api, Discovery(countryCode, api, carryOver))
  {
    var code := Upper(countryCode);
    var primary, alternates := DiscoveryStages(countryCode, api, carryOver);
    KnownSettled(code, api);
    ChainOutcome(code, api, KnownChart(code, api), primary, alternates);
  }

  /** The artists of an answer decided by a fetch are at most ten, by non-increasing count. */
  lemma DecidedArtists(code: string, api: ChartApi, answer: (ChartResult, seq<Request>))
    requires DecidedByLastFetch(code, api, answer)
    ensures |answer.0.artists| <= 10 && NonIncreasing(answer.0.artists)
  {
    var items := api.tracks(answer.1[|answer.1| - 1].playlistId).items;
    if answer.0.error.None? {
      assert answer.0.artists == ArtistRanking(items);
      RankedArtists(items);
    } else {
      assert answer.0.artists == [];
    }
  }

  lemma RankedArtists(items: seq<Item>)
    ensures |ArtistRanking(items)| <= 10 && NonIncreasing(ArtistRanking(items))
  {
    ArtistRankingProperties(items);
  }

  /** The chart artists are at most ten, by non-increasing count. */
  lemma ChartArtists(countryCode: string, api: ChartApi, carryOver: bool)
    ensures |Discovery(countryCode, api, carryOver).0.artists| <= 10
    ensures NonIncreasing(Discovery(countryCode, api, carryOver).0.artists)
  {
    ChartOutcome(countryCode, api, carryOver);
    DecidedArtists(Upper(countryCode), api, Discovery(countryCode, api, carryOver));
  }

  /** A registered chart answering 200 with items settles the answer without any search. */
  lemma KnownChartFirst(countryCode: string, api: ChartApi, carryOver: bool, id: string)
    requires TableGet(Top50Playlists, Upper(countryCode)) == Some(id)
    requires api.tracks(id).status == 200 && api.tracks(id).items != []
    ensures Discovery(countryCode, api, carryOver) == (Parsed(api.tracks(id).items, Upper(countryCode), true), [FetchTracks(id)])
    ensures Discovery(countryCode, api, carryOver).0.hasChart
  {
  }

  /** Requests that are all playlist fetches, at least one and at most two. */
  predicate OneOrTwoFetches(trace: seq<Request>)
  {
    1 <= |trace| <= 2 && forall j :: 0 <= j < |trace| ==> trace[j].FetchTracks?
  }

  /** The registered-chart strategy makes at most one request, a fetch, and makes it when it settles. */
  lemma KnownShape(code: string, api: ChartApi)
    ensures var known := KnownChart(code, api);
      && (known.trace == [] || (|known.trace| == 1 && known.trace[0].FetchTracks?))
      && (known.result.Some? ==> known.trace != [])
  {
  }

  lemma ChainWithoutSearches(code: string, known: Attempt, global: Attempt)
    requires known.trace == [] || (|known.trace| == 1 && known.trace[0].FetchTracks?)
    requires known.result.Some? ==> known.trace != []
    requires global.trace == [FetchTracks(GlobalId)]
    ensures OneOrTwoFetches(Chain(code, known, Attempt([], None), Attempt([], None), global).1)
  {
    var trace := Chain(code, known, Attempt([], None), Attempt([], None), global).1;
    if known.result.None? {
      assert trace == known.trace + [] + [] + global.trace == known.trace + global.trace;
    }
  }

  /** A code without a display name makes no search request: at most the registered chart and the Global list are fetched. */
  lemma NoNameNoSearch(countryCode: string, api: ChartApi, carryOver: bool)
    requires CountryName(Upper(countryCode)) == ""
    ensures OneOrTwoFetches(Discovery(countryCode, api, carryOver).1)
  {
    var code := Upper(countryCode);
    var primary, alternates := DiscoveryStages(countryCode, api, carryOver);
    KnownShape(code, api);
    ChainWithoutSearches(code, KnownChart(code, api), GlobalChart(code, api));
  }

  /** With nothing carried in, the carry-over makes no difference. */
  lemma {:induction false} NothingCarried(terms: seq<string>, f1: Option<string>, f2: Option<string>, code: string, api: ChartApi)
    requires !Present(f1) && !Present(f2)
    ensures Alternates(terms, f1, true, code, api) == Alternates(terms, f2, false, code, api)
    decreases |terms|
  {
    if terms != [] {
      var s := api.search(terms[0], 5);
      if s.status != 200 {
        NothingCarried(terms[1..], f1, f2, code, api);
      } else {
        var g1 := HitId(s.playlists, false, f1);
        var g2 := HitId(s.playlists, false, None);
        if !Present(g2) {
          NothingCarried(terms[1..], g1, g2, code, api);
        }
      }
    }
  }

  /**
   * The code as written answers as intended unless the primary search found
   * an id whose playlist fetch failed.
   */
  lemma AsWrittenAgrees(countryCode: string, api: ChartApi)
    requires var (primary, found) := PrimarySearch(Upper(countryCode), CountryName(Upper(countryCode)), api);
      !Present(found) || primary.result.Some?
    ensures ChartsAsWritten(countryCode, api) == Charts(countryCode, api)
  {
    var code := Upper(countryCode);
    var name := CountryName(code);
    var (primary, found) := PrimarySearch(code, name, api);
    if name != "" && !Present(found) {
      NothingCarried(AlternateQueries(name), found, found, code, api);
    }
  }

  /**
   * The input that shows the carried-over id: "us" whose registered chart
   * and primary hit "P" both fail to load, whose first alternate search
   * answers 200 with no hit, and whose second alternate search finds "Q",
   * which loads. As written, the first alternate term fetches "P" again,
   * gives up on the other terms, and ends in the error answer; as intended,
   * "Q" is found and the chart is answered.
   */
  function StaleApi(): ChartApi
  {
    ChartApi(
      (q: string, limit: nat) =>
        if q == "Top 50 USA" then SearchResponse(200, [Some(Candidate(Some("P"), Some("Top 50 USA"), 50))])
        else if q == "USA charts 2024" then SearchResponse(200, [Some(Candidate(Some("Q"), Some("Q"), 50))])
        else SearchResponse(200, []),
      (id: string) => if id == "Q" then TracksResponse(200, []) else TracksResponse(503, []))
  }

  lemma StaleIdRefetched()
    ensures ChartsAsWritten("us", StaleApi()).0 == NoChart("US")
    ensures ChartsAsWritten("us", StaleApi()).1 ==
      [FetchTracks("37i9dQZEVXbLRQDuF5jeBp"), Search("Top 50 USA", 10), FetchTracks("P"),
       Search("USA top hits", 5), FetchTracks("P"), FetchTracks(GlobalId)]
    ensures Charts("us", StaleApi()).0 == Parsed([], "US", true)
  {
    StaleAsWritten();
    StaleIntended();
  }

  lemma StaleAsWritten()
    ensures ChartsAsWritten("us", StaleApi()) == (NoChart("US"),
      [FetchTracks("37i9dQZEVXbLRQDuF5jeBp"), Search("Top 50 USA", 10), FetchTracks("P"),
       Search("USA top hits", 5), FetchTracks("P"), FetchTracks(GlobalId)])
  {
    var api := StaleApi();
    StaleCode();
    StaleKnown();
    StalePrimary();
    StaleGlobal();
    StaleAlternates();
    var known := Attempt([FetchTracks("37i9dQZEVXbLRQDuF5jeBp")], None);
    var primary := Attempt([Search("Top 50 USA", 10), FetchTracks("P")], None);
    var alternates := Attempt([Search("USA top hits", 5), FetchTracks("P")], None);
    DiscoveryOf("us", api, true, "USA", known, primary, Some("P"), alternates, Attempt([FetchTracks(GlobalId)], None));
    assert known.trace + primary.trace + alternates.trace + [FetchTracks(GlobalId)] ==
      [FetchTracks("37i9dQZEVXbLRQDuF5jeBp"), Search("Top 50 USA", 10), FetchTracks("P"),
       Search("USA top hits", 5), FetchTracks("P"), FetchTracks(GlobalId)];
  }

  lemma StaleIntended()
    ensures Charts("us", StaleApi()).0 == Parsed([], "US", true)
  {
    var api := StaleApi();
    StaleCode();
    StaleKnown();
    StalePrimary();
    StaleGlobal();
    StaleAlternatesCleared();
    var known := Attempt([FetchTracks("37i9dQZEVXbLRQDuF5jeBp")], None);
    var primary := Attempt([Search("Top 50 USA", 10), FetchTracks("P")], None);
    var alternates := Attempt([Search("USA top hits", 5), Search("USA charts 2024", 5), FetchTracks("Q")], Some(Parsed([], "US", true)));
    DiscoveryOf("us", api, false, "USA", known, primary, Some("P"), alternates, Attempt([FetchTracks(GlobalId)], None));
  }

  /** Discovery, given what each of its stages does. */
  lemma DiscoveryOf(countryCode: string, api: ChartApi, carryOver: bool, name: string,
                    known: Attempt, primary: Attempt, found: Option<string>, alternates: Attempt, global: Attempt)
    requires name != "" && CountryName(Upper(countryCode)) == name
    requires KnownChart(Upper(countryCode), api) == known
    requires PrimarySearch(Upper(countryCode), name, api) == (primary, found)
    requires Alternates(AlternateQueries(name), found, carryOver, Upper(countryCode), api) == alternates
    requires GlobalChart(Upper(countryCode), api) == global
    ensures Discovery(countryCode, api, carryOver) == Chain(Upper(countryCode), known, primary, alternates, global)
  {
  }

  lemma StaleCode()
    ensures Upper("us") == "US" && CountryName("US") == "USA"
  {
    assert Upper("us") == "US";
  }

  lemma StaleKnown()
    ensures KnownChart("US", StaleApi()) == Attempt([FetchTracks("37i9dQZEVXbLRQDuF5jeBp")], None)
  {
  }

  lemma StalePrimary()
    ensures PrimarySearch("US", "USA", StaleApi()) == (Attempt([Search("Top 50 USA", 10), FetchTracks("P")], None), Some("P"))
  {
    var api := StaleApi();
    assert Lower("Top 50 USA") == "top 50 usa";
    assert OccursAt("top 50 usa", "top", 0);
    assert PrimaryHit(Some(Candidate(Some("P"), Some("Top 50 USA"), 50)));
    assert HitId(api.search("Top 50 USA", 10).playlists, true, None) == Some("P");
  }

  lemma StaleGlobal()
    ensures GlobalChart("US", StaleApi()) == Attempt([FetchTracks(GlobalId)], None)
  {
  }

  /** The alternate stage on the input of `StaleIdRefetched`, as written: the stale "P" is fetched again. */
  lemma StaleAlternates()
    ensures Alternates(AlternateQueries("USA"), Some("P"), true, "US", StaleApi()) == Attempt([Search("USA top hits", 5), FetchTracks("P")], None)
  {
    var api := StaleApi();
    var terms := AlternateQueries("USA");
    assert terms[0] == "USA top hits";
    assert HitId(api.search("USA top hits", 5).playlists, false, Some("P")) == Some("P");
  }

  /** The same stage as intended: the second term finds "Q". */
  lemma StaleAlternatesCleared()
    ensures Alternates(AlternateQueries("USA"), Some("P"), false, "US", StaleApi())
      == Attempt([Search("USA top hits", 5), Search("USA charts 2024", 5), FetchTracks("Q")], Some(Parsed([], "US", true)))
  {
    var api := StaleApi();
    var terms := AlternateQueries("USA");
    assert terms[0] == "USA top hits" && terms[1] == "USA charts 2024";
    assert HitId(api.search("USA top hits", 5).playlists, false, None) == None;
    assert HitId(api.search("USA charts 2024", 5).playlists, false, None) == Some("Q");
    assert Alternates(terms[1..], None, false, "US", api) == Attempt([Search("USA charts 2024", 5), FetchTracks("Q")], Some(Parsed([], "US", true)));
  }

  /** `get_available_chart_countries`: the registered codes, in table order. */
  function ChartCountries(): (r: seq<string>)
    ensures |r| == |Top50Playlists|
    ensures forall c :: c in r <==> TableGet(Top50Playlists, c).Some?
  {
    KeysAreLookups(Top50Playlists);
    Keys(Top50Playlists)
  }

  function Keys(table: seq<(string, string)>): (r: seq<string>)
    ensures |r| == |table|
  {
    seq(|table|, i requires 0 <= i < |table| => table[i].0)
  }

  lemma {:induction false} KeysAreLookups(table: seq<(string, string)>)
    ensures forall c :: c in Keys(table) <==> TableGet(table, c).Some?
  {
    if table != [] {
      KeysAreLookups(table[1..]);
      assert Keys(table) == [table[0].0] + Keys(table[1..]);
    }
  }
}
