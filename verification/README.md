# CleanBeats2 core, modelled in Dafny

CleanBeats2 is a Django site for cleaning up Spotify playlists. A user reviews
the tracks of a playlist one by one and marks each kept or removed. The site
records those decisions and later removes the removed tracks from the Spotify
playlist in one bulk call. A map page shows where the tracks of a playlist can
be played and which artists chart in a country.

This project models the parts of the site that hold its logic:

- the decision ledger (`KeptSong` records keyed by user, playlist and track);
- the review queue and its progress counters;
- the kept/removed listing and the bulk apply;
- the dashboard's refresh of a recently modified playlist;
- the admin's artist column and CSV export;
- the Spotify OAuth connect, callback and disconnect views;
- token refresh and the token check before every Spotify call;
- the paginated track fetch and the removal payload;
- chart discovery for a country (four fallback strategies);
- the per-market geography scan of a playlist.

Python values are modelled explicitly: truthiness, `str()`, `dict.get`, the
insertion order of `dict`, the stability of `sorted`, and `', '.join`.

Remote calls are parameters. A Spotify endpoint is a function from a request
to a response, or an outcome value. The clock is a `Timestamp` parameter. The
Django ORM is a map from `(user, playlist_id, track_uri)` to a record, held by
the `Ledger` class. The session is the `Session` class.

Modules, one per concern:

| file | module | models |
|---|---|---|
| wrappers.dfy | Wrappers | `Option` |
| users.dfy | Users | the auth user |
| json_value.dfy | Json | JSON values, `bool()`, `str()`, `dict.get`, `join` |
| json_text.dfy | JsonText | `_decode_unicode_escapes`, `_decode_list` and a JSON string-literal reader |
| ascii_text.dfy | AsciiText | `upper()` / `lower()` on ASCII letters, substring tests |
| ranking.dfy | Ranking | counting into an insertion-ordered dict, stable sort by count, top-k |
| sorted_strings.dfy | SortedStrings | `sorted()` of a set of strings |
| kept_songs.dfy | KeptSongs | the `KeptSong` model and its `__str__` |
| sessions.dfy | Sessions | the session keys the core uses |
| spotify_tokens.dfy | SpotifyTokens | `SpotifyToken` storage, refresh, the expiry check |
| spotify_api.dfy | SpotifyApi | track pagination, removal payload |
| spotify_charts.dfy | SpotifyCharts | `get_top_charts_for_country`, `_parse_playlist_artists`, chart countries |
| account_views.dfy | AccountViews | connect, callback, disconnect |
| decisions.dfy | Decisions | save, reconsider, reset, apply, kept view |
| edit_views.dfy | EditViews | previews, the review queue, progress, the dashboard |
| admin_format.dfy | Admin | `get_artists`, `export_as_csv` |
| geo.dfy | Geo | `api_playlists`, `api_playlist_geo`, `api_country_charts`, `api_chart_countries` |

The docstring of the escape decoder (playlists/views.py:17) promises that
`\u002D` and similar sequences are decoded; the code as written decodes nothing
(see Findings). `JsonText.DecodeUnicodeEscapesAsWritten` models the code as
written and proves it the identity; the ledger (`Decisions.Decision` and the
views built on it) stores names decoded by the intended decoder,
`JsonText.DecodeEscapes`. Likewise the map's country-chart view uses the
corrected chart discovery, while `SpotifyCharts.ChartsAsWritten` models the
code as written.

## Model

| member | source | states |
|---|---|---|
| Json.Get | playlists/views.py:179-186 | `dict.get` is None exactly when no field has the key |
| Json.GetLast | playlists/views.py:179-186 | a key present in the dictionary reads as the value of its last field, as `json.loads` keeps it |
| Json.Join | playlists/admin.py:26-32 | joining no parts gives "", joining one part gives that part |
| AsciiText.Upper | accounts/spotify.py:131 | same length; each lower-case ASCII letter becomes its own capital (code point minus 32), every other character is unchanged |
| AsciiText.Lower | accounts/spotify.py:180 | same length; each upper-case ASCII letter becomes its own lower-case letter (code point plus 32), every other character is unchanged |
| JsonText.ReplaceCharAppend | playlists/views.py:25 | `replace` of one character distributes over concatenation |
| JsonText.DecodeUnicodeEscapesAsWritten | playlists/views.py:16-29 | non-strings, strings without a backslash, and strings whose quoted form `json.loads` rejects come back unchanged |
| JsonText.AsWrittenRoundTrip | playlists/views.py:25-26 | reading back the doubled-backslash literal gives exactly the input, or fails when the input has a control character |
| JsonText.DecodeAsWrittenIsIdentity | playlists/views.py:16-29 | the decoder as written returns every value unchanged |
| JsonText.DashEscapeNotDecodedAsWritten | playlists/views.py:17 | as written, `\u002D` stays six characters and is not decoded to `-` |
| JsonText.DecodeEscapes | playlists/views.py:16-29 | the intended decoder: non-strings and backslash-free strings unchanged, a string stays a string, undecodable text is left unchanged (never raises) |
| JsonText.Hex4RoundTrip | playlists/views.py:26 | four upper-case hex digits of a code point below 0x10000 read back as that code point |
| JsonText.UnicodeEscapeBody | playlists/views.py:26 | the JSON literal body `\uXXXX` reads as the single character with that code |
| JsonText.DecodesUnicodeEscape | playlists/views.py:17-20 | the intended decoder turns `\uXXXX` into its character |
| JsonText.DashEscapeDecoded | playlists/views.py:17 | the intended decoder turns `\u002D` into `-` |
| JsonText.DecodeList | playlists/views.py:32-35 | a list is decoded element by element with the same length; anything else is unchanged |
| KeptSongs.Describe | playlists/models.py:27-28 | the text is the user, " - ", the playlist id, " - ", the track name, then " (kept)" or " (removed)" according to the verdict |
| KeptSongs.DescribeVerdict | playlists/models.py:27-28 | the verdict can be read back from the text |
| KeptSongs.VerdictOf | playlists/models.py:28 | a verdict is read only from the matching suffix |
| SpotifyTokens.ExpiryAfter | accounts/spotify.py:28-31 | no expiry exactly when `expires_in` is missing or 0; otherwise the expiry is `expires_in` seconds after now |
| SpotifyTokens.Renewed | accounts/spotify.py:27-34 | the new access token and expiry come from the response; the refresh token is replaced only by a truthy new one; scope is kept; a refreshable token stays refreshable |
| SpotifyTokens.TokenStore.Refresh | accounts/spotify.py:11-36 | no token → NoToken, an empty refresh token → NoRefreshToken, both without a request; otherwise the stored refresh token is sent; a failed exchange changes nothing; a successful one stores the renewed credential for that user only |
| SpotifyTokens.TokenStore.Authorize | accounts/spotify.py:62-66 | no stored token fails; a refresh happens exactly when the stored token is expired; an unexpired token is used as stored; a refresh with a refresh token and a successful exchange authorizes the new access token; a missing refresh token or a failed exchange fails with that error; a failure leaves the store unchanged |
| AccountViews.ConnectSpotify | accounts/views.py:59-83 | the issued state is stored in the session and sent in the authorize URL with the fixed scopes, response type and `show_dialog` |
| AccountViews.Issued | accounts/views.py:119-136 | the stored credential carries the response's tokens, its scope or an empty scope when none is given, and the expiry rule |
| AccountViews.SpotifyCallback | accounts/views.py:86-141 | the state is always consumed; an error, a missing code or a mismatched state redirects home with no exchange and no change; otherwise the code is exchanged once, and the tokens are stored for a logged-in user or kept in the session for a visitor |
| AccountViews.CallbackReplayed | accounts/views.py:91-100 | replaying the same callback makes no second exchange, because the state was consumed |
| AccountViews.DisconnectSpotify | accounts/views.py:173-182 | the user's token is deleted (or was absent), every other user's token is untouched, and the user lands on the account page |
| SpotifyApi.FetchAllItems | accounts/spotify.py:62-78 | the loop returns the items of every page in order, or the failure, as the page chain defines |
| SpotifyApi.DrainMoreFuel | accounts/spotify.py:71-76 | once the page chain ends, a larger bound gives the same answer |
| SpotifyApi.DrainChain | accounts/spotify.py:68-78 | a chain of n pages linked by `next` yields all their items after n requests and not before |
| SpotifyApi.AllItemsLength | accounts/spotify.py:75 | the item count is the sum of the page sizes |
| SpotifyApi.RemovalPayload | accounts/spotify.py:290-291 | one `{"uri": …}` object per URI |
| SpotifyApi.PayloadRoundTrip | accounts/spotify.py:290-291 | the URIs read back from the payload are exactly the URIs given, in order |
| Ranking.Bump | accounts/spotify.py:251 | a name already counted keeps its place; a new name is appended with count 1 |
| Ranking.LookupBump | accounts/spotify.py:251 | `counts[name] = counts.get(name, 0) + 1` adds one to that name only |
| Ranking.BumpDistinct | accounts/spotify.py:251 | counting keeps the dictionary's keys distinct |
| Ranking.TallyOntoAppend | accounts/spotify.py:243-251 | counting a stream in two parts equals counting it at once |
| Ranking.TallyCounts | accounts/spotify.py:241-251 | the tally has distinct keys, exactly the names seen, each with its number of occurrences |
| Ranking.TallyFirstSeenOrder | accounts/spotify.py:241-251 | the dictionary's keys are in order of first appearance |
| Ranking.SortByCountDesc | accounts/spotify.py:253 | sorting is a permutation of the entries |
| Ranking.SortNonIncreasing | accounts/spotify.py:253 | the sorted entries are in non-increasing count order |
| Ranking.SortStable | accounts/spotify.py:253 | entries with equal counts keep their relative order |
| Ranking.Take | accounts/spotify.py:253 | `[:k]` is the prefix of length min(k, n) |
| Ranking.TopKProperties | accounts/spotify.py:253 | at most k entries, all from the input, non-increasing; nothing omitted outranks a listed entry; ties keep input order |
| Ranking.TopKDistinct | accounts/spotify.py:253 | the top k of distinct keys are distinct |
| Ranking.TopTallyProperties | accounts/spotify.py:241-253 | the top k of a tally: at most k distinct names with their exact counts, non-increasing, no omitted name counted more than a listed one, ties by first appearance |
| SortedStrings.BelowStrictOrder | maps/views.py:97-98 | Python's string comparison is a strict total order |
| SortedStrings.Sorted | maps/views.py:97-98 | `sorted(set)` is strictly increasing and holds exactly the set's elements |
| SpotifyCharts.TableGet | accounts/spotify.py:153-154 | a lookup is None exactly when no entry has the key; otherwise it is an entry's value |
| SpotifyCharts.NamedArtistsExactly | accounts/spotify.py:248-251 | a name is counted exactly when some artist of the track has it as a truthy name |
| SpotifyCharts.NamedArtistsAppend | accounts/spotify.py:248-251 | the names of two runs of artists are the names of each run, in order |
| SpotifyCharts.CountArtists | accounts/spotify.py:248-251 | the inner loop leaves the tally of every name seen so far |
| SpotifyCharts.ParsePlaylistArtists | accounts/spotify.py:239-259 | the counting loop gives the top ten of the tally of the named artists of the non-null tracks |
| SpotifyCharts.ArtistRankingProperties | accounts/spotify.py:239-259 | at most ten distinct artists, each with its exact credit count, non-increasing; no omitted artist is credited more often than a listed one |
| SpotifyCharts.FirstHit | accounts/spotify.py:177-185 | the first candidate that passes the test; none before it passes; None when none passes |
| SpotifyCharts.FindHit | accounts/spotify.py:177-185 | the candidate loop leaves the first hit's id, or the `found_playlist_id` it started with |
| SpotifyCharts.FoundIgnored | accounts/spotify.py:195-218 | once the id is cleared before each term, the previous id plays no part |
| SpotifyCharts.KnownChart | accounts/spotify.py:157-165 | no registered chart → no request; otherwise one fetch of the registered id, answered only on a 200 with items, parsed with `has_chart` |
| SpotifyCharts.PrimarySearch | accounts/spotify.py:167-192 | no country name → no request; otherwise the search "Top 50 <name>" (limit 10), then at most one fetch of the id found, answered only on a 200 |
| SpotifyCharts.Alternates | accounts/spotify.py:194-218 | at most one request per alternate term plus one final fetch |
| SpotifyCharts.GlobalChart | accounts/spotify.py:220-229 | exactly one fetch of the Global Top 50, answered exactly when it returns 200 with items, without `has_chart` |
| SpotifyCharts.ChartsAsWritten | accounts/spotify.py:125-236 | the discovery as written: every answer is parsed from the last request, a playlist fetch, or is the error answer |
| SpotifyCharts.Charts | accounts/spotify.py:125-236 | the corrected discovery: every answer is parsed from the last request, a playlist fetch, or is the error answer |
| SpotifyCharts.TryKnownChart | accounts/spotify.py:157-165 | strategy 1 is the registered chart, accepted on a 200 with items |
| SpotifyCharts.TryPrimary | accounts/spotify.py:167-192 | strategy 2 is the "Top 50" search, with the id it leaves behind |
| SpotifyCharts.TryAlternates | accounts/spotify.py:194-218 | strategy 3 is the alternate terms, with the id cleared before each term |
| SpotifyCharts.TryGlobal | accounts/spotify.py:220-229 | strategy 4 is the Global Top 50, accepted with items and without `has_chart` |
| SpotifyCharts.TopChartsForCountry | accounts/spotify.py:125-236 | the answer and the exact request sequence of the four-strategy fallback, with the stale id not carried over |
| SpotifyCharts.AlternatesShape | accounts/spotify.py:195-218 | the terms are searched in order; the stage gives up without an answer or ends in one playlist fetch whose 200 is accepted |
| SpotifyCharts.KnownSettled | accounts/spotify.py:158-165 | when the registered chart answers, the last request fetched it with a 200 |
| SpotifyCharts.PrimarySettled | accounts/spotify.py:168-192 | when the primary search answers, the last request fetched the hit with a 200 |
| SpotifyCharts.AlternatesSettled | accounts/spotify.py:195-218 | when an alternate answers, the last request fetched the hit with a 200 |
| SpotifyCharts.GlobalSettled | accounts/spotify.py:220-229 | when the global chart answers, the last request fetched it with a 200, with `has_chart` false |
| SpotifyCharts.ChainOutcome | accounts/spotify.py:157-236 | the first strategy that answers decides; the answer is parsed from the last fetch, or is the error answer |
| SpotifyCharts.DiscoveryStages | accounts/spotify.py:153-236 | discovery is the chain of its four strategies; without a country name the two searches make no requests |
| SpotifyCharts.ChartOutcome | accounts/spotify.py:125-236 | every answer is parsed from the response to the last request, a playlist fetch, or is "Could not fetch charts" |
| SpotifyCharts.DecidedArtists | accounts/spotify.py:253-258 | an answer decided by a fetch lists at most ten artists by non-increasing count |
| SpotifyCharts.ChartArtists | accounts/spotify.py:125-259 | every chart answer lists at most ten artists by non-increasing count |
| SpotifyCharts.KnownChartFirst | accounts/spotify.py:157-165 | a registered chart answering 200 with items is the answer, after that one request and no search |
| SpotifyCharts.KnownShape | accounts/spotify.py:157-165 | the registered-chart strategy makes at most one request, a fetch, and makes it when it answers |
| SpotifyCharts.NoNameNoSearch | accounts/spotify.py:168-218 | a code with no country name makes no search: one or two playlist fetches only |
| SpotifyCharts.NothingCarried | accounts/spotify.py:195-218 | with no id carried in, the as-written and the corrected alternate stages agree |
| SpotifyCharts.AsWrittenAgrees | accounts/spotify.py:184-218 | the two versions differ only when the primary search found an id that failed to load |
| SpotifyCharts.StaleIdRefetched | accounts/spotify.py:184-218 | on the failing input, the code as written re-fetches the stale id, skips the remaining terms and ends in the error; the corrected version finds the chart |
| SpotifyCharts.ChartCountries | accounts/spotify.py:262-264 | the chart countries are exactly the keys of the Top 50 table, one per entry |
| SpotifyCharts.KeysAreLookups | accounts/spotify.py:262-264 | a code is listed exactly when the table has an entry for it |
| Decisions.Stored | playlists/views.py:183-185 | a null URL is stored as no value; a string is stored as given |
| Decisions.Decision | playlists/views.py:179-206 | the saved record: `bool(kept)`; a string name decoded, a falsy name "", any other name its `str()`; a list of artists decoded element by element, falsy artists [], any other value as sent; the three URLs as sent; the creation time |
| Decisions.Upsert | playlists/views.py:196-206 | `update_or_create`: the ledger gains the track's key and no other; other records are unchanged; the record is kept exactly when `kept` is truthy; an existing record keeps its creation time, a new one gets now |
| Decisions.KeptRemovedDisjoint | playlists/models.py:20-24 | one record per track means no track is both kept and removed |
| Decisions.UpsertVerdict | playlists/views.py:196-206 | an upsert adds or replaces only that track's record, and the track is kept exactly when `kept` is truthy |
| Decisions.UpsertIdempotent | playlists/views.py:196-206 | saving the same decision twice gives the same ledger as saving it once |
| Decisions.ReconsiderMoves | playlists/views.py:312-318 | reconsidering moves the track from removed to kept in its own playlist and changes no other playlist |
| Decisions.ResetClearsKept | playlists/views.py:105-110 | the reset leaves no kept track in the playlist, the same removed tracks, and other playlists untouched |
| Decisions.ApplyClearsRemoved | playlists/views.py:249-270 | applying leaves no removed track in the playlist, the same kept tracks, and other playlists untouched |
| Decisions.ViewsCover | playlists/views.py:216-238 | the kept (removed) listing shows exactly the tracks of the kept (removed) records |
| Decisions.Ledger.SaveDecision | playlists/views.py:165-208 | bad JSON and missing fields are rejected without change; otherwise the record is upserted and `created` says whether it is new |
| Decisions.Ledger.ReconsiderDecision | playlists/views.py:293-320 | bad JSON, missing fields and an unknown track are rejected without change; otherwise the record is set to kept |
| Decisions.Ledger.ResetKept | playlists/views.py:105-110 | the kept records of that playlist are deleted |
| Decisions.Ledger.RemovedTracks | playlists/views.py:249-264 | every removed track of the user's playlist exactly once, so the count is the number of removed tracks |
| Decisions.Ledger.ApplyPlaylistChanges | playlists/views.py:243-290 | no removed track → no call; otherwise each removed URI is sent once; only on success are those records deleted and the playlist marked modified; a failure changes nothing and reports 400 or 500 |
| Decisions.Ledger.NewestDecisions | playlists/views.py:215 | the playlist's records, each once, newest first |
| Decisions.Ledger.KeptView | playlists/views.py:211-240 | newest first, split into kept and removed listings that show exactly the kept and removed tracks |
| EditViews.CoverOf | playlists/views.py:335-339 | the first album image when there is one, otherwise None |
| EditViews.TracksWithPreviews | playlists/views.py:323-347 | the loop gives the card of every non-null track, in order |
| EditViews.PreviewsAppend | playlists/views.py:327-345 | the cards of two runs of items are the cards of each run, concatenated |
| EditViews.PreviewsCount | playlists/views.py:328-330 | one card per non-null track, so never more cards than items |
| EditViews.ReviewQueue | playlists/views.py:138 | the queue is never longer than the playlist |
| EditViews.ReviewQueueAppend | playlists/views.py:138 | filtering two runs of cards is filtering each run |
| EditViews.ReviewQueueMembers | playlists/views.py:119-138 | a card is queued exactly when it is in the playlist and its track is not excluded |
| EditViews.QueueLength | playlists/views.py:138 | queued plus excluded tracks of the playlist make up the whole playlist |
| EditViews.ProgressCountsKept | playlists/views.py:140-145 | the total is the tracks minus the removed ones; processed is the number of kept tracks, between 0 and the total |
| EditViews.ResetRestartsProgress | playlists/views.py:100-145 | after a reset, progress starts again at 0 processed |
| EditViews.FirstWithId | playlists/views.py:88-91 | the first card with the id; no earlier card has it; None when none has it |
| EditViews.ChoosePlaylist | playlists/views.py:81-98 | a direct fetch wins; on a failed fetch the first first-page card with the id; otherwise the first playlist, or none |
| EditViews.RenderEdit | playlists/views.py:71-162 | no playlist → empty page; `show_all=true` → kept records deleted and a redirect; otherwise the queue without decided tracks, with total and processed counts |
| EditViews.FreshCounts | playlists/views.py:46-56 | only the first card with the modified id gets the fresh total, and only when one was fetched; every other card is unchanged |
| EditViews.PlaylistDashboard | playlists/views.py:38-68 | a listing failure shows the error; otherwise the listing, refreshed for a modified playlist, whose mark is then cleared |
| Admin.Clip | playlists/admin.py:51 | `[:n]` is the prefix of length min(n, len(s)) |
| Admin.GetArtists | playlists/admin.py:16-51 | a falsy value shows "Unknown Artist"; any non-string answer is a named dict's own `name` value |
| Admin.NamedArtistShown | playlists/admin.py:34-37 | a dict with a 'name' key shows that name |
| Admin.StringArtistShown | playlists/admin.py:41-43 | a non-empty string shows itself |
| Admin.StringListShown | playlists/admin.py:28-29 | a non-empty list of strings shows them joined by ", ", whatever they contain |
| Admin.NamedListShown | playlists/admin.py:25-26 | a non-empty list of dicts with string names shows the names joined by ", ", whatever they contain |
| Admin.MixedArtistsJoined | playlists/admin.py:30-32 | any other list shows `str()` of every element, joined by ", " |
| Admin.MixedArtistsShown | playlists/admin.py:30-32 | that text splits back into the element texts when none contains ", " |
| Admin.UnjoinableShown | playlists/admin.py:25-51 | a list of dicts with a non-string name shows "Error parsing: " and the first 50 characters of its `str()`, at most 68 characters |
| Admin.FindFrom | playlists/admin.py:26-32 | the first occurrence of the separator from a position, or none |
| Admin.SplitNames | playlists/admin.py:26-32 | splitting on ", " gives at least one part |
| Admin.JoinSplit | playlists/admin.py:26-32 | splitting a join on ", " gives back the parts when no part contains ", " |
| Admin.StringsListed | playlists/admin.py:28-29 | a list of plain strings is not a list of named dicts and takes the string branch |
| Admin.DictsListed | playlists/admin.py:25-26 | a list of dicts with string names takes the name branch |
| Admin.ArtistsReadBack | playlists/admin.py:16-51 | the artist column of names without ", " (plain or in dicts) splits back into exactly those names |
| Admin.UnknownArtist | playlists/admin.py:18-19 | a falsy artists value shows "Unknown Artist" |
| Admin.CsvCell | playlists/admin.py:73-75 | the CSV writer writes None as "" and a string as itself |
| Admin.CsvRow | playlists/admin.py:65-75 | five fields: user, name, artist column, "Yes" exactly when kept, and `spotify_url or ''` |
| Admin.CsvExport | playlists/admin.py:55-77 | the header then one row per selected record, in order |
| Geo.SelectableExactly | maps/views.py:24-28 | exactly the playlists with a truthy id and name, none invented |
| Geo.SelectableAppend | maps/views.py:25-28 | the selection keeps the listing's order |
| Geo.ApiPlaylists | maps/views.py:16-29 | a failed listing gives the error reply; otherwise exactly the selectable playlists of the listing, never more than it holds |
| Geo.MarketVisits | maps/views.py:89-95 | one visit per truthy market, all with the track's artist names |
| Geo.RecordAllAppend | maps/views.py:80-95 | scanning two runs of tracks is scanning them one after the other |
| Geo.RecordAllMarkets | maps/views.py:92-93 | the presence set and the bucket keys are both the visited markets |
| Geo.RecordAllBucket | maps/views.py:93-95 | a market's bucket is the tally of the artist names credited in it |
| Geo.VisitedMarkets | maps/views.py:80-92 | a market is visited exactly when some track with a named artist lists it |
| Geo.TopArtists | maps/views.py:101-110 | every market with a bucket gets a top-five list |
| Geo.GeoMarkets | maps/views.py:77-116 | presence sorted and exactly the listed markets of tracks with named artists; absence sorted and exactly the other Spotify markets; top artists for every present market |
| Geo.GeoOfShape | maps/views.py:97-110 | both lists are sorted; presence is the markets seen; absence is exactly the other Spotify markets; top artists cover the same markets as the buckets |
| Geo.PresentMarkets | maps/views.py:80-92 | a market is seen exactly when some track with a named artist lists it |
| Geo.GeoTopArtists | maps/views.py:93-110 | a market's top artists: at most five distinct names with their exact counts, non-increasing, none omitted counted more |
| Geo.CountNames | maps/views.py:94-95 | the inner loop tallies each name onto the bucket |
| Geo.RecordMarkets | maps/views.py:89-95 | the market loop records one visit per truthy market |
| Geo.ScanStep | maps/views.py:80-95 | scanning one more track extends the scan |
| Geo.ScanTracks | maps/views.py:77-95 | the loop over the items computes the scan of all visits |
| Geo.ApiPlaylistGeo | maps/views.py:61-116 | no playlist id → 400; otherwise the answer for the fetched items, or the fetch error |
| Geo.FirstRaised | maps/views.py:129-132 | the first request that raises; none before it raises; None when none does |
| Geo.ApiCountryCharts | maps/views.py:119-143 | no country → 400 without requests; no usable token → the error reply with the upper-cased code and no request; a discovery request that raises → the error reply after the requests up to and including it; otherwise the corrected chart discovery, verbatim |
| Geo.ChartsReplyCode | maps/views.py:130-140 | every reply for a country carries its upper-cased code |
| Geo.ApiChartCountries | maps/views.py:146-150 | the listed countries are exactly those with a registered chart |

## Left out

- HTTP transport, `requests`, timeouts, rendering of templates and redirects by URL name: a reply is a datatype naming the page, the redirect target or the JSON body.
- `get_user_playlists`, `get_spotify_user_profile`, `get_playlist` and `get_track_info` make one authorized GET each: a view receives their outcome as a parameter (`Listing`, `Fetched`), and the token check before them is `SpotifyTokens.TokenStore.Authorize`.
- `secrets.token_urlsafe`, the clock and the request's absolute URI are parameters.
- `get_user_playlists` etc. raise on an HTTP error or a missing key (`KeyError` on `data["items"]`, `playlist['id']`, `item["track"]`); the model gives every response the fields it reads. The failures modelled are a request error in the outcome a view receives, and, for chart discovery, a request that raises (`Geo.ApiCountryCharts`).
- SpotifyApi.FetchAllItems: asks that the `next` chain end within a ghost bound of pages, since a provider whose `next` never ends makes the Python loop run forever.
- Geo.ApiPlaylistGeo: asks the same of the playlist's `next` chain, for the same reason.
- Floating-point and non-integer `expires_in`, and the time zone of `timezone.now()`; timestamps are whole seconds.
- `repr` of strings with quotes or escapes, and of floats; `Json.PyStr` writes strings in single quotes with no escaping.
- Case mapping of non-ASCII characters in `upper()` / `lower()`; only ASCII letters change case.
- JSON surrogate pairs: the string-literal reader rejects `\uD800`–`\uDFFF`, where Python would combine a pair.
- Admin.GetArtists: a dict whose 'name' is not a string is returned raw, and Django would render it with `str()`; the model returns the raw value and does not model that rendering.
- The `max_length` limits of the `KeptSong` columns are described by `KeptSongs.FitsColumns` but not enforced (SQLite does not enforce them).
- Django's login, signup, account and logout views, `map_view`, the URL tables and `play_track` are outside this model.
- Everything after line 347 of playlists/views.py is not part of this model (an unused data dump).
- Concurrency: two requests racing on the same record or session.
- A request body that is valid JSON but not an object.
- Decisions.Decision: stores the name and artists decoded by the intended decoder `JsonText.DecodeEscapes`, not by the code as written, which returns them unchanged (`JsonText.DecodeAsWrittenIsIdentity`; see Findings).
- Decisions.Ledger.SaveDecision: saves the record of `Decisions.Decision`, so a saved name is the intended decoding rather than the unchanged text the code as written stores.
- Decisions.Ledger.KeptView: shows names decoded by `JsonText.DecodeEscapes` for the same reason; with the code as written the names would be shown as stored.
- Geo.ApiCountryCharts: answers with the corrected discovery `SpotifyCharts.Charts`; the code as written is `SpotifyCharts.ChartsAsWritten`, and the two differ only on the inputs of `SpotifyCharts.AsWrittenAgrees` (see Findings).
- EditViews.RenderEdit: the uncaught exceptions that end in a 500 page are not modelled: `get_user_playlists` failing at playlists/views.py:78, a non-`RequestException` error of the direct fetch at line 85, and `get_playlist_tracks` failing at line 117.
- EditViews.PlaylistDashboard: the 500 paths of a missing `SpotifyToken` (`DoesNotExist`, accounts/spotify.py:40) and of a failed refresh (`RuntimeError`, accounts/spotify.py:15-17) are not modelled; the dashboard receives the listing outcome as a parameter.
- The exception path of `render_edit`'s ORM queries (lines 111-112, 125-126, 135-136): the model's ledger cannot fail.
- The key order of `top_artists` in the geo reply: the model returns a map.
- The `error` text (`str(e)`) and traceback of `api_country_charts`' error reply, and its `print`s: the model records only the upper-cased country code and the empty chart.

## Findings

| source | as written | input that shows it | evidently intended | confidence | as-written member | corrected member |
|---|---|---|---|---|---|---|
| playlists/views.py:25-26 | every backslash is doubled before `json.loads`, so the literal reads back as the input and nothing is decoded | the name `\u002D` is stored as the six characters `\u002D` | escape only the quotes so `\u002D` becomes `-`, as the docstring says | high, not executed | JsonText.DecodeAsWrittenIsIdentity | JsonText.DashEscapeDecoded |
| accounts/spotify.py:184-218 | `found_playlist_id` from the primary search survives into the alternate terms; a term whose search returns 200 with no hit re-fetches that stale id and, when the fetch fails, breaks out of the remaining terms | code "us"; the registered chart and the primary hit "P" both answer 503; "USA top hits" returns no hit; "USA charts 2024" finds "Q", which loads | clear the id before each alternate term, so the later terms are tried and "Q" is found | medium, not executed | SpotifyCharts.StaleIdRefetched | SpotifyCharts.TopChartsForCountry |
