/**
 * The decision ledger of playlists/views.py: `save_decision`,
 * `reconsider_decision`, the `show_all` reset of `render_edit`,
 * `apply_playlist_changes` and `kept_view`, over the `KeptSong` records.
 */
module Decisions {
  import opened Wrappers
  import opened Json
  import opened JsonText
  import opened Users
  import opened KeptSongs
  import opened Sessions
  import opened SpotifyApi

  type Records = map<Key, KeptSong>

  /** `payload.get(k)`: null when the key is absent. */
  function Field(body: seq<(string, Value)>, k: string): Value
  {
    Get(body, k).GetOr(Null)
  }

  /** What a nullable character column keeps of a JSON value: `str(v)`, or None for null. */
  function Stored(v: Value): (r: Option<string>)
    ensures v.Null? <==> r.None?
    ensures v.Str? ==> r == Some(v.s)
  {
    if v.Null? then None else Some(PyStr(v))
  }

  /** The guard of `save_decision`: a truthy playlist id and track URI, and `kept` given. */
  predicate Complete(body: seq<(string, Value)>)
  {
    Truthy(Field(body, "playlist_id")) && Truthy(Field(body, "track_uri")) && !Field(body, "kept").Null?
  }

  /** The record key a request names; the character columns hold `str()` of the values. */
  function DecisionKey(user: User, body: seq<(string, Value)>): Key
  {
    Key(user, PyStr(Field(body, "playlist_id")), PyStr(Field(body, "track_uri")))
  }

  /** The columns `save_decision` writes, with escape sequences in the name and artists decoded. */
  function Decision(body: seq<(string, Value)>, createdAt: int): (s: KeptSong)
    ensures s.kept == Truthy(Field(body, "kept")) && s.createdAt == createdAt
    ensures Field(body, "name").Str? ==> s.name == DecodeText(Field(body, "name").s)
    ensures !Truthy(Field(body, "name")) ==> s.name == ""
    ensures !Truthy(Field(body, "artists")) ==> s.artists == Array([])
    ensures Truthy(Field(body, "name")) && !Field(body, "name").Str? ==> s.name == PyStr(Field(body, "name"))
    ensures Field(body, "artists").Array? ==>
      s.artists.Array? && |s.artists.items| == |Field(body, "artists").items|
    ensures Field(body, "artists").Array? ==>
      forall k :: 0 <= k < |s.artists.items| ==> s.artists.items[k] == DecodeEscapes(Field(body, "artists").items[k])
    ensures Truthy(Field(body, "artists")) && !Field(body, "artists").Array? ==> s.artists == Field(body, "artists")
    ensures s.imageUrl == Stored(Field(body, "image_url"))
    ensures s.previewUrl == Stored(Field(body, "preview_url"))
    ensures s.spotifyUrl == Stored(Field(body, "spotify_url"))
  {
    KeptSong(
      PyStr(DecodeEscapes(OrElse(Field(body, "name"), Str("")))),
      DecodeList(OrElse(Field(body, "artists"), Array([]))),
      Stored(Field(body, "image_url")),
      Stored(Field(body, "preview_url")),
      Stored(Field(body, "spotify_url")),
      Truthy(Field(body, "kept")),
      createdAt)
  }

  /** `update_or_create`: the record under the key is written; a new one gets the creation time `now`. */
  function Upsert(m: Records, user: User, body: seq<(string, Value)>, now: int): (r: Records)
    ensures var k := DecisionKey(user, body);
      && r.Keys == m.Keys + {k}
      && (forall j :: j in m && j != k ==> r[j] == m[j])
      && r[k].kept == Truthy(Field(body, "kept"))
      && r[k].createdAt == if k in m then m[k].createdAt else now
  {
    var k := DecisionKey(user, body);
    m[k := Decision(body, if k in m then m[k].createdAt else now)]
  }

  /** The set `values_list("track_uri")` of a user's kept decisions for a playlist. */
  function KeptUris(m: Records, user: User, playlistId: string): set<string>
  {
    set k | k in m && k.user == user && k.playlistId == playlistId && m[k].kept :: k.trackUri
  }

  /** The same for the removed decisions. */
  function RemovedUris(m: Records, user: User, playlistId: string): set<string>
  {
    set k | k in m && k.user == user && k.playlistId == playlistId && !m[k].kept :: k.trackUri
  }

  /** A track is never both kept and removed: there is one record per key. */
  lemma KeptRemovedDisjoint(m: Records, user: User, playlistId: string)
    ensures KeptUris(m, user, playlistId) * RemovedUris(m, user, playlistId) == {}
  {
    forall x | x in KeptUris(m, user, playlistId) ensures x !in RemovedUris(m, user, playlistId) {
      var k :| k in m && k.user == user && k.playlistId == playlistId && m[k].kept && k.trackUri == x;
      assert k == Key(user, playlistId, x);
    }
  }

  /**
   * Saving puts the track in exactly one of the two sets, by the truthiness
   * of `kept`; every other record is untouched and keeps its verdict.
   */
  lemma UpsertVerdict(m: Records, user: User, body: seq<(string, Value)>, now: int)
    ensures var k := DecisionKey(user, body);
      var m' := Upsert(m, user, body, now);
      && m'.Keys == m.Keys + {k}
      && (forall j :: j in m && j != k ==> m'[j] == m[j])
      && (Truthy(Field(body, "kept")) <==> k.trackUri in KeptUris(m', user, k.playlistId))
      && (Truthy(Field(body, "kept")) <==> k.trackUri !in RemovedUris(m', user, k.playlistId))
  {
    var k := DecisionKey(user, body);
    var m' := Upsert(m, user, body, now);
    KeptRemovedDisjoint(m', user, k.playlistId);
    assert k in m' && k.user == user;
    if Truthy(Field(body, "kept")) {
      assert k.trackUri in KeptUris(m', user, k.playlistId);
    } else {
      assert k.trackUri in RemovedUris(m', user, k.playlistId);
    }
  }

  /** Saving the same decision again changes nothing, not even the creation time. */
  lemma UpsertIdempotent(m: Records, user: User, body: seq<(string, Value)>, now: int, later: int)
    ensures Upsert(Upsert(m, user, body, now), user, body, later) == Upsert(m, user, body, now)
  {
  }

  /** `obj.kept = True`: only the verdict of the key changes. */
  function Reconsidered(m: Records, k: Key): Records
    requires k in m
  {
    m[k := m[k].(kept := true)]
  }

  /** Reconsidering moves the track from the removed set to the kept set; no other set changes. */
  lemma ReconsiderMoves(m: Records, k: Key, user: User, playlistId: string)
    requires k in m
    ensures var m' := Reconsidered(m, k);
      if user == k.user && playlistId == k.playlistId then
        KeptUris(m', user, playlistId) == KeptUris(m, user, playlistId) + {k.trackUri}
        && RemovedUris(m', user, playlistId) == RemovedUris(m, user, playlistId) - {k.trackUri}
      else
        KeptUris(m', user, playlistId) == KeptUris(m, user, playlistId)
        && RemovedUris(m', user, playlistId) == RemovedUris(m, user, playlistId)
  {
    var m' := Reconsidered(m, k);
    if user == k.user && playlistId == k.playlistId {
      forall x | x in RemovedUris(m, user, playlistId) - {k.trackUri} ensures x in RemovedUris(m', user, playlistId) {
        var j :| j in m && j.user == user && j.playlistId == playlistId && !m[j].kept && j.trackUri == x;
        assert j in m' && m'[j] == m[j];
      }
      forall x | x in KeptUris(m, user, playlistId) ensures x in KeptUris(m', user, playlistId) {
        var j :| j in m && j.user == user && j.playlistId == playlistId && m[j].kept && j.trackUri == x;
        assert j in m' && m'[j].kept;
      }
      assert k in m' && m'[k].kept;
    } else {
      forall x | x in RemovedUris(m, user, playlistId) ensures x in RemovedUris(m', user, playlistId) {
        var j :| j in m && j.user == user && j.playlistId == playlistId && !m[j].kept && j.trackUri == x;
        assert j in m' && m'[j] == m[j];
      }
      forall x | x in KeptUris(m, user, playlistId) ensures x in KeptUris(m', user, playlistId) {
        var j :| j in m && j.user == user && j.playlistId == playlistId && m[j].kept && j.trackUri == x;
        assert j in m' && m'[j] == m[j];
      }
    }
  }

  /** The `show_all` reset: the user's kept records for the playlist are deleted. */
  function WithoutKept(m: Records, user: User, playlistId: string): Records
  {
    map k | k in m && !(k.user == user && k.playlistId == playlistId && m[k].kept) :: m[k]
  }

  /** After the reset nothing is kept, the removed set is as before, and other playlists are untouched. */
  lemma ResetClearsKept(m: Records, user: User, playlistId: string)
    ensures KeptUris(WithoutKept(m, user, playlistId), user, playlistId) == {}
    ensures RemovedUris(WithoutKept(m, user, playlistId), user, playlistId) == RemovedUris(m, user, playlistId)
    ensures forall k :: k in m && (k.user != user || k.playlistId != playlistId) ==> k in WithoutKept(m, user, playlistId)
  {
    var m' := WithoutKept(m, user, playlistId);
    forall x | x in RemovedUris(m, user, playlistId) ensures x in RemovedUris(m', user, playlistId) {
      var j :| j in m && j.user == user && j.playlistId == playlistId && !m[j].kept && j.trackUri == x;
      assert j in m';
    }
  }

  /** What `apply_playlist_changes` deletes once the remote removal succeeded. */
  function WithoutRemoved(m: Records, user: User, playlistId: string): Records
  {
    map k | k in m && !(k.user == user && k.playlistId == playlistId && !m[k].kept) :: m[k]
  }

  lemma ApplyClearsRemoved(m: Records, user: User, playlistId: string)
    ensures RemovedUris(WithoutRemoved(m, user, playlistId), user, playlistId) == {}
    ensures KeptUris(WithoutRemoved(m, user, playlistId), user, playlistId) == KeptUris(m, user, playlistId)
    ensures forall k :: k in m && (k.user != user || k.playlistId != playlistId) ==> k in WithoutRemoved(m, user, playlistId)
  {
    var m' := WithoutRemoved(m, user, playlistId);
    forall x | x in KeptUris(m, user, playlistId) ensures x in KeptUris(m', user, playlistId) {
      var j :| j in m && j.user == user && j.playlistId == playlistId && m[j].kept && j.trackUri == x;
      assert j in m';
    }
  }

  predicate Distinct(s: seq<string>)
  {
    forall i, j :: 0 <= i < j < |s| ==> s[i] != s[j]
  }

  lemma {:induction false} DistinctCard(s: seq<string>)
    requires Distinct(s)
    ensures |set x | x in s| == |s|
  {
    if s != [] {
      var last := s[|s| - 1];
      var init := s[..|s| - 1];
      assert Distinct(init);
      DistinctCard(init);
      assert (set x | x in s) == (set x | x in init) + {last};
      assert last !in (set x | x in init);
    }
  }

  datatype Reply = InvalidJson | MissingFields | NotFound | Saved(created: bool) | Updated

  function Status(r: Reply): int
  {
    match r
    case InvalidJson => 400
    case MissingFields => 400
    case NotFound => 404
    case _ => 200
  }

  /** How the remote removal ended: done, a `requests` error, or any other exception; with its text. */
  datatype RemovalOutcome = RemovalDone | RequestError(reason: string) | OtherError(reason: string)

  datatype ApplyReply = NothingToRemove | Applied(count: nat, message: string) | ApplyFailed(status: int, message: string)

  function SuccessMessage(count: nat): string
  {
    "Successfully removed " + NatDecimal(count) + " song" + (if count != 1 then "s" else "") + " from your Spotify playlist!"
  }

  /** A row of `kept_view`. */
  datatype DecisionView = DecisionView(
    name: string, artists: Value, imageUrl: Option<string>, previewUrl: Option<string>,
    spotifyUrl: Option<string>, trackUri: string)

  function ViewOf(k: Key, s: KeptSong): DecisionView
  {
    DecisionView(DecodeText(s.name), DecodeList(OrElse(s.artists, Array([]))), s.imageUrl, s.previewUrl, s.spotifyUrl, k.trackUri)
  }

  /** The rows of `qs.filter(kept=kept)`, in the order of `qs`. */
  function ViewsWhere(m: Records, qs: seq<Key>, kept: bool): seq<DecisionView>
    requires forall i :: 0 <= i < |qs| ==> qs[i] in m
  {
    if qs == [] then []
    else (if m[qs[0]].kept == kept then [ViewOf(qs[0], m[qs[0]])] else []) + ViewsWhere(m, qs[1..], kept)
  }

  function PlaylistKeys(m: Records, user: User, playlistId: string): set<Key>
  {
    set k | k in m && k.user == user && k.playlistId == playlistId
  }

  /** `order_by('-created_at')`; ties may come in any order. */
  predicate NewestFirst(m: Records, qs: seq<Key>)
  {
    && (forall i :: 0 <= i < |qs| ==> qs[i] in m)
    && (forall i, j :: 0 <= i < j < |qs| ==> qs[i] in m && qs[j] in m && m[qs[j]].createdAt <= m[qs[i]].createdAt)
  }

  /**
   * Keys drawn newest first from `all`: `qs` holds, without repeats, exactly
   * the keys no longer `remaining`, and none of those left is newer.
   */
  predicate Drawn(m: Records, all: set<Key>, remaining: set<Key>, qs: seq<Key>)
  {
    && all <= m.Keys && remaining <= all
    && (forall i :: 0 <= i < |qs| ==> qs[i] in all && qs[i] !in remaining)
    && (forall k :: k in all && k !in remaining ==> k in qs)
    && (forall i, j :: 0 <= i < j < |qs| ==> qs[i] != qs[j])
    && NewestFirst(m, qs)
    && (forall i, k :: 0 <= i < |qs| && k in remaining ==> m[k].createdAt <= m[qs[i]].createdAt)
  }

  /** Drawing a newest remaining key keeps the draw in order. */
  lemma DrawStep(m: Records, all: set<Key>, remaining: set<Key>, qs: seq<Key>, k: Key)
    requires Drawn(m, all, remaining, qs)
    requires k in remaining && forall j :: j in remaining ==> m[j].createdAt <= m[k].createdAt
    ensures Drawn(m, all, remaining - {k}, qs + [k])
  {
    var next := qs + [k];
    assert forall i :: 0 <= i < |qs| ==> next[i] == qs[i];
    assert next[|qs|] == k;
  }

  lemma {:induction false} LatestExists(m: Records, s: set<Key>)
    requires s != {} && s <= m.Keys
    ensures exists k :: k in s && forall j :: j in s ==> m[j].createdAt <= m[k].createdAt
  {
    var x :| x in s;
    if s - {x} != {} {
      LatestExists(m, s - {x});
      var y :| y in s - {x} && forall j :: j in s - {x} ==> m[j].createdAt <= m[y].createdAt;
      if m[x].createdAt <= m[y].createdAt {
        assert forall j :: j in s ==> m[j].createdAt <= m[y].createdAt;
      } else {
        assert forall j :: j in s ==> m[j].createdAt <= m[x].createdAt;
      }
    } else {
      assert s == {x};
    }
  }

  /** The rows of `kept_view` name exactly the tracks of the kept (or removed) set. */
  lemma {:induction false} ViewsCover(m: Records, qs: seq<Key>, kept: bool)
    requires forall i :: 0 <= i < |qs| ==> qs[i] in m
    ensures (set v | v in ViewsWhere(m, qs, kept) :: v.trackUri) == (set i | 0 <= i < |qs| && m[qs[i]].kept == kept :: qs[i].trackUri)
  {
    if qs != [] {
      ViewsCover(m, qs[1..], kept);
      var head := if m[qs[0]].kept == kept then [ViewOf(qs[0], m[qs[0]])] else [];
      assert ViewsWhere(m, qs, kept) == head + ViewsWhere(m, qs[1..], kept);
      TrackUrisAppend(head, ViewsWhere(m, qs[1..], kept));
      TrackUrisWhereCons(m, qs, kept);
    }
  }

  lemma TrackUrisAppend(a: seq<DecisionView>, b: seq<DecisionView>)
    ensures (set v | v in a + b :: v.trackUri) == (set v | v in a :: v.trackUri) + (set v | v in b :: v.trackUri)
  {
  }

  /** The tracks of the records of `qs` with a verdict: the head's, if it has it, and the rest's. */
  lemma TrackUrisWhereCons(m: Records, qs: seq<Key>, kept: bool)
    requires qs != [] && forall i :: 0 <= i < |qs| ==> qs[i] in m
    ensures (set i | 0 <= i < |qs| && m[qs[i]].kept == kept :: qs[i].trackUri)
         == (set i | 0 <= i < |qs[1..]| && m[qs[1..][i]].kept == kept :: qs[1..][i].trackUri)
            + (if m[qs[0]].kept == kept then {qs[0].trackUri} else {})
  {
    var rest := set i | 0 <= i < |qs[1..]| && m[qs[1..][i]].kept == kept :: qs[1..][i].trackUri;
    var all := set i | 0 <= i < |qs| && m[qs[i]].kept == kept :: qs[i].trackUri;
    forall x | x in all ensures x in rest + (if m[qs[0]].kept == kept then {qs[0].trackUri} else {}) {
      var i :| 0 <= i < |qs| && m[qs[i]].kept == kept && qs[i].trackUri == x;
      if i > 0 {
        assert qs[1..][i - 1] == qs[i];
      }
    }
    forall x | x in rest ensures x in all {
      var i :| 0 <= i < |qs[1..]| && m[qs[1..][i]].kept == kept && qs[1..][i].trackUri == x;
      assert qs[i + 1] == qs[1..][i];
    }
  }

  /** All decisions of all users: one record per (user, playlist, track). */
  class Ledger {
    var records: Records

    constructor()
      ensures records == map[]
    {
      records := map[];
    }

    /** `save_decision`, given the request body after `json.loads` (None when it is not JSON) and the clock. */
    method SaveDecision(user: User, body: Option<seq<(string, Value)>>, now: int) returns (r: Reply)
      modifies this
      ensures body.None? ==> r == InvalidJson && records == old(records)
      ensures body.Some? && !Complete(body.value) ==> r == MissingFields && records == old(records)
      ensures body.Some? && Complete(body.value) ==>
        && r == Saved(DecisionKey(user, body.value) !in old(records))
        && records == Upsert(old(records), user, body.value, now)
    {
      if body.None? {
        return InvalidJson;
      }
      var payload := body.value;
      if !(Truthy(Field(payload, "playlist_id")) && Truthy(Field(payload, "track_uri"))) || Field(payload, "kept").Null? {
        return MissingFields;
      }
      var k := DecisionKey(user, payload);
      var created := k !in records;
      var createdAt := if created then now else records[k].createdAt;
      records := records[k := Decision(payload, createdAt)];
      r := Saved(created);
    }

    /** `reconsider_decision`: flip an existing decision back to kept. */
    method ReconsiderDecision(user: User, body: Option<seq<(string, Value)>>) returns (r: Reply)
      modifies this
      ensures body.None? ==> r == InvalidJson && records == old(records)
      ensures body.Some? && !(Truthy(Field(body.value, "playlist_id")) && Truthy(Field(body.value, "track_uri"))) ==>
        r == MissingFields && records == old(records)
      ensures body.Some? && Truthy(Field(body.value, "playlist_id")) && Truthy(Field(body.value, "track_uri")) ==>
        var k := DecisionKey(user, body.value);
        && (k !in old(records) ==> r == NotFound && records == old(records))
        && (k in old(records) ==> r == Updated && records == Reconsidered(old(records), k))
    {
      if body.None? {
        return InvalidJson;
      }
      var payload := body.value;
      if !Truthy(Field(payload, "playlist_id")) || !Truthy(Field(payload, "track_uri")) {
        return MissingFields;
      }
      var k := DecisionKey(user, payload);
      if k !in records {
        return NotFound;
      }
      records := records[k := records[k].(kept := true)];
      r := Updated;
    }

    /** The `show_all` branch of `render_edit`: the kept records of the playlist are deleted. */
    method ResetKept(user: User, playlistId: string)
      modifies this
      ensures records == WithoutKept(old(records), user, playlistId)
    {
      records := map k | k in records && !(k.user == user && k.playlistId == playlistId && records[k].kept) :: records[k];
    }

    /** `[song.track_uri for song in removed_songs]`: each removed track once, in some order. */
    method RemovedTracks(user: User, playlistId: string) returns (uris: seq<string>)
      ensures Distinct(uris) && (set u | u in uris) == RemovedUris(records, user, playlistId)
      ensures |uris| == |RemovedUris(records, user, playlistId)|
    {
      var removedKeys := set k | k in records && k.user == user && k.playlistId == playlistId && !records[k].kept;
      uris := [];
      var remaining := removedKeys;
      while remaining != {}
        invariant remaining <= removedKeys
        invariant forall i :: 0 <= i < |uris| ==> Key(user, playlistId, uris[i]) in removedKeys - remaining
        invariant forall k :: k in removedKeys - remaining ==> k.trackUri in uris
        invariant Distinct(uris)
        decreases remaining
      {
        var k :| k in remaining;
        assert k == Key(user, playlistId, k.trackUri);
        uris := uris + [k.trackUri];
        remaining := remaining - {k};
      }
      assert (set u | u in uris) == RemovedUris(records, user, playlistId);
      DistinctCard(uris);
    }

    /**
     * `apply_playlist_changes`: the URIs of the removed records are sent to
     * the remote removal (`remove`, given the playlist and the payload);
     * only if it succeeds are those records deleted and the playlist
     * marked as modified in the session.
     */
    method ApplyPlaylistChanges(session: Session, user: User, playlistId: string,
                                remove: (string, seq<TrackRef>) -> RemovalOutcome)
      returns (r: ApplyReply, sentUris: Option<seq<string>>)
      modifies this, session
      ensures var removed := RemovedUris(old(records), user, playlistId);
        && (removed == {} ==>
              r == NothingToRemove && sentUris.None? && records == old(records)
              && session.modifiedPlaylist == old(session.modifiedPlaylist))
        && (removed != {} ==>
              && sentUris.Some? && Distinct(sentUris.value) && (set u | u in sentUris.value) == removed
              && |sentUris.value| == |removed|
              && match remove(playlistId, RemovalPayload(sentUris.value))
                 case RemovalDone =>
                   r == Applied(|removed|, SuccessMessage(|removed|))
                   && records == WithoutRemoved(old(records), user, playlistId)
                   && session.modifiedPlaylist == Some(playlistId)
                 case RequestError(e) =>
                   r == ApplyFailed(400, "Failed to update Spotify playlist: " + e)
                   && records == old(records) && session.modifiedPlaylist == old(session.modifiedPlaylist)
                 case OtherError(e) =>
                   r == ApplyFailed(500, "An error occurred: " + e)
                   && records == old(records) && session.modifiedPlaylist == old(session.modifiedPlaylist))
      ensures session.authState == old(session.authState) && session.oauth == old(session.oauth)
    {
      var uris := RemovedTracks(user, playlistId);
      if uris == [] {
        return NothingToRemove, None;
      }
      var count := |uris|;
      sentUris := Some(uris);
      match remove(playlistId, RemovalPayload(uris))
      case RemovalDone =>
        records := map k | k in records && !(k.user == user && k.playlistId == playlistId && !records[k].kept) :: records[k];
        session.modifiedPlaylist := Some(playlistId);
        r := Applied(count, SuccessMessage(count));
      case RequestError(e) =>
        r := ApplyFailed(400, "Failed to update Spotify playlist: " + e);
      case OtherError(e) =>
        r := ApplyFailed(500, "An error occurred: " + e);
    }

    /** The query of `kept_view`: the user's records for the playlist, newest first. */
    method NewestDecisions(user: User, playlistId: string) returns (qs: seq<Key>)
      ensures NewestFirst(records, qs)
      ensures forall i, j :: 0 <= i < j < |qs| ==> qs[i] != qs[j]
      ensures forall k :: k in PlaylistKeys(records, user, playlistId) <==> k in qs
    {
      var remaining := PlaylistKeys(records, user, playlistId);
      qs := [];
      while remaining != {}
        invariant Drawn(records, PlaylistKeys(records, user, playlistId), remaining, qs)
        decreases remaining
      {
        LatestExists(records, remaining);
        var k :| k in remaining && forall j :: j in remaining ==> records[j].createdAt <= records[k].createdAt;
        DrawStep(records, PlaylistKeys(records, user, playlistId), remaining, qs, k);
        qs := qs + [k];
        remaining := remaining - {k};
      }
    }

    /** `kept_view`: the kept and the removed rows, each newest first, with names and artists decoded. */
    method KeptView(user: User, playlistId: string) returns (qs: seq<Key>, kept: seq<DecisionView>, removed: seq<DecisionView>)
      ensures NewestFirst(records, qs)
      ensures forall k :: k in PlaylistKeys(records, user, playlistId) <==> k in qs
      ensures kept == ViewsWhere(records, qs, true) && removed == ViewsWhere(records, qs, false)
      ensures (set v | v in kept :: v.trackUri) == KeptUris(records, user, playlistId)
      ensures (set v | v in removed :: v.trackUri) == RemovedUris(records, user, playlistId)
    {
      qs := NewestDecisions(user, playlistId);
      ViewsCover(records, qs, true);
      ViewsCover(records, qs, false);
      assert (set i | 0 <= i < |qs| && records[qs[i]].kept :: qs[i].trackUri) == KeptUris(records, user, playlistId) by {
        forall x | x in KeptUris(records, user, playlistId)
          ensures x in (set i | 0 <= i < |qs| && records[qs[i]].kept :: qs[i].trackUri)
        {
          var k :| k in records && k.user == user && k.playlistId == playlistId && records[k].kept && k.trackUri == x;
          assert k in PlaylistKeys(records, user, playlistId);
          var i :| 0 <= i < |qs| && qs[i] == k;
        }
        forall i | 0 <= i < |qs| && records[qs[i]].kept
          ensures qs[i].trackUri in KeptUris(records, user, playlistId)
        {
          assert qs[i] in PlaylistKeys(records, user, playlistId);
        }
      }
      assert (set i | 0 <= i < |qs| && !records[qs[i]].kept :: qs[i].trackUri) == RemovedUris(records, user, playlistId) by {
        forall x | x in RemovedUris(records, user, playlistId)
          ensures x in (set i | 0 <= i < |qs| && !records[qs[i]].kept :: qs[i].trackUri)
        {
          var k :| k in records && k.user == user && k.playlistId == playlistId && !records[k].kept && k.trackUri == x;
          assert k in PlaylistKeys(records, user, playlistId);
          var i :| 0 <= i < |qs| && qs[i] == k;
        }
        forall i | 0 <= i < |qs| && !records[qs[i]].kept
          ensures qs[i].trackUri in RemovedUris(records, user, playlistId)
        {
          assert qs[i] in PlaylistKeys(records, user, playlistId);
        }
      }
      assert (set i | 0 <= i < |qs| && !records[qs[i]].kept :: qs[i].trackUri)
          == (set i | 0 <= i < |qs| && records[qs[i]].kept == false :: qs[i].trackUri);
      kept := ViewsWhere(records, qs, true);
      removed := ViewsWhere(records, qs, false);
    }
  }
}
