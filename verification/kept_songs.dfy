/**
 * The `KeptSong` record of playlists/models.py: one decision (keep or
 * remove) of one user about one track of one playlist. Records are stored
 * in a map keyed by `Key`, which is what `unique_together` guarantees: at
 * most one record per (user, playlist, track).
 */
module KeptSongs {
  import opened Wrappers
  import opened Json
  import opened Users

  datatype Key = Key(user: User, playlistId: string, trackUri: string)

  /** The non-key columns; `artists` is a JSON column that may be null. */
  datatype KeptSong = KeptSong(
    name: string,
    artists: Value,
    imageUrl: Option<string>,
    previewUrl: Option<string>,
    spotifyUrl: Option<string>,
    kept: bool,
    createdAt: int)

  const PlaylistIdWidth := 255
  const TrackUriWidth := 255
  const NameWidth := 512

  /** The declared widths of the character columns. */
  predicate FitsColumns(k: Key, s: KeptSong)
  {
    |k.playlistId| <= PlaylistIdWidth && |k.trackUri| <= TrackUriWidth && |s.name| <= NameWidth
  }

  function Verdict(kept: bool): string
  {
    if kept then "kept" else "removed"
  }

  /** `KeptSong.__str__`. */
  function Describe(k: Key, s: KeptSong): (d: string)
    ensures |d| > |k.user| + 3 && d[..|k.user| + 3] == k.user + " - "
    ensures s.kept ==> |d| >= 7 && d[|d| - 7..] == " (kept)"
    ensures !s.kept ==> |d| >= 10 && d[|d| - 10..] == " (removed)"
    ensures var tail := if s.kept then 7 else 10;
      |d| >= |k.user| + 3 + tail && d[|k.user| + 3..|d| - tail] == k.playlistId + " - " + s.name
  {
    var tail := " (" + Verdict(s.kept) + ")";
    assert tail == if s.kept then " (kept)" else " (removed)";
    var middle := k.playlistId + " - " + s.name;
    var d := k.user + " - " + middle + tail;
    Joined(k.user + " - ", middle + tail);
    Joined(k.user + " - " + middle, tail);
    Joined(middle, tail);
    assert d[|k.user| + 3..|d| - |tail|] == (middle + tail)[..|middle|];
    d
  }

  lemma Joined(p: string, q: string)
    ensures (p + q)[..|p|] == p && (p + q)[|p|..] == q
  {
  }

  /** Reading the decision back from a description: the inverse of `Describe` on `kept`. */
  function VerdictOf(d: string): (r: Option<bool>)
    ensures r == Some(true) ==> |d| >= 7 && d[|d| - 7..] == " (kept)"
    ensures r == Some(false) ==> |d| >= 10 && d[|d| - 10..] == " (removed)"
  {
    if |d| >= 7 && d[|d| - 7..] == " (kept)" then Some(true)
    else if |d| >= 10 && d[|d| - 10..] == " (removed)" then Some(false)
    else None
  }

  lemma DescribeVerdict(k: Key, s: KeptSong)
    ensures VerdictOf(Describe(k, s)) == Some(s.kept)
  {
    var d := Describe(k, s);
    if !s.kept {
      assert d[|d| - 10..] == " (removed)";
      assert d[|d| - 7..] == d[|d| - 10..][3..];
      assert " (removed)"[3..] != " (kept)";
    }
  }
}
