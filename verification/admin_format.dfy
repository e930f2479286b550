/**
 * The admin formatting of playlists/admin.py: `KeptSongAdmin.get_artists`
 * renders the JSON `artists` column as text, and `export_as_csv` writes one
 * row per record under a fixed header.
 */
module Admin {
  import opened Wrappers
  import opened Json
  import opened AsciiText
  import opened KeptSongs

  const Separator := ", "

  /** `isinstance(x, dict) and 'name' in x` */
  predicate NamedDict(x: Value)
  {
    x.Object? && Get(x.fields, "name").Some?
  }

  function NameOf(x: Value): Value
    requires NamedDict(x)
  {
    Get(x.fields, "name").value
  }

  /** `str(obj.artists)[:50]` */
  function Clip(s: string, n: nat): (r: string)
    ensures |r| == if |s| <= n then |s| else n
    ensures r <= s
  {
    if |s| <= n then s else s[..n]
  }

  /** `[artist['name'] for artist in artists]` */
  function NameTexts(a: seq<Value>): (r: seq<string>)
    requires forall k :: 0 <= k < |a| ==> NamedDict(a[k]) && NameOf(a[k]).Str?
    ensures |r| == |a| && forall k :: 0 <= k < |a| ==> r[k] == NameOf(a[k]).s
  {
    seq(|a|, k requires 0 <= k < |a| => NameOf(a[k]).s)
  }

  /** The strings of a list of strings. */
  function StrTexts(a: seq<Value>): (r: seq<string>)
    requires forall k :: 0 <= k < |a| ==> a[k].Str?
    ensures |r| == |a| && forall k :: 0 <= k < |a| ==> r[k] == a[k].s
  {
    seq(|a|, k requires 0 <= k < |a| => a[k].s)
  }

  /** `[str(artist) for artist in artists]` */
  function PyTexts(a: seq<Value>): (r: seq<string>)
    ensures |r| == |a| && forall k :: 0 <= k < |a| ==> r[k] == PyStr(a[k])
  {
    seq(|a|, k requires 0 <= k < |a| => PyStr(a[k]))
  }

  /**
   * `get_artists`: the text shown for a record's `artists` value. It is
   * always a string, except for a single dictionary whose 'name' is
   * returned as it is.
   */
  function GetArtists(artists: Value): (r: Value)
    ensures !Truthy(artists) ==> r == Str("Unknown Artist")
    ensures !r.Str? ==> NamedDict(artists) && r == NameOf(artists)
  {
    if !Truthy(artists) then Str("Unknown Artist")
    else match artists
      case Array(a) =>
        if forall k :: 0 <= k < |a| ==> NamedDict(a[k]) then
          // `', '.join(...)` raises a TypeError on a name that is not a string.
          if forall k :: 0 <= k < |a| ==> NameOf(a[k]).Str? then
            Str(Join(NameTexts(a), Separator))
          else Str("Error parsing: " + Clip(PyStr(artists), 50) + "...")
        else if forall k :: 0 <= k < |a| ==> a[k].Str? then
          Str(Join(StrTexts(a), Separator))
        else
          Str(Join(PyTexts(a), Separator))
      case Object(f) =>
        if Get(f, "name").Some? then Get(f, "name").value else Str(PyStr(artists))
      case Str(s) => artists
      case _ => Str(PyStr(artists))
  }

  /** The first occurrence of `sep` in `s` at or after `i`. */
  function FindFrom(s: string, sep: string, i: nat): (r: Option<nat>)
    ensures r.Some? ==> i <= r.value && OccursAt(s, sep, r.value)
    ensures r.Some? ==> forall j :: i <= j < r.value ==> !OccursAt(s, sep, j)
    ensures r.None? ==> forall j :: i <= j ==> !OccursAt(s, sep, j)
    decreases |s| - i
  {
    if i + |sep| > |s| then None
    else if OccursAt(s, sep, i) then Some(i)
    else FindFrom(s, sep, i + 1)
  }

  /** `s.split(', ')` */
  function SplitNames(s: string): (r: seq<string>)
    ensures r != []
    decreases |s|
  {
    match FindFrom(s, Separator, 0)
    case None => [s]
    case Some(i) => [s[..i]] + SplitNames(s[i + 2..])
  }

  /** A name without the separator, followed by the separator: the first split falls right after the name. */
  lemma FirstSplit(p: string, rest: string)
    requires !Contains(p, Separator)
    ensures FindFrom(p + Separator + rest, Separator, 0) == Some(|p|)
  {
    var s := p + Separator + rest;
    assert OccursAt(s, Separator, |p|);
    forall j | 0 <= j < |p| ensures !OccursAt(s, Separator, j) {
      if j + 1 < |p| {
        assert s[j..j + 2] == p[j..j + 2];
        assert !OccursAt(p, Separator, j);
      } else {
        assert s[j + 1] == ',';
      }
    }
  }

  /** Joining names that do not contain the separator can be undone by splitting. */
  lemma {:induction false} JoinSplit(parts: seq<string>)
    requires parts != []
    requires forall k :: 0 <= k < |parts| ==> !Contains(parts[k], Separator)
    ensures SplitNames(Join(parts, Separator)) == parts
  {
    if |parts| == 1 {
      var s := parts[0];
      assert FindFrom(s, Separator, 0).None? by {
        forall j | 0 <= j ensures !OccursAt(s, Separator, j) {
          assert !OccursAt(parts[0], Separator, j);
        }
      }
    } else {
      var rest := Join(parts[1..], Separator);
      assert Join(parts, Separator) == parts[0] + Separator + rest;
      FirstSplit(parts[0], rest);
      var s := parts[0] + Separator + rest;
      assert s[..|parts[0]|] == parts[0];
      assert s[|parts[0]| + 2..] == rest;
      JoinSplit(parts[1..]);
    }
  }

  lemma StringsListed(a: seq<Value>, names: seq<string>)
    requires |a| == |names| > 0
    requires forall k :: 0 <= k < |names| ==> a[k] == Str(names[k])
    ensures !NamedDict(a[0])
    ensures forall k :: 0 <= k < |a| ==> a[k].Str?
    ensures StrTexts(a) == names
  {
  }

  lemma DictsListed(a: seq<Value>, names: seq<string>)
    requires |a| == |names|
    requires forall k :: 0 <= k < |names| ==> NamedDict(a[k]) && NameOf(a[k]) == Str(names[k])
    ensures forall k :: 0 <= k < |a| ==> NamedDict(a[k]) && NameOf(a[k]).Str?
    ensures NameTexts(a) == names
  {
  }

  /** A non-empty list of plain strings shows them joined by ", ", whatever they contain. */
  lemma StringListShown(a: seq<Value>, names: seq<string>)
    requires |a| == |names| > 0
    requires forall k :: 0 <= k < |names| ==> a[k] == Str(names[k])
    ensures GetArtists(Array(a)) == Str(Join(names, Separator))
  {
    StringsListed(a, names);
    assert Truthy(Array(a)) by { assert a != []; }
  }

  /** A non-empty list of dictionaries with string names shows the names joined by ", ", whatever they contain. */
  lemma NamedListShown(a: seq<Value>, names: seq<string>)
    requires |a| == |names| > 0
    requires forall k :: 0 <= k < |names| ==> NamedDict(a[k]) && NameOf(a[k]) == Str(names[k])
    ensures GetArtists(Array(a)) == Str(Join(names, Separator))
  {
    DictsListed(a, names);
    assert Truthy(Array(a)) by { assert a != []; }
  }

  /**
   * The admin text of a non-empty list of artist names, given as strings
   * or as dictionaries with a string 'name', reads back as those names when
   * none contains ", ".
   */
  lemma ArtistsReadBack(artists: Value, names: seq<string>)
    requires artists.Array? && |artists.items| == |names| > 0
    requires forall k :: 0 <= k < |names| ==> !Contains(names[k], Separator)
    requires (forall k :: 0 <= k < |names| ==> artists.items[k] == Str(names[k]))
          || (forall k :: 0 <= k < |names| ==> NamedDict(artists.items[k]) && NameOf(artists.items[k]) == Str(names[k]))
    ensures GetArtists(artists).Str? && SplitNames(GetArtists(artists).s) == names
  {
    var a := artists.items;
    if forall k :: 0 <= k < |names| ==> a[k] == Str(names[k]) {
      StringsListed(a, names);
    } else {
      DictsListed(a, names);
    }
    JoinSplit(names);
  }

  /** A single dictionary with a 'name' shows that name. */
  lemma NamedArtistShown(artists: Value)
    requires NamedDict(artists)
    ensures GetArtists(artists) == NameOf(artists)
  {
    assert artists.fields != [];
  }

  /** A non-empty string is shown as it is. */
  lemma StringArtistShown(s: string)
    requires s != ""
    ensures GetArtists(Str(s)) == Str(s)
  {
  }

  /**
   * A list that is neither all named dictionaries nor all strings shows the
   * `str()` of every element, joined by ", ".
   */
  lemma MixedArtistsJoined(a: seq<Value>, i: nat, j: nat)
    requires i < |a| && j < |a| && !NamedDict(a[i]) && !a[j].Str?
    ensures GetArtists(Array(a)) == Str(Join(PyTexts(a), Separator))
  {
    assert Truthy(Array(a)) by { assert a != []; }
    assert !(forall k :: 0 <= k < |a| ==> NamedDict(a[k])) by { assert !NamedDict(a[i]); }
    assert !(forall k :: 0 <= k < |a| ==> a[k].Str?) by { assert !a[j].Str?; }
  }

  /** The text of such a mixed list reads back as those texts when none contains ", ". */
  lemma MixedArtistsShown(a: seq<Value>, i: nat, j: nat)
    requires i < |a| && j < |a| && !NamedDict(a[i]) && !a[j].Str?
    requires forall k :: 0 <= k < |a| ==> !Contains(PyStr(a[k]), Separator)
    ensures GetArtists(Array(a)) == Str(Join(PyTexts(a), Separator))
    ensures SplitNames(GetArtists(Array(a)).s) == PyTexts(a)
  {
    MixedArtistsJoined(a, i, j);
    JoinSplit(PyTexts(a));
  }

  /** A list of named dictionaries with a name that is not a string shows the clipped raw data. */
  lemma UnjoinableShown(a: seq<Value>, i: nat)
    requires forall k :: 0 <= k < |a| ==> NamedDict(a[k])
    requires i < |a| && !NameOf(a[i]).Str?
    ensures var r := GetArtists(Array(a));
      && r == Str("Error parsing: " + Clip(PyStr(Array(a)), 50) + "...")
      && |r.s| <= 15 + 50 + 3
  {
  }

  /** `obj.artists` falsy: None, or an empty list, string or dictionary. */
  lemma UnknownArtist(artists: Value)
    requires artists.Null? || artists == Array([]) || artists == Str("") || artists == Object([])
    ensures GetArtists(artists) == Str("Unknown Artist")
  {
  }

  const CsvHeader: seq<string> := ["User", "Song Name", "Artists", "Kept", "Spotify URL"]

  /** What `csv.writer` writes for a cell: nothing for None, `str()` of anything else. */
  function CsvCell(v: Value): (r: string)
    ensures v.Null? ==> r == ""
    ensures v.Str? ==> r == v.s
  {
    if v.Null? then "" else PyStr(v)
  }

  /** A data row of `export_as_csv`, column by column under `CsvHeader`. */
  function CsvRow(username: string, s: KeptSong): (row: seq<string>)
    ensures |row| == |CsvHeader|
    ensures row[0] == username && row[1] == s.name
    ensures row[2] == CsvCell(GetArtists(s.artists))
    ensures row[3] in {"Yes", "No"} && (row[3] == "Yes" <==> s.kept)
    ensures row[4] == s.spotifyUrl.GetOr("")
    ensures row[4] == "" <==> s.spotifyUrl.None? || s.spotifyUrl == Some("")
  {
    [username, s.name, CsvCell(GetArtists(s.artists)), if s.kept then "Yes" else "No", s.spotifyUrl.GetOr("")]
  }

  /** `export_as_csv`: the header, then one row per selected record, in the order given. */
  function CsvExport(selected: seq<(string, KeptSong)>): (rows: seq<seq<string>>)
    ensures |rows| == |selected| + 1 && rows[0] == CsvHeader
    ensures forall i :: 0 <= i < |selected| ==> rows[i + 1] == CsvRow(selected[i].0, selected[i].1)
  {
    [CsvHeader] + seq(|selected|, i requires 0 <= i < |selected| => CsvRow(selected[i].0, selected[i].1))
  }
}
