/**
 * Counting names into an insertion-ordered dictionary and ranking the
 * entries, as `_parse_playlist_artists` (accounts/spotify.py) and
 * `api_playlist_geo` (maps/views.py) do: `d[name] = d.get(name, 0) + 1` in a
 * loop, then `sorted(d.items(), key=count, reverse=True)[:k]`.
 *
 * A dictionary is a sequence of (name, count) pairs in insertion order.
 * Python's `sorted` is stable, also with `reverse=True`: entries with equal
 * counts keep their dictionary order.
 */
module Ranking {
  type Entry = (string, nat)

  /** How often `x` occurs in `s`. */
  function CountOf(s: seq<string>, x: string): (n: nat)
    ensures n <= |s|
    ensures n == 0 <==> x !in s
  {
    if s == [] then 0 else (if s[|s| - 1] == x then 1 else 0) + CountOf(s[..|s| - 1], x)
  }

  function Names(t: seq<Entry>): (r: seq<string>)
    ensures |r| == |t|
    ensures forall i :: 0 <= i < |t| ==> r[i] == t[i].0
  {
    seq(|t|, i requires 0 <= i < |t| => t[i].0)
  }

  /** At most one entry per name, as in a dictionary. */
  predicate DistinctNames(t: seq<Entry>)
  {
    forall i, j :: 0 <= i < j < |t| ==> t[i].0 != t[j].0
  }

  /** `d.get(x, 0)` */
  function Lookup(t: seq<Entry>, x: string): nat
  {
    if t == [] then 0 else if t[0].0 == x then t[0].1 else Lookup(t[1..], x)
  }

  /** `d[x] = d.get(x, 0) + 1`: an existing entry is incremented in place, a new one appended. */
  function Bump(t: seq<Entry>, x: string): (r: seq<Entry>)
    ensures x in Names(t) ==> |r| == |t| && Names(r) == Names(t)
    ensures x !in Names(t) ==> r == t + [(x, 1)]
  {
    if t == [] then [(x, 1)]
    else if t[0].0 == x then [(x, t[0].1 + 1)] + t[1..]
    else
      var rest := Bump(t[1..], x);
      assert Names(t[1..]) == Names(t)[1..];
      [t[0]] + rest
  }

  /** The dictionary after counting `s` on top of `t`, one name at a time. */
  function TallyOnto(t: seq<Entry>, s: seq<string>): seq<Entry>
  {
    if s == [] then t else Bump(TallyOnto(t, s[..|s| - 1]), s[|s| - 1])
  }

  function Tally(s: seq<string>): seq<Entry>
  {
    TallyOnto([], s)
  }

  lemma {:induction false} LookupBump(t: seq<Entry>, x: string, y: string)
    ensures Lookup(Bump(t, x), y) == Lookup(t, y) + (if x == y then 1 else 0)
  {
    if t != [] && t[0].0 != x {
      LookupBump(t[1..], x, y);
      assert Bump(t, x)[1..] == Bump(t[1..], x);
    } else if t != [] {
      assert Bump(t, x)[1..] == t[1..];
    }
  }

  lemma {:induction false} BumpDistinct(t: seq<Entry>, x: string)
    requires DistinctNames(t)
    ensures DistinctNames(Bump(t, x))
  {
    var r := Bump(t, x);
    assert forall i :: 0 <= i < |r| ==> r[i].0 == Names(r)[i];
    assert forall i :: 0 <= i < |t| ==> t[i].0 == Names(t)[i];
    if x !in Names(t) {
      assert forall i :: 0 <= i < |t| ==> t[i].0 != x;
    }
  }

  lemma {:induction false} TallyOntoAppend(t: seq<Entry>, a: seq<string>, b: seq<string>)
    ensures TallyOnto(t, a + b) == TallyOnto(TallyOnto(t, a), b)
    decreases |b|
  {
    if b == [] {
      assert a + b == a;
    } else {
      assert (a + b)[..|a + b| - 1] == a + b[..|b| - 1];
      assert (a + b)[|a + b| - 1] == b[|b| - 1];
      TallyOntoAppend(t, a, b[..|b| - 1]);
    }
  }

  /** The dictionary holds each name of `s` once, with its number of occurrences. */
  lemma {:induction false} TallyCounts(s: seq<string>)
    ensures DistinctNames(Tally(s))
    ensures forall x :: Lookup(Tally(s), x) == CountOf(s, x)
    ensures forall x :: x in Names(Tally(s)) <==> x in s
    decreases |s|
  {
    if s != [] {
      var p, x := s[..|s| - 1], s[|s| - 1];
      assert s == p + [x];
      TallyCounts(p);
      var t := Tally(p);
      forall y ensures Lookup(Bump(t, x), y) == CountOf(s, y) {
        LookupBump(t, x, y);
      }
      BumpDistinct(t, x);
      forall y ensures y in Names(Bump(t, x)) <==> y in s {
        if x in Names(t) {
          assert Names(Bump(t, x)) == Names(t);
        } else {
          assert Names(Bump(t, x)) == Names(t) + [x];
        }
      }
    }
  }

  /** First position of `x` in `s`. */
  function FirstIndex(s: seq<string>, x: string): (i: nat)
    requires x in s
    ensures i < |s| && s[i] == x && x !in s[..i]
  {
    if s[0] == x then 0
    else
      var j := FirstIndex(s[1..], x);
      assert s[1..][..j] == s[1..j + 1];
      1 + j
  }

  /** Names enter the dictionary in order of first appearance in `s`. */
  lemma {:induction false} TallyFirstSeenOrder(s: seq<string>, i: nat, j: nat)
    requires i < j < |Tally(s)|
    ensures Tally(s)[i].0 in s && Tally(s)[j].0 in s
    ensures FirstIndex(s, Tally(s)[i].0) < FirstIndex(s, Tally(s)[j].0)
    decreases |s|
  {
    var p, x := s[..|s| - 1], s[|s| - 1];
    assert s == p + [x];
    var tp := Tally(p);
    assert Tally(s) == Bump(tp, x);
    BumpKeepsName(tp, x, i);
    if j < |tp| {
      BumpKeepsName(tp, x, j);
      TallyFirstSeenOrder(p, i, j);
      FirstIndexPrefix(p, x, tp[i].0);
      FirstIndexPrefix(p, x, tp[j].0);
    } else {
      BumpAddsName(tp, x, j);
      TallyCounts(p);
      assert tp[i].0 in Names(tp);
      FirstIndexPrefix(p, x, tp[i].0);
      assert s[..|p|] == p;
      FirstIndexIs(s, x, |p|);
    }
  }

  /** Counting a name leaves the names already listed in place. */
  lemma BumpKeepsName(t: seq<Entry>, x: string, i: nat)
    requires i < |t|
    ensures i < |Bump(t, x)| && Bump(t, x)[i].0 == t[i].0
  {
    assert Names(t)[i] == t[i].0;
    if x in Names(t) {
      assert Names(Bump(t, x))[i] == Names(t)[i];
    }
  }

  /** An entry past the old ones is the name just counted, seen for the first time. */
  lemma BumpAddsName(t: seq<Entry>, x: string, j: nat)
    requires |t| <= j < |Bump(t, x)|
    ensures x !in Names(t) && j == |t| && Bump(t, x)[j].0 == x
  {
  }

  lemma {:induction false} FirstIndexIs(s: seq<string>, x: string, i: nat)
    requires i < |s| && s[i] == x && x !in s[..i]
    ensures FirstIndex(s, x) == i
  {
    if i > 0 {
      assert s[..i][0] == s[0];
      assert s[1..][i - 1] == x;
      assert s[1..][..i - 1] == s[..i][1..];
      FirstIndexIs(s[1..], x, i - 1);
    }
  }

  lemma FirstIndexPrefix(p: seq<string>, x: string, y: string)
    requires y in p
    ensures y in p + [x] && FirstIndex(p + [x], y) == FirstIndex(p, y)
  {
    var k := FirstIndex(p, y);
    assert (p + [x])[k] == y;
    assert (p + [x])[..k] == p[..k];
    FirstIndexIs(p + [x], y, k);
  }

  // ---------------------------------------------------------------------
  // Stable sort by descending count.

  /** Places `e` before the first entry whose count is not larger than its own. */
  function Insert(e: Entry, t: seq<Entry>): (r: seq<Entry>)
    ensures multiset(r) == multiset(t) + multiset{e}
  {
    if t == [] || t[0].1 <= e.1 then [e] + t
    else
      assert t == [t[0]] + t[1..];
      [t[0]] + Insert(e, t[1..])
  }

  /** `sorted(t, key=lambda kv: kv[1], reverse=True)` */
  function SortByCountDesc(t: seq<Entry>): (r: seq<Entry>)
    ensures multiset(r) == multiset(t)
    ensures |r| == |t|
  {
    if t == [] then []
    else
      assert t == [t[0]] + t[1..];
      Insert(t[0], SortByCountDesc(t[1..]))
  }

  predicate NonIncreasing(t: seq<Entry>)
  {
    forall i, j :: 0 <= i < j < |t| ==> t[i].1 >= t[j].1
  }

  /** The entries with count `c`, in order. */
  function WithCount(t: seq<Entry>, c: nat): seq<Entry>
  {
    if t == [] then [] else (if t[0].1 == c then [t[0]] else []) + WithCount(t[1..], c)
  }

  predicate AllAtMost(t: seq<Entry>, b: nat)
  {
    forall k :: 0 <= k < |t| ==> t[k].1 <= b
  }

  lemma {:induction false} InsertAtMost(e: Entry, t: seq<Entry>, b: nat)
    requires AllAtMost(t, b) && e.1 <= b
    ensures AllAtMost(Insert(e, t), b)
  {
    if t != [] && t[0].1 > e.1 {
      InsertAtMost(e, t[1..], b);
    }
  }

  lemma {:induction false} InsertNonIncreasing(e: Entry, t: seq<Entry>)
    requires NonIncreasing(t)
    ensures NonIncreasing(Insert(e, t))
  {
    if t != [] && t[0].1 > e.1 {
      InsertNonIncreasing(e, t[1..]);
      InsertAtMost(e, t[1..], t[0].1);
      var r := Insert(e, t[1..]);
      assert Insert(e, t) == [t[0]] + r;
    }
  }

  lemma {:induction false} SortNonIncreasing(t: seq<Entry>)
    ensures NonIncreasing(SortByCountDesc(t))
  {
    if t != [] {
      SortNonIncreasing(t[1..]);
      InsertNonIncreasing(t[0], SortByCountDesc(t[1..]));
    }
  }

  lemma {:induction false} WithCountInsert(e: Entry, t: seq<Entry>, c: nat)
    ensures WithCount(Insert(e, t), c) == (if e.1 == c then [e] else []) + WithCount(t, c)
  {
    if t == [] || t[0].1 <= e.1 {
      assert ([e] + t)[1..] == t;
    } else {
      var r := [t[0]] + Insert(e, t[1..]);
      assert r[1..] == Insert(e, t[1..]);
      WithCountInsert(e, t[1..], c);
    }
  }

  /** Stability: for every count, the entries with that count keep their relative order. */
  lemma {:induction false} SortStable(t: seq<Entry>, c: nat)
    ensures WithCount(SortByCountDesc(t), c) == WithCount(t, c)
  {
    if t != [] {
      SortStable(t[1..], c);
      WithCountInsert(t[0], SortByCountDesc(t[1..]), c);
    }
  }

  /** `lst[:k]` */
  function Take(t: seq<Entry>, k: nat): (r: seq<Entry>)
    ensures |r| == if |t| < k then |t| else k
    ensures r == t[..|r|]
  {
    if |t| <= k then t else t[..k]
  }

  /** `sorted(d.items(), key=count, reverse=True)[:k]` */
  function TopK(t: seq<Entry>, k: nat): seq<Entry>
  {
    Take(SortByCountDesc(t), k)
  }

  lemma {:induction false} WithCountPrefix(t: seq<Entry>, n: nat, c: nat)
    requires n <= |t|
    ensures WithCount(t[..n], c) <= WithCount(t, c)
  {
    if n > 0 {
      assert t[..n][1..] == t[1..][..n - 1];
      WithCountPrefix(t[1..], n - 1, c);
    }
  }

  /** An element of `s` missing from the prefix `s[..n]` sits at or after `n`. */
  lemma DroppedIndex(s: seq<Entry>, n: nat, e: Entry) returns (j: nat)
    requires n <= |s| && e in s && e !in s[..n]
    ensures n <= j < |s| && s[j] == e
  {
    assert s == s[..n] + s[n..];
    assert e in s[n..];
    var d :| 0 <= d < |s[n..]| && s[n..][d] == e;
    j := n + d;
  }

  /**
   * The top-k list: at most k entries from the dictionary, by non-increasing
   * count; no entry left out has a larger count than one kept; and among
   * equal counts, the kept entries are the first ones of the dictionary.
   */
  lemma TopKProperties(t: seq<Entry>, k: nat)
    ensures |TopK(t, k)| <= k && |TopK(t, k)| <= |t|
    ensures NonIncreasing(TopK(t, k))
    ensures forall e :: e in TopK(t, k) ==> e in t
    ensures forall e, i :: e in t && e !in TopK(t, k) && 0 <= i < |TopK(t, k)| ==> e.1 <= TopK(t, k)[i].1
    ensures forall c: nat :: WithCount(TopK(t, k), c) <= WithCount(t, c)
  {
    var s := SortByCountDesc(t);
    var r := TopK(t, k);
    SortNonIncreasing(t);
    assert r == s[..|r|];
    forall e | e in r ensures e in t {
      assert e in multiset(s);
    }
    forall e, i | e in t && e !in r && 0 <= i < |r| ensures e.1 <= r[i].1 {
      assert e in multiset(s);
      var j := DroppedIndex(s, |r|, e);
      assert r[i] == s[i];
    }
    forall c: nat ensures WithCount(r, c) <= WithCount(t, c) {
      WithCountPrefix(s, |r|, c);
      SortStable(t, c);
    }
  }

  /** Distinct names stay distinct through sorting and truncation. */
  lemma TopKDistinct(t: seq<Entry>, k: nat)
    requires DistinctNames(t)
    ensures DistinctNames(TopK(t, k))
  {
    var s := SortByCountDesc(t);
    var r := TopK(t, k);
    assert r == s[..|r|];
    forall i, j | 0 <= i < j < |r| ensures r[i].0 != r[j].0 {
      if r[i].0 == r[j].0 {
        assert r[i] in multiset(t) && r[j] in multiset(t);
        var a := SameNameSameEntry(t, r[i], r[j]);
        TwiceCounted(s, i, j);
        MultisetAtMostOnce(t, a);
      }
    }
  }

  /** In a list of distinct names, two entries with the same name are one entry. */
  lemma SameNameSameEntry(t: seq<Entry>, x: Entry, y: Entry) returns (a: nat)
    requires DistinctNames(t) && x in t && y in t && x.0 == y.0
    ensures a < |t| && t[a] == x && x == y
  {
    a :| 0 <= a < |t| && t[a] == x;
    var b :| 0 <= b < |t| && t[b] == y;
  }

  lemma TwiceCounted(s: seq<Entry>, i: nat, j: nat)
    requires i < j < |s| && s[i] == s[j]
    ensures multiset(s)[s[i]] >= 2
  {
    assert s == s[..i] + [s[i]] + s[i + 1..j] + [s[j]] + s[j + 1..];
  }

  lemma MultisetAtMostOnce(t: seq<Entry>, a: nat)
    requires DistinctNames(t) && a < |t|
    ensures multiset(t)[t[a]] == 1
  {
    assert t == t[..a] + [t[a]] + t[a + 1..];
    assert t[a] !in t[..a] && t[a] !in t[a + 1..];
    assert t[a] !in multiset(t[..a]) && t[a] !in multiset(t[a + 1..]);
  }

  lemma LookupOfMember(t: seq<Entry>, i: nat)
    requires DistinctNames(t) && i < |t|
    ensures Lookup(t, t[i].0) == t[i].1
  {
    if i > 0 {
      assert DistinctNames(t[1..]);
      assert t[1..][i - 1] == t[i];
      LookupOfMember(t[1..], i - 1);
    }
  }

  lemma NotListed(r: seq<Entry>, e: Entry)
    requires e.0 !in Names(r)
    ensures e !in r
  {
    forall k | 0 <= k < |r| ensures r[k] != e {
      assert Names(r)[k] == r[k].0;
    }
  }

  /**
   * The `k` leading entries of a tally, as `sorted(counts.items(), key=count,
   * reverse=True)[:k]` keeps them: at most `k` distinct names by
   * non-increasing count, each with its exact count; no name left out occurs
   * more often than one kept; ties in order of first occurrence.
   */
  lemma TopTallyProperties(s: seq<string>, k: nat)
    ensures |TopK(Tally(s), k)| <= k
    ensures NonIncreasing(TopK(Tally(s), k))
    ensures DistinctNames(TopK(Tally(s), k))
    ensures forall e :: e in TopK(Tally(s), k) ==> e.0 in s && e.1 == CountOf(s, e.0)
    ensures forall x, i :: x in s && x !in Names(TopK(Tally(s), k)) && 0 <= i < |TopK(Tally(s), k)|
              ==> CountOf(s, x) <= TopK(Tally(s), k)[i].1
    ensures forall c: nat :: WithCount(TopK(Tally(s), k), c) <= WithCount(Tally(s), c)
  {
    var t := Tally(s);
    var r := TopK(t, k);
    TallyCounts(s);
    TopKProperties(t, k);
    TopKDistinct(t, k);
    forall e | e in r ensures e.0 in s && e.1 == CountOf(s, e.0) {
      var i :| 0 <= i < |t| && t[i] == e;
      assert e.0 in Names(t);
      LookupOfMember(t, i);
    }
    forall x, i | x in s && x !in Names(r) && 0 <= i < |r| ensures CountOf(s, x) <= r[i].1 {
      assert x in Names(t);
      var j :| 0 <= j < |t| && Names(t)[j] == x;
      LookupOfMember(t, j);
      NotListed(r, t[j]);
    }
  }
}
