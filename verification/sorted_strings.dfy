/**
 * `sorted()` over a set of strings, as `api_playlist_geo` (maps/views.py)
 * does for the market codes. Python orders strings lexicographically by
 * code point.
 */
module SortedStrings {
  /** `a < b` on Python strings. */
  predicate Below(a: string, b: string)
  {
    if a == [] then b != []
    else if b == [] then false
    else a[0] < b[0] || (a[0] == b[0] && Below(a[1..], b[1..]))
  }

  lemma {:induction false} BelowIrreflexive(a: string)
    ensures !Below(a, a)
  {
    if a != [] { BelowIrreflexive(a[1..]); }
  }

  lemma {:induction false} BelowTransitive(a: string, b: string, c: string)
    requires Below(a, b) && Below(b, c)
    ensures Below(a, c)
  {
    if a != [] && a[0] == b[0] && b[0] == c[0] {
      BelowTransitive(a[1..], b[1..], c[1..]);
    }
  }

  lemma {:induction false} BelowTotal(a: string, b: string)
    ensures a == b || Below(a, b) || Below(b, a)
  {
    if a != [] && b != [] && a[0] == b[0] {
      BelowTotal(a[1..], b[1..]);
      if a[1..] == b[1..] {
        assert a == [a[0]] + a[1..] && b == [b[0]] + b[1..];
      }
    }
  }

  lemma BelowStrictOrder()
    ensures forall a :: !Below(a, a)
    ensures forall a, b, c :: Below(a, b) && Below(b, c) ==> Below(a, c)
    ensures forall a, b :: a == b || Below(a, b) || Below(b, a)
  {
    forall a ensures !Below(a, a) { BelowIrreflexive(a); }
    forall a, b, c | Below(a, b) && Below(b, c) ensures Below(a, c) { BelowTransitive(a, b, c); }
    forall a, b ensures a == b || Below(a, b) || Below(b, a) { BelowTotal(a, b); }
  }

  predicate IsLeast(m: string, s: set<string>)
  {
    m in s && forall y :: y in s && y != m ==> Below(m, y)
  }

  lemma {:induction false} LeastExists(s: set<string>)
    requires s != {}
    ensures exists m :: IsLeast(m, s)
    decreases |s|
  {
    var x :| x in s;
    if s - {x} == {} {
      assert s == {x};
      assert IsLeast(x, s);
    } else {
      LeastExists(s - {x});
      var m :| IsLeast(m, s - {x});
      BelowTotal(x, m);
      if Below(x, m) {
        forall y | y in s && y != x ensures Below(x, y) {
          if y != m { BelowTransitive(x, m, y); }
        }
        assert IsLeast(x, s);
      } else {
        assert IsLeast(m, s);
      }
    }
  }

  /** The least string of a non-empty set. */
  function Least(s: set<string>): (m: string)
    requires s != {}
    ensures IsLeast(m, s)
  {
    LeastExists(s);
    BelowStrictOrder();
    var m :| IsLeast(m, s);
    m
  }

  predicate StrictlySorted(r: seq<string>)
  {
    forall i, j :: 0 <= i < j < |r| ==> Below(r[i], r[j])
  }

  /** `sorted(s)`: the elements of `s`, each once, in increasing order. */
  function Sorted(s: set<string>): (r: seq<string>)
    ensures StrictlySorted(r)
    ensures forall x :: x in r <==> x in s
    ensures |r| == |s|
    decreases |s|
  {
    if s == {} then []
    else
      var m := Least(s);
      var rest := Sorted(s - {m});
      assert forall k :: 0 <= k < |rest| ==> rest[k] in s - {m};
      [m] + rest
  }
}
