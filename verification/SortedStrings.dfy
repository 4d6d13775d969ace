/** The listing `sorted(names)` of a set of strings: code-point order, each name once. */
module SortedStrings {

  /** `s < t` in Python's order on strings. */
  predicate Less(s: string, t: string) {
    t != "" && (s == "" || s[0] < t[0] || (s[0] == t[0] && Less(s[1..], t[1..])))
  }

  /** `t` goes on where `s` ends, or has the higher character where they first differ. */
  predicate FirstDifference(s: string, t: string, n: int) {
    && 0 <= n <= |s| && n < |t| && s[..n] == t[..n]
    && (n < |s| ==> s[n] < t[n])
  }

  lemma LaterDifference(s: string, t: string)
    ensures forall n | FirstDifference(s, t, n) && n > 0 :: s != [] && t != [] && s[0] == t[0]
  {
    forall n | FirstDifference(s, t, n) && n > 0 ensures s != [] && t != [] && s[0] == t[0] {
      assert s[..n][0] == t[..n][0];
    }
  }

  lemma {:induction false} LessIff(s: string, t: string)
    ensures Less(s, t) <==> exists n :: FirstDifference(s, t, n)
    decreases |s|
  {
    if s == [] || t == [] || s[0] != t[0] {
      assert t != [] && (s == [] || s[0] < t[0]) ==> FirstDifference(s, t, 0);
      LaterDifference(s, t);
    } else {
      LessIff(s[1..], t[1..]);
      if n :| FirstDifference(s[1..], t[1..], n) {
        assert s[..n + 1] == [s[0]] + s[1..][..n] && t[..n + 1] == [t[0]] + t[1..][..n];
        assert FirstDifference(s, t, n + 1);
      }
      if n :| FirstDifference(s, t, n) {
        assert n > 0;
        assert s[1..][..n - 1] == s[..n][1..] && t[1..][..n - 1] == t[..n][1..];
        assert FirstDifference(s[1..], t[1..], n - 1);
      }
    }
  }

  ghost predicate SortedListing(q: seq<string>, names: set<string>) {
    && (forall i, j | 0 <= i < j < |q| :: Less(q[i], q[j]))
    && (forall s :: s in q <==> s in names)
  }

  lemma LessTrichotomy(s: string, t: string)
    ensures Less(s, t) || s == t || Less(t, s)
    ensures !(Less(s, t) && Less(t, s)) && !Less(s, s)
  {
  }

  lemma LessTransitive(s: string, t: string, u: string)
    requires Less(s, t) && Less(t, u)
    ensures Less(s, u)
  {
  }

  predicate IsLeast(s: string, names: set<string>) {
    s in names && forall t | t in names && t != s :: Less(s, t)
  }

  lemma LeastExists(names: set<string>)
    requires names != {}
    ensures exists s :: IsLeast(s, names)
  {
    var x :| x in names;
    var rest := names - {x};
    if rest == {} {
      assert names == {x};
      assert IsLeast(x, names);
    } else {
      LeastExists(rest);
      var y :| IsLeast(y, rest);
      LessTrichotomy(x, y);
      if Less(x, y) {
        forall t | t in names && t != x ensures Less(x, t) {
          if t != y { LessTransitive(x, y, t); }
        }
        assert IsLeast(x, names);
      } else {
        assert IsLeast(y, names);
      }
    }
  }

  function Sorted(names: set<string>): (q: seq<string>)
    ensures SortedListing(q, names)
    decreases |names|
  {
    if names == {} then []
    else
      LeastExists(names);
      LeastUnique(names);
      var s :| IsLeast(s, names);
      var rest := Sorted(names - {s});
      assert forall i | 0 <= i < |rest| :: rest[i] in rest;
      [s] + rest
  }

  lemma LeastUnique(names: set<string>)
    ensures forall s, t | IsLeast(s, names) && IsLeast(t, names) :: s == t
  {
    forall s, t | IsLeast(s, names) && IsLeast(t, names) ensures s == t {
      LessTrichotomy(s, t);
    }
  }

  /** A set has one sorted listing. */
  lemma {:induction false} SortedListingUnique(p: seq<string>, q: seq<string>, names: set<string>)
    requires SortedListing(p, names) && SortedListing(q, names)
    ensures p == q
    decreases |p|
  {
    if q != [] { assert q[0] in names; }
    if p != [] { assert p[0] in names; }
    if p != [] {
      assert IsLeast(p[0], names) && IsLeast(q[0], names);
      LeastUnique(names);
      forall i | 0 < i < |p| ensures p[i] != p[0] { LessTrichotomy(p[i], p[0]); }
      forall i | 0 < i < |q| ensures q[i] != q[0] { LessTrichotomy(q[i], q[0]); }
      SortedListingUnique(p[1..], q[1..], names - {p[0]});
      assert p == [p[0]] + p[1..] && q == [q[0]] + q[1..];
    }
  }
}
