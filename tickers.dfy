/** Ticker symbols and the `ORDER BY ticker` both ledgers list holdings in. */
module Tickers {

  /** `a` sorts strictly before `b`: lexicographic order on character codes,
      a proper prefix first (DuckDB's default binary collation on VARCHAR). */
  predicate Below(a: string, b: string)
    ensures |a| < |b| && a == b[..|a|] ==> Below(a, b)
  {
    if |b| == 0 then false
    else if |a| == 0 then true
    else if a[0] != b[0] then a[0] < b[0]
    else
      assert |a| < |b| && a == b[..|a|] ==> a[1..] == b[1..][..|a| - 1];
      Below(a[1..], b[1..])
  }

  lemma {:induction false} BelowIrreflexive(a: string)
    ensures !Below(a, a)
  {
    if |a| > 0 {
      BelowIrreflexive(a[1..]);
    }
  }

  lemma {:induction false} BelowTransitive(a: string, b: string, c: string)
    requires Below(a, b) && Below(b, c)
    ensures Below(a, c)
  {
    if |a| > 0 && a[0] == b[0] && b[0] == c[0] {
      BelowTransitive(a[1..], b[1..], c[1..]);
    }
  }

  /** Any two different tickers are ordered one way or the other. */
  lemma {:induction false} BelowTotal(a: string, b: string)
    requires a != b
    ensures Below(a, b) || Below(b, a)
  {
    if |a| > 0 && |b| > 0 && a[0] == b[0] {
      assert a == [a[0]] + a[1..] && b == [b[0]] + b[1..];
      BelowTotal(a[1..], b[1..]);
    }
  }

  lemma BelowAsymmetric(a: string, b: string)
    requires Below(a, b)
    ensures !Below(b, a)
  {
    if Below(b, a) {
      BelowTransitive(a, b, a);
      BelowIrreflexive(a);
    }
  }

  /** Strictly ascending, hence each ticker at most once. */
  ghost predicate Ascending(s: seq<string>) {
    forall i, j :: 0 <= i < j < |s| ==> Below(s[i], s[j])
  }

  /** An ascending listing names each ticker at most once, so it is no
      longer than any set holding all its tickers. */
  lemma {:induction false} AscendingAtMost(s: seq<string>, t: set<string>)
    requires Ascending(s)
    requires forall i :: 0 <= i < |s| ==> s[i] in t
    ensures |s| <= |t|
  {
    if s != [] {
      BelowIrreflexive(s[0]);
      var rest := s[1..];
      forall i | 0 <= i < |rest|
        ensures rest[i] in t - {s[0]}
      {
        assert Below(s[0], s[i + 1]);
      }
      AscendingAtMost(rest, t - {s[0]});
    }
  }

  /** An ascending listing of exactly two tickers a < b is [a, b]. */
  lemma TwoInOrder(s: seq<string>, a: string, b: string)
    requires Ascending(s) && Below(a, b)
    requires forall x :: x in s <==> x == a || x == b
    ensures s == [a, b]
  {
    BelowAsymmetric(a, b);
    BelowIrreflexive(a);
    assert forall i :: 0 <= i < |s| ==> s[i] in s;
    AscendingAtMost(s, {a, b});
    assert a in s && b in s;
    assert s[0] in s && s[1] in s;
    assert Below(s[0], s[1]);
  }

  /** The first ticker of a non-empty set in ascending order. */
  method Least(s: set<string>) returns (m: string)
    requires s != {}
    ensures m in s
    ensures forall x :: x in s && x != m ==> Below(m, x)
  {
    m :| m in s;
    var rest := s - {m};
    while rest != {}
      invariant m in s && m !in rest && rest <= s
      invariant forall x :: x in s - rest && x != m ==> Below(m, x)
      decreases rest
    {
      var x :| x in rest;
      if Below(x, m) {
        forall y | y in s - rest && y != m
          ensures Below(x, y)
        {
          BelowTransitive(x, m, y);
        }
        m := x;
      } else {
        BelowTotal(m, x);
      }
      rest := rest - {x};
    }
  }

  /** The tickers of `s` in ascending order, each once. */
  method SortAscending(s: set<string>) returns (r: seq<string>)
    ensures Ascending(r)
    ensures forall x :: x in r <==> x in s
    ensures |r| == |s|
  {
    r := [];
    var rest := s;
    while rest != {}
      invariant rest <= s
      invariant forall x :: x in r <==> x in s - rest
      invariant Ascending(r)
      invariant forall i, x :: 0 <= i < |r| && x in rest ==> Below(r[i], x)
      invariant |r| + |rest| == |s|
      decreases rest
    {
      var m := Least(rest);
      r := r + [m];
      rest := rest - {m};
    }
  }
}
