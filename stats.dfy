/** The arithmetic the aggregators share: ascending sort, median (the
    middle element, or the average of the two middle elements), mean, and
    the smallest and largest element of a list of prices. */
module Stats {
  import opened Basics

  function Abs(x: real): (r: real)
    ensures r >= 0.0 && (r == x || r == -x)
  {
    if x < 0.0 then -x else x
  }

  predicate Sorted(s: seq<real>) {
    forall i, j :: 0 <= i < j < |s| ==> s[i] <= s[j]
  }

  /** Inserts `x` into a sorted list. */
  function Insert(x: real, s: seq<real>): (r: seq<real>)
    requires Sorted(s)
    ensures Sorted(r)
    ensures multiset(r) == multiset(s) + multiset{x}
    ensures r[0] == x || (s != [] && r[0] == s[0])
  {
    if s == [] then [x]
    else if x <= s[0] then
      SortedCons(x, s);
      [x] + s
    else
      SortedTail(s);
      var rest := Insert(x, s[1..]);
      assert s == [s[0]] + s[1..];
      assert s[0] <= rest[0];
      SortedCons(s[0], rest);
      [s[0]] + rest
  }

  lemma SortedTail(s: seq<real>)
    requires Sorted(s) && s != []
    ensures Sorted(s[1..])
  {
    forall i, j | 0 <= i < j < |s| - 1 ensures s[1..][i] <= s[1..][j] {
      assert s[1..][i] == s[i + 1] && s[1..][j] == s[j + 1];
    }
  }

  lemma SortedCons(a: real, t: seq<real>)
    requires Sorted(t) && (t == [] || a <= t[0])
    ensures Sorted([a] + t)
  {
    var r := [a] + t;
    forall i, j | 0 <= i < j < |r| ensures r[i] <= r[j] {
      assert r[j] == t[j - 1];
      if i > 0 {
        assert r[i] == t[i - 1];
      } else {
        assert t[0] <= t[j - 1];
      }
    }
  }

  /** `[...values].sort((a, b) => a - b)`: an ascending copy. */
  function SortAscending(s: seq<real>): (r: seq<real>)
    ensures Sorted(r)
    ensures multiset(r) == multiset(s)
  {
    if s == [] then []
    else
      assert s == [s[0]] + s[1..];
      Insert(s[0], SortAscending(s[1..]))
  }

  /** Two sorted lists holding the same values are the same list. */
  lemma {:induction false} SortedUnique(a: seq<real>, b: seq<real>)
    requires Sorted(a) && Sorted(b)
    requires multiset(a) == multiset(b)
    ensures a == b
  {
    assert |a| == |b| by {
      assert |a| == |multiset(a)| == |multiset(b)| == |b|;
    }
    if a != [] {
      assert a[0] == b[0] by {
        assert a[0] in multiset(b) && b[0] in multiset(a);
        SortedHeadIsMin(a, b[0]);
        SortedHeadIsMin(b, a[0]);
      }
      assert multiset(a[1..]) == multiset(b[1..]) by {
        assert a == [a[0]] + a[1..] && b == [b[0]] + b[1..];
        assert multiset(a[1..]) == multiset(a) - multiset{a[0]};
        assert multiset(b[1..]) == multiset(b) - multiset{b[0]};
      }
      SortedTail(a);
      SortedTail(b);
      SortedUnique(a[1..], b[1..]);
      assert a == [a[0]] + a[1..] && b == [b[0]] + b[1..];
    }
  }

  lemma SortedHeadIsMin(s: seq<real>, v: real)
    requires Sorted(s) && v in s
    ensures s[0] <= v
  {
    var i :| 0 <= i < |s| && s[i] == v;
  }

  /** Median of a list of prices: `None` for the empty list, otherwise the
      middle of the ascending copy for an odd count and the mean of the two
      middle values for an even count. */
  function Median(s: seq<real>): (r: Option<real>)
    ensures r.None? <==> s == []
  {
    if s == [] then None
    else
      SortedLength(s);
      MiddleOf(SortAscending(s))
  }

  /** The middle of a non-empty ascending list. */
  function MiddleOf(t: seq<real>): (r: Option<real>)
    requires t != []
    ensures r.Some?
  {
    var mid := |t| / 2;
    if |t| % 2 == 1 then Some(t[mid]) else Some((t[mid - 1] + t[mid]) / 2.0)
  }

  /** The ascending copy has the input's length and only its values. */
  lemma SortedLength(s: seq<real>)
    ensures |SortAscending(s)| == |s|
    ensures forall i :: 0 <= i < |s| ==> SortAscending(s)[i] in s
  {
    var t := SortAscending(s);
    assert |t| == |multiset(t)| == |multiset(s)| == |s|;
    forall i | 0 <= i < |s| ensures t[i] in s {
      assert t[i] in multiset(t);
    }
  }

  /** Smallest element. */
  function Min(s: seq<real>): (m: real)
    requires s != []
    ensures m in s
    ensures forall x :: x in s ==> m <= x
  {
    if |s| == 1 then s[0]
    else
      var rest := Min(s[1..]);
      assert s == [s[0]] + s[1..];
      if s[0] <= rest then s[0] else rest
  }

  /** Largest element. */
  function Max(s: seq<real>): (m: real)
    requires s != []
    ensures m in s
    ensures forall x :: x in s ==> x <= m
  {
    if |s| == 1 then s[0]
    else
      var rest := Max(s[1..]);
      assert s == [s[0]] + s[1..];
      if s[0] >= rest then s[0] else rest
  }

  /** The median of a non-empty list lies between its least and greatest element. */
  lemma MedianWithinRange(s: seq<real>)
    requires s != []
    ensures Median(s).Some?
    ensures Min(s) <= Median(s).value <= Max(s)
  {
    var t := SortAscending(s);
    SortedLength(s);
    var mid := |t| / 2;
    assert t[mid] in s;
    if |t| % 2 == 0 {
      assert t[mid - 1] in s;
    }
    assert Median(s) == MiddleOf(t);
  }

  /** The median does not depend on the order of the list. */
  lemma MedianPermutationInvariant(s: seq<real>, u: seq<real>)
    requires multiset(s) == multiset(u)
    ensures Median(s) == Median(u)
  {
    var a, b := SortAscending(s), SortAscending(u);
    SortedUnique(a, b);
    assert |s| == |multiset(s)| == |multiset(u)| == |u|;
    if s != [] {
      assert Median(s) == MiddleOf(a);
      assert Median(u) == MiddleOf(b);
    }
  }

  /** A list of one price has that price as its median. */
  lemma MedianOfOne(x: real)
    ensures Median([x]) == Some(x)
  {
    assert [x][1..] == [];
    assert SortAscending([x]) == Insert(x, []);
  }

  /** A list of two prices has their average as its median, in either order. */
  lemma MedianOfTwo(x: real, y: real)
    ensures Median([x, y]) == Some((x + y) / 2.0)
  {
    var t := SortAscending([x, y]);
    assert Median([x, y]) == MiddleOf(t);
    if x <= y {
      assert t == [x, y] by { SortTwo(x, y); }
    } else {
      assert t == [y, x] by { SortTwo(x, y); }
    }
  }

  /** The ascending copy of two prices. */
  lemma SortTwo(x: real, y: real)
    ensures SortAscending([x, y]) == if x <= y then [x, y] else [y, x]
  {
    assert [x, y][1..] == [y];
    assert [y][1..] == [];
    assert SortAscending([y]) == [y];
    assert SortAscending([x, y]) == Insert(x, [y]);
    InsertIntoOne(x, y);
  }

  lemma InsertIntoOne(x: real, y: real)
    ensures Insert(x, [y]) == if x <= y then [x, y] else [y, x]
  {
    if !(x <= y) {
      assert [y][1..] == [];
      assert Insert(x, []) == [x];
    }
  }

  /** Sum, accumulated from the front as `for (const v of values) sum += v` does. */
  function Sum(s: seq<real>): real {
    if s == [] then 0.0 else Sum(s[..|s| - 1]) + s[|s| - 1]
  }

  /** Arithmetic mean: `None` for the empty list. */
  function Mean(s: seq<real>): (r: Option<real>)
    ensures r.None? <==> s == []
  {
    if s == [] then None else Some(Sum(s) / |s| as real)
  }

  lemma {:induction false} SumBounds(s: seq<real>, lo: real, hi: real)
    requires forall x :: x in s ==> lo <= x <= hi
    ensures |s| as real * lo <= Sum(s) <= |s| as real * hi
  {
    if s != [] {
      var p := s[..|s| - 1];
      assert forall x :: x in p ==> x in s;
      SumBounds(p, lo, hi);
      assert s[|s| - 1] in s;
    }
  }

  /** The mean of values that all lie in `[lo, hi]` lies in `[lo, hi]`. */
  lemma MeanWithin(s: seq<real>, lo: real, hi: real)
    requires s != []
    requires forall x :: x in s ==> lo <= x <= hi
    ensures lo <= Mean(s).value <= hi
  {
    SumBounds(s, lo, hi);
    QuotientBounds(Sum(s), |s| as real, lo, hi);
  }

  /** `n * lo <= total <= n * hi` with `n > 0` puts `total / n` in `[lo, hi]`. */
  lemma QuotientBounds(total: real, n: real, lo: real, hi: real)
    requires n > 0.0 && n * lo <= total <= n * hi
    ensures lo <= total / n <= hi
  {
    var m := total / n;
    assert (m - lo) * n == total - n * lo;
    assert (hi - m) * n == n * hi - total;
  }

  /** The median of values that all lie in `[lo, hi]` lies in `[lo, hi]`. */
  lemma MedianWithin(s: seq<real>, lo: real, hi: real)
    requires s != []
    requires forall x :: x in s ==> lo <= x <= hi
    ensures lo <= Median(s).value <= hi
  {
    MedianWithinRange(s);
  }

  /** `price` lies in [M(1 - b), M(1 + b)] for the center M and band b. */
  predicate InBand(price: real, center: real, band: real) {
    center * (1.0 - band) <= price <= center * (1.0 + band)
  }

  lemma ScaleBound(d: real, band: real, m: real)
    requires d <= band && m > 0.0
    ensures d * m <= band * m
  {
  }

  /** A price whose fractional deviation |p - M| / M from a positive center
      M is at most the band lies within the band around M. */
  lemma DeviationInBand(p: real, m: real, band: real)
    requires m > 0.0
    requires Abs(p - m) / m <= band
    ensures InBand(p, m, band)
  {
    var d := Abs(p - m) / m;
    assert d * m == Abs(p - m);
    ScaleBound(d, band, m);
    assert m * (1.0 - band) == m - band * m;
    assert m * (1.0 + band) == m + band * m;
  }

  /** The same, for a deviation `d` already known through d * M = |p - M|. */
  lemma ScaledDeviationInBand(p: real, m: real, band: real, d: real)
    requires m > 0.0 && d <= band && d * m == Abs(p - m)
    ensures InBand(p, m, band)
  {
    ScaleBound(d, band, m);
    assert m * (1.0 - band) == m - band * m;
    assert m * (1.0 + band) == m + band * m;
  }

  /** The median of prices that all lie within a band lies within it. */
  lemma MedianInBand(s: seq<real>, center: real, band: real)
    requires s != []
    requires forall x :: x in s ==> InBand(x, center, band)
    ensures InBand(Median(s).value, center, band)
  {
    MedianWithin(s, center * (1.0 - band), center * (1.0 + band));
  }
}
