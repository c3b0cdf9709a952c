/** The nearest-rank percentile (tools/capacity/run.py) with an exact rational
    percentile. */
module NearestRank {

  /** num / den. */
  datatype Percentile = Ratio(num: int, den: int)

  datatype Rank = NoSamples | BadPercentile | Sample(value: real)

  predicate Ordered(s: seq<real>) {
    forall i, j :: 0 <= i <= j < |s| ==> s[i] <= s[j]
  }

  function Insert(s: seq<real>, x: real): (r: seq<real>)
    ensures |r| == |s| + 1
  {
    if s == [] || x <= s[0] then [x] + s else [s[0]] + Insert(s[1..], x)
  }

  lemma {:induction false} InsertKeeps(s: seq<real>, x: real)
    ensures multiset(Insert(s, x)) == multiset(s) + multiset{x}
  {
    if s != [] && s[0] < x {
      InsertKeeps(s[1..], x);
      assert s == [s[0]] + s[1..];
      assert multiset(s) == multiset{s[0]} + multiset(s[1..]);
      assert multiset([s[0]] + Insert(s[1..], x)) == multiset{s[0]} + multiset(Insert(s[1..], x));
    }
  }

  lemma {:induction false} InsertSorts(s: seq<real>, x: real)
    requires Ordered(s)
    ensures Ordered(Insert(s, x))
  {
    if s != [] && s[0] < x {
      InsertSorts(s[1..], x);
      var rest := Insert(s[1..], x);
      forall j | 0 <= j < |rest|
        ensures s[0] <= rest[j]
      {
        InsertKeeps(s[1..], x);
        assert rest[j] in multiset(rest);
        assert rest[j] == x || rest[j] in s[1..];
      }
    }
  }

  function Sorted(s: seq<real>): (r: seq<real>)
    ensures |r| == |s|
  {
    if s == [] then [] else Insert(Sorted(s[1..]), s[0])
  }

  /** `sorted`: the same samples in ascending order. */
  lemma {:induction false} SortedIs(s: seq<real>)
    ensures Ordered(Sorted(s)) && multiset(Sorted(s)) == multiset(s)
  {
    if s != [] {
      SortedIs(s[1..]);
      InsertSorts(Sorted(s[1..]), s[0]);
      InsertKeeps(Sorted(s[1..]), s[0]);
      hide Ordered, Insert;
      assert s == [s[0]] + s[1..];
    }
  }

  /** ceil(num * n / den). */
  function Ceiling(p: Percentile, n: nat): int
    requires p.den > 0
  {
    (p.num * n + p.den - 1) / p.den
  }

  lemma CeilingIs(p: Percentile, n: nat)
    requires 0 < p.num <= p.den && n > 0
    ensures var c := Ceiling(p, n); 0 < c <= n && c * p.den >= p.num * n && (c - 1) * p.den < p.num * n
  {
    var c, t := Ceiling(p, n), p.num * n;
    assert t > 0 && t <= p.den * n;
    assert t + p.den - 1 == p.den * c + (t + p.den - 1) % p.den;
    assert p.den * (c - 1) == p.den * c - p.den;
    assert c <= n by { SmallerFactor(p.den, c - 1, n); }
    assert 0 < c by { SmallerFactor(p.den, 0, c); }
  }

  lemma SmallerFactor(d: int, x: int, y: int)
    requires d > 0 && d * x < d * y
    ensures x < y
  {
  }

  function NearestRank(samples: seq<real>, p: Percentile): Rank
    requires p.den > 0
  {
    if samples == [] then NoSamples
    else if !(0 < p.num <= p.den) then BadPercentile
    else
      CeilingIs(p, |samples|);
      Sample(Sorted(samples)[Ceiling(p, |samples|) - 1])
  }

  // ------------------------------------------------------------------ counts

  /** How many samples are at most `r`. */
  function AtMost(s: seq<real>, r: real): (n: nat)
    ensures n <= |s|
  {
    if s == [] then 0 else (if s[0] <= r then 1 else 0) + AtMost(s[1..], r)
  }

  /** How many samples are below `r`. */
  function Below(s: seq<real>, r: real): (n: nat)
    ensures n <= |s|
  {
    if s == [] then 0 else (if s[0] < r then 1 else 0) + Below(s[1..], r)
  }

  lemma {:induction false} CountConcat(a: seq<real>, b: seq<real>, r: real)
    ensures AtMost(a + b, r) == AtMost(a, r) + AtMost(b, r)
    ensures Below(a + b, r) == Below(a, r) + Below(b, r)
  {
    if a == [] {
      assert a + b == b;
    } else {
      assert (a + b)[1..] == a[1..] + b;
      CountConcat(a[1..], b, r);
    }
  }

  /** The counts do not depend on the order of the samples. */
  lemma {:induction false} CountPermutation(s: seq<real>, t: seq<real>, r: real)
    requires multiset(s) == multiset(t)
    ensures AtMost(s, r) == AtMost(t, r) && Below(s, r) == Below(t, r)
  {
    if s == [] {
      assert |multiset(t)| == 0;
    } else {
      assert s[0] in multiset(s);
      var i :| 0 <= i < |t| && t[i] == s[0];
      var a, b := t[..i], t[i + 1..];
      WithoutOne(s, t, i);
      CountPermutation(s[1..], a + b, r);
      CountConcat(a, b, r);
      CountConcat(a, t[i..], r);
      assert t == a + t[i..] && t[i..][1..] == b;
    }
  }

  lemma WithoutOne(s: seq<real>, t: seq<real>, i: nat)
    requires s != [] && i < |t| && t[i] == s[0] && multiset(s) == multiset(t)
    ensures multiset(s[1..]) == multiset(t[..i] + t[i + 1..])
  {
    assert s == [s[0]] + s[1..];
    assert t == t[..i] + [t[i]] + t[i + 1..];
    var rest := multiset(t[..i]) + multiset(t[i + 1..]);
    assert multiset(t) == rest + multiset{t[i]};
    assert multiset(s) == multiset(s[1..]) + multiset{s[0]};
    assert multiset(s) - multiset{s[0]} == multiset(s[1..]) && multiset(t) - multiset{s[0]} == rest;
    assert multiset(t[..i] + t[i + 1..]) == rest;
  }

  lemma {:induction false} AllAtMost(s: seq<real>, r: real)
    requires forall i :: 0 <= i < |s| ==> s[i] <= r
    ensures AtMost(s, r) == |s|
  {
    if s != [] { AllAtMost(s[1..], r); }
  }

  lemma {:induction false} NoneBelow(s: seq<real>, r: real)
    requires forall i :: 0 <= i < |s| ==> r <= s[i]
    ensures Below(s, r) == 0
  {
    if s != [] { NoneBelow(s[1..], r); }
  }

  lemma AtIndex(s: seq<real>, k: nat)
    requires Ordered(s) && k < |s|
    ensures AtMost(s, s[k]) >= k + 1 && Below(s, s[k]) <= k
  {
    assert s == s[..k + 1] + s[k + 1..] && s == s[..k] + s[k..];
    CountConcat(s[..k + 1], s[k + 1..], s[k]);
    CountConcat(s[..k], s[k..], s[k]);
    AllAtMost(s[..k + 1], s[k]);
    NoneBelow(s[k..], s[k]);
  }

  /** At least p * n samples are at most `r`, and fewer than p * n below it. */
  predicate HasRank(samples: seq<real>, p: Percentile, r: real) {
    && AtMost(samples, r) * p.den >= p.num * |samples|
    && Below(samples, r) * p.den < p.num * |samples|
  }

  lemma Scale(x: int, y: int, d: int)
    requires x <= y && d > 0
    ensures x * d <= y * d
  {
  }

  /** The result is a sample of that rank; it fails only on no samples or a
      percentile outside (0, 1]. */
  lemma RankOfResult(samples: seq<real>, p: Percentile)
    requires p.den > 0
    ensures NearestRank(samples, p).Sample? <==> samples != [] && 0 < p.num <= p.den
    ensures var r := NearestRank(samples, p);
            r.Sample? ==> r.value in samples && HasRank(samples, p, r.value)
  {
    if samples != [] && 0 < p.num <= p.den {
      CeilingIs(p, |samples|);
      var k, s := Ceiling(p, |samples|) - 1, Sorted(samples);
      SortedIs(samples);
      assert s[k] in multiset(s);
      AtIndex(s, k);
      CountPermutation(s, samples, s[k]);
      Scale(k + 1, AtMost(samples, s[k]), p.den);
      Scale(Below(samples, s[k]), k, p.den);
    }
  }

  lemma {:induction false} LargerCounts(s: seq<real>, low: real, high: real)
    requires low < high
    ensures AtMost(s, low) <= Below(s, high)
  {
    if s != [] { LargerCounts(s[1..], low, high); }
  }

  /** The rank determines the value. */
  lemma RankIsUnique(samples: seq<real>, p: Percentile, x: real, y: real)
    requires p.den > 0 && HasRank(samples, p, x) && HasRank(samples, p, y)
    ensures x == y
  {
    if x < y {
      LargerCounts(samples, x, y);
      Scale(AtMost(samples, x), Below(samples, y), p.den);
    } else if y < x {
      LargerCounts(samples, y, x);
      Scale(AtMost(samples, y), Below(samples, x), p.den);
    }
  }

  /** The input order does not matter. */
  lemma OrderDoesNotMatter(s: seq<real>, t: seq<real>, p: Percentile)
    requires p.den > 0 && multiset(s) == multiset(t)
    ensures NearestRank(s, p) == NearestRank(t, p)
  {
    assert |s| == |multiset(s)| && |t| == |multiset(t)|;
    RankOfResult(s, p);
    RankOfResult(t, p);
    if s != [] && 0 < p.num <= p.den {
      var x := NearestRank(s, p).value;
      CountPermutation(s, t, x);
      RankIsUnique(t, p, x, NearestRank(t, p).value);
    }
  }
}
