/** The quantile summary of a wealth vector (the wealth of the poorest half and of
    the richest tenth of the agents) and the history of summaries, one per tick. */
module Summary {
  import opened Reply
  import opened Wealth

  predicate Sorted(s: seq<int>)
  {
    forall i, j :: 0 <= i < j < |s| ==> s[i] <= s[j]
  }

  /** Every element of a sequence holding the elements of `t` and `v` is at least `m`
      when `m` bounds them all from below. */
  lemma AllAtLeast(r: seq<int>, t: seq<int>, v: int, m: int)
    requires multiset(r) == multiset(t) + multiset{v}
    requires m <= v && forall e :: e in t ==> m <= e
    ensures forall k :: 0 <= k < |r| ==> m <= r[k]
  {
    forall k | 0 <= k < |r|
      ensures m <= r[k]
    {
      assert r[k] in multiset(r);
      if r[k] != v {
        assert r[k] in multiset(t);
        assert r[k] in t;
      }
    }
  }

  /** Insertion of `v` into a sorted sequence. */
  function Insert(v: int, s: seq<int>): (r: seq<int>)
    requires Sorted(s)
    ensures Sorted(r) && |r| == |s| + 1
    ensures multiset(r) == multiset(s) + multiset{v}
    ensures Sum(r) == Sum(s) + v
  {
    if s == [] then [v]
    else if v <= s[0] then
      SortedCons(v, s);
      [v] + s
    else
      var rest := Insert(v, s[1..]);
      assert s == [s[0]] + s[1..];
      AllAtLeast(rest, s[1..], v, s[0]);
      SortedCons(s[0], rest);
      [s[0]] + rest
  }

  /** Putting a value no larger than the head in front of a sorted sequence keeps it sorted. */
  lemma SortedCons(h: int, t: seq<int>)
    requires Sorted(t) && (t != [] ==> h <= t[0])
    ensures Sorted([h] + t)
  {
  }

  /** The ascending sort of the agents' wealth. */
  function Sort(s: seq<int>): (r: seq<int>)
    ensures Sorted(r) && |r| == |s|
  {
    if s == [] then [] else Insert(s[0], Sort(s[1..]))
  }

  /** The sort holds the agents' wealth, and so the same total. */
  lemma {:induction false} SortPermutes(s: seq<int>)
    ensures multiset(Sort(s)) == multiset(s)
    ensures Sum(Sort(s)) == Sum(s)
  {
    if s != [] {
      SortPermutes(s[1..]);
      assert s == [s[0]] + s[1..];
    }
  }

  /** A sorted sequence is determined by its elements: any sort of the vector,
      whatever order it gives equal values, yields `Sort(s)`. */
  lemma {:induction false} SortIsUnique(s: seq<int>, t: seq<int>)
    requires Sorted(t) && multiset(t) == multiset(s)
    ensures t == Sort(s)
  {
    SortPermutes(s);
    SortedPermutationsEqual(t, Sort(s));
  }

  lemma {:induction false} SortedPermutationsEqual(a: seq<int>, b: seq<int>)
    requires Sorted(a) && Sorted(b) && multiset(a) == multiset(b)
    ensures a == b
  {
    SameLength(a, b);
    if a != [] {
      HeadIsLeast(a, b);
      HeadIsLeast(b, a);
      Tail(a);
      Tail(b);
      SortedPermutationsEqual(a[1..], b[1..]);
    }
  }

  lemma SameLength(a: seq<int>, b: seq<int>)
    requires multiset(a) == multiset(b)
    ensures |a| == |b|
  {
    assert |a| == |multiset(a)| && |b| == |multiset(b)|;
  }

  /** The head of a non-empty sorted sequence is at most every element of any
      permutation of it. */
  lemma HeadIsLeast(a: seq<int>, b: seq<int>)
    requires Sorted(a) && multiset(a) == multiset(b) && b != []
    ensures a != [] && a[0] <= b[0]
  {
    assert b[0] in multiset(b);
    assert b[0] in a;
  }

  /** The tail of a non-empty sorted sequence is sorted and holds the other elements. */
  lemma Tail(a: seq<int>)
    requires Sorted(a) && a != []
    ensures Sorted(a[1..]) && multiset(a[1..]) == multiset(a) - multiset{a[0]}
    ensures a == [a[0]] + a[1..]
  {
    assert a == [a[0]] + a[1..];
  }

  lemma SortNonNegative(s: seq<int>)
    ensures NonNegative(s) ==> NonNegative(Sort(s))
  {
    if NonNegative(s) {
      SortPermutes(s);
      var r := Sort(s);
      forall k | 0 <= k < |r|
        ensures r[k] >= 0
      {
        assert r[k] in multiset(s);
      }
    }
  }

  /** The two figures the dashboard shows for a wealth vector. */
  datatype Quantile = Quantile(bottom50: int, top10: int)

  function Min(a: nat, b: nat): nat
  {
    if a <= b then a else b
  }

  /** Where the poorest half ends in the sorted vector: `n_agents / 2`, clamped to
      the vector's length as a slice bound is. */
  function BottomCut(nAgents: nat, len: nat): nat
  {
    Min(nAgents / 2, len)
  }

  /** Where the richest tenth starts in the sorted vector: `n_agents * 9 / 10`,
      clamped to the vector's length. */
  function TopCut(nAgents: nat, len: nat): nat
  {
    Min(nAgents * 9 / 10, len)
  }

  /** The quantile summary: sort the vector, sum the first `n_agents / 2` values and
      the values from index `n_agents * 9 / 10` on. For a vector of non-negative
      wealth both sums are shares of the total that do not overlap. */
  function GetQuantiles(x: seq<int>, nAgents: nat): (q: Quantile)
    ensures NonNegative(x) ==> 0 <= q.bottom50 && 0 <= q.top10 && q.bottom50 + q.top10 <= Sum(x)
  {
    SortNonNegative(x);
    SortPermutes(x);
    Summarise(Sort(x), nAgents)
  }

  /** The two sums of the summary, taken on a vector already sorted. */
  function Summarise(y: seq<int>, nAgents: nat): (q: Quantile)
    ensures NonNegative(y) ==> 0 <= q.bottom50 && 0 <= q.top10 && q.bottom50 + q.top10 <= Sum(y)
  {
    var b := BottomCut(nAgents, |y|);
    var t := TopCut(nAgents, |y|);
    SplitBounds(y, b, t);
    Quantile(Sum(y[..b]), Sum(y[t..]))
  }

  /** Splitting a vector of non-negative wealth at `b <= t`: the part before `b`
      and the part from `t` on are non-negative and together hold at most the total. */
  lemma SplitBounds(y: seq<int>, b: nat, t: nat)
    requires b <= t <= |y|
    ensures NonNegative(y) ==>
      0 <= Sum(y[..b]) && 0 <= Sum(y[t..]) && Sum(y[..b]) + Sum(y[t..]) <= Sum(y)
  {
    var p, q, r := y[..b], y[b..t], y[t..];
    assert y == p + q + r;
    SumConcat(p + q, r);
    SumConcat(p, q);
    if NonNegative(y) {
      SumNonNegative(p);
      SumNonNegative(q);
      SumNonNegative(r);
    }
  }

  lemma {:induction false} SumAtMost(s: seq<int>, m: int)
    requires forall k :: 0 <= k < |s| ==> s[k] <= m
    ensures Sum(s) <= |s| * m
  {
    if s != [] {
      SumAtMost(s[1..], m);
    }
  }

  lemma {:induction false} SumAtLeast(s: seq<int>, m: int)
    requires forall k :: 0 <= k < |s| ==> m <= s[k]
    ensures |s| * m <= Sum(s)
  {
    if s != [] {
      SumAtLeast(s[1..], m);
    }
  }

  /** The poorest half of the agents never holds more than half of the wealth. */
  lemma BottomHalfAtMostHalf(x: seq<int>)
    requires NonNegative(x)
    ensures 2 * GetQuantiles(x, |x|).bottom50 <= Sum(x)
  {
    SortNonNegative(x);
    SortPermutes(x);
    SortedBottomHalf(Sort(x), |x|, Sum(x));
  }

  /** The same bound on the summary of a vector already sorted. */
  lemma SortedBottomHalf(y: seq<int>, n: nat, total: int)
    requires Sorted(y) && NonNegative(y) && n == |y| && total == Sum(y)
    ensures 2 * Summarise(y, n).bottom50 <= total
  {
    SortedLowHalf(y, BottomCut(n, n));
  }

  lemma SortedLowHalf(y: seq<int>, b: nat)
    requires Sorted(y) && NonNegative(y) && 2 * b <= |y|
    ensures 2 * Sum(y[..b]) <= Sum(y)
  {
    SumSplit(y, b);
    if b > 0 {
      var p, r := y[..b], y[b..];
      var m := y[b - 1];
      assert forall k :: 0 <= k < |p| ==> p[k] <= m;
      assert forall k :: 0 <= k < |r| ==> m <= r[k];
      SumAtMost(p, m);
      SumAtLeast(r, m);
      LowHalfArith(Sum(p), Sum(r), b, |r|, m);
    }
  }

  lemma SumSplit(y: seq<int>, b: nat)
    requires b <= |y|
    ensures Sum(y) == Sum(y[..b]) + Sum(y[b..])
  {
    assert y == y[..b] + y[b..];
    SumConcat(y[..b], y[b..]);
  }

  lemma LowHalfArith(a: int, c: int, b: nat, r: nat, m: nat)
    requires a <= b * m && r * m <= c && b <= r
    ensures 2 * a <= a + c
  {
    MulMonotone(m, b, r);
    assert b * m <= r * m by {
      assert m * b == b * m && m * r == r * m;
    }
  }

  /** The richest tenth of the agents always holds at least its share of the
      wealth: `n - n * 9 / 10` agents out of `n`, for the vector of `n` agents the
      dashboard summarises with `n_agents = n`. */
  lemma TopTenthAtLeastShare(x: seq<int>, n: nat)
    requires n == |x| >= 1
    ensures n * GetQuantiles(x, n).top10 >= (n - n * 9 / 10) * Sum(x)
  {
    SortPermutes(x);
    SortedTopShare(Sort(x), n, GetQuantiles(x, n).top10, Sum(x));
  }

  /** The same bound on the summary of a vector already sorted. */
  lemma SortedTopShare(y: seq<int>, n: nat, top: int, total: int)
    requires Sorted(y) && n == |y| >= 1 && top == Summarise(y, n).top10 && total == Sum(y)
    ensures n * top >= (n - n * 9 / 10) * total
  {
    var t := n * 9 / 10;
    NineTenthsInside(n);
    assert top == Sum(y[t..]);
    SortedHighShare(y, t);
  }

  lemma NineTenthsInside(n: nat)
    requires n >= 1
    ensures n * 9 / 10 < n
  {
  }

  lemma SortedHighShare(y: seq<int>, t: nat)
    requires Sorted(y) && t < |y|
    ensures |y| * Sum(y[t..]) >= (|y| - t) * Sum(y)
  {
    SumSplit(y, t);
    var p, r := y[..t], y[t..];
    var m := y[t];
    assert forall k :: 0 <= k < |p| ==> p[k] <= m;
    assert forall k :: 0 <= k < |r| ==> m <= r[k];
    SumAtMost(p, m);
    SumAtLeast(r, m);
    HighShareArith(Sum(p), Sum(r), t, |r|, m, |y|, Sum(y));
  }

  /** With `a <= t * m` and `u * m <= c`: `(t + u) * c >= u * (a + c)`. */
  lemma HighShareArith(a: int, c: int, t: nat, u: nat, m: int, n: nat, total: int)
    requires a <= t * m && u * m <= c && n == t + u && total == a + c
    ensures n * c >= (n - t) * total
  {
    MulMonotone(u, a, t * m);
    MulMonotone(t, u * m, c);
    assert u * (t * m) == t * (u * m);
    assert (t + u) * c == t * c + u * c;
    assert u * (a + c) == u * a + u * c;
  }

  lemma MulMonotone(c: nat, u: int, v: int)
    requires u <= v
    ensures c * u <= c * v
  {
  }

  /** The series the time chart plots: one bottom-50% and one top-10% figure per tick. */
  datatype History = History(bottom50: seq<int>, top10: seq<int>)

  /** Appends a tick's summary to the history; an empty store starts both series.
      Earlier entries are never changed or removed. */
  function Record(h: Option<History>, q: Quantile): (r: History)
    ensures |r.bottom50| >= 1 && |r.top10| >= 1
    ensures r.bottom50[|r.bottom50| - 1] == q.bottom50 && r.top10[|r.top10| - 1] == q.top10
    ensures r.bottom50[..|r.bottom50| - 1] == (if h.Some? then h.value.bottom50 else [])
    ensures r.top10[..|r.top10| - 1] == (if h.Some? then h.value.top10 else [])
  {
    match h
    case None => History([q.bottom50], [q.top10])
    case Some(prev) => History(prev.bottom50 + [q.bottom50], prev.top10 + [q.top10])
  }

  /** The history after recording the summaries `qs`, tick by tick, from an empty store. */
  function Replay(qs: seq<Quantile>): Option<History>
  {
    if qs == [] then None else Some(Record(Replay(qs[..|qs| - 1]), qs[|qs| - 1]))
  }

  /** After any number of ticks both series hold exactly one entry per tick, in
      tick order. */
  lemma {:induction false} ReplayHistory(qs: seq<Quantile>)
    ensures Replay(qs).None? <==> qs == []
    ensures Replay(qs).Some? ==>
      && |Replay(qs).value.bottom50| == |qs| && |Replay(qs).value.top10| == |qs|
      && forall i :: 0 <= i < |qs| ==>
           Replay(qs).value.bottom50[i] == qs[i].bottom50 && Replay(qs).value.top10[i] == qs[i].top10
  {
    if qs != [] {
      var p := qs[..|qs| - 1];
      ReplayHistory(p);
      forall i | 0 <= i < |p|
        ensures p[i] == qs[i]
      {
      }
    }
  }
}
