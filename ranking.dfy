/** Highlighting an income group: a mask over the agents that flags those whose
    rank in the ascending order of wealth falls in the chosen band. */
module Ranking {
  import opened Reply

  /** `order` is an ascending argsort of `x`: a permutation of the agents' indices
      along which wealth never decreases. Equal wealth may come in any order. */
  predicate IsArgsort(x: seq<int>, order: seq<nat>)
  {
    && |order| == |x|
    && (forall i :: 0 <= i < |order| ==> order[i] < |x|)
    && (forall i, j :: 0 <= i < j < |order| ==> order[i] != order[j])
    && (forall a :: 0 <= a < |x| ==> a in order)
    && (forall i, j :: 0 <= i < j < |order| ==> x[order[i]] <= x[order[j]])
  }

  /** A band of ranks: from rank `from` to the end (a top group), or the first
      `count` ranks (a bottom group). */
  datatype Band = Top(from: nat) | Bottom(count: nat)

  /** The band a dropdown cutoff selects among `nAgents` agents: 90 and 75 start
      the top group at that percentile of the ranks, 25 and 10 end the bottom
      group there; any other value selects nothing. */
  function BandOf(cutoff: int, nAgents: nat): (b: Option<Band>)
    ensures b.Some? <==> cutoff == 90 || cutoff == 75 || cutoff == 25 || cutoff == 10
    ensures cutoff == 90 || cutoff == 75 ==> b == Some(Top(cutoff * nAgents / 100))
    ensures cutoff == 25 || cutoff == 10 ==> b == Some(Bottom(cutoff * nAgents / 100))
  {
    if cutoff == 90 then
      FloorScale(nAgents, 9, 10);
      Some(Top(nAgents * 9 / 10))
    else if cutoff == 75 then
      FloorScale(nAgents, 3, 4);
      Some(Top(nAgents * 3 / 4))
    else if cutoff == 25 then
      FloorScale(nAgents, 1, 4);
      Some(Bottom(nAgents / 4))
    else if cutoff == 10 then
      FloorScale(nAgents, 1, 10);
      Some(Bottom(nAgents / 10))
    else
      None
  }

  /** `n * p / q` is the floor of the percentage `100 * p / q` of `n`. */
  lemma FloorScale(n: nat, p: nat, q: nat)
    requires q > 0 && 100 % q == 0
    ensures (100 / q * p) * n / 100 == n * p / q
  {
    var k := 100 / q;
    var f, r := n * p / q, n * p % q;
    assert n * p == q * f + r && 0 <= r < q;
    assert k * q == 100;
    ScaledQuotient(k, n, p, q, f, r);
    ScaledRemainder(k, r, q);
    DivWithOffset(f, k * r);
  }

  lemma ScaledQuotient(k: int, n: int, p: int, q: int, f: int, r: int)
    requires n * p == q * f + r && k * q == 100
    ensures (k * p) * n == 100 * f + k * r
  {
    calc {
      (k * p) * n;
      == k * (n * p);
      == k * (q * f + r);
      == (k * q) * f + k * r;
    }
  }

  lemma ScaledRemainder(k: nat, r: nat, q: nat)
    requires r < q && k * q == 100
    ensures k * r < 100
  {
    assert k * q - k * r == k * (q - r);
  }

  lemma DivWithOffset(f: int, e: int)
    requires 0 <= e < 100
    ensures (100 * f + e) / 100 == f
  {
  }

  /** The mask with one entry per agent `0 <= a < size`, flagging the agents at
      ranks `lo` up to `hi - 1` of `order`. */
  function RankMask(order: seq<nat>, size: nat, lo: nat, hi: nat): seq<bool>
    requires lo <= hi <= |order|
  {
    seq(size, a => a in order[lo..hi])
  }

  function CountTrue(s: seq<bool>): nat
  {
    if s == [] then 0 else (if s[0] then 1 else 0) + CountTrue(s[1..])
  }

  lemma {:induction false} CountTrueSet(s: seq<bool>, p: nat)
    requires p < |s| && !s[p]
    ensures CountTrue(s[p := true]) == CountTrue(s) + 1
  {
    if p > 0 {
      assert s[p := true][1..] == s[1..][p - 1 := true];
      CountTrueSet(s[1..], p - 1);
    }
  }

  /** The group callback's loop: a list of `size` falses in which the agent at
      each rank `lo <= i < hi` is set. As the ranks name distinct agents, exactly
      `hi - lo` agents end up flagged. */
  method FlagRanks(order: seq<nat>, size: nat, lo: nat, hi: nat) returns (mask: seq<bool>)
    requires lo <= hi <= |order|
    requires forall i :: lo <= i < hi ==> order[i] < size
    requires forall i, j :: lo <= i < j < hi ==> order[i] != order[j]
    ensures mask == RankMask(order, size, lo, hi)
    ensures CountTrue(mask) == hi - lo
  {
    var result := new bool[size](_ => false);
    assert result[..] == seq(size, _ => false);
    CountFalse(size);
    for i := lo to hi
      invariant forall a :: 0 <= a < size ==> result[a] == (a in order[lo..i])
      invariant CountTrue(result[..]) == i - lo
    {
      assert order[lo..i + 1] == order[lo..i] + [order[i]];
      assert order[i] !in order[lo..i];
      CountTrueSet(result[..], order[i]);
      result[order[i]] := true;
    }
    mask := result[..];
  }

  lemma {:induction false} CountFalse(n: nat)
    ensures CountTrue(seq(n, _ => false)) == 0
  {
    if n > 0 {
      assert seq(n, _ => false)[1..] == seq(n - 1, _ => false);
      CountFalse(n - 1);
    }
  }

  /** In a top group, every flagged agent is at least as rich as every agent
      left out, however ties were ordered. */
  lemma TopGroupIsRichest(x: seq<int>, order: seq<nat>, lo: nat)
    requires IsArgsort(x, order) && lo <= |x|
    ensures forall a, b ::
      (0 <= a < |x| && 0 <= b < |x| && RankMask(order, |x|, lo, |x|)[a] && !RankMask(order, |x|, lo, |x|)[b])
      ==> x[b] <= x[a]
  {
    var mask := RankMask(order, |x|, lo, |x|);
    forall a, b | 0 <= a < |x| && 0 <= b < |x| && mask[a] && !mask[b]
      ensures x[b] <= x[a]
    {
      var p := RankOf(order, a);
      var q := RankOf(order, b);
      assert lo <= p by {
        var k :| 0 <= k < |x| - lo && order[lo..|x|][k] == a;
        assert order[lo + k] == a;
      }
      assert q < lo;
    }
  }

  /** In a bottom group, every flagged agent is at most as rich as every agent
      left out, however ties were ordered. */
  lemma BottomGroupIsPoorest(x: seq<int>, order: seq<nat>, hi: nat)
    requires IsArgsort(x, order) && hi <= |x|
    ensures forall a, b ::
      (0 <= a < |x| && 0 <= b < |x| && RankMask(order, |x|, 0, hi)[a] && !RankMask(order, |x|, 0, hi)[b])
      ==> x[a] <= x[b]
  {
    var mask := RankMask(order, |x|, 0, hi);
    forall a, b | 0 <= a < |x| && 0 <= b < |x| && mask[a] && !mask[b]
      ensures x[a] <= x[b]
    {
      var p := RankOf(order, a);
      var q := RankOf(order, b);
      assert p < hi by {
        var k :| 0 <= k < hi && order[0..hi][k] == a;
        assert order[k] == a;
      }
      assert hi <= q;
    }
  }

  /** The rank of agent `a`: its position in the argsort. */
  function RankOf(order: seq<nat>, a: nat): (p: nat)
    requires a in order
    ensures p < |order| && order[p] == a
  {
    if order[0] == a then 0 else 1 + RankOf(order[1..], a)
  }
}
