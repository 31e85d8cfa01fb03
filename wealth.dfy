/** The yard-sale tick on a wealth vector. Every agent with positive wealth gives
    one unit away; then as many units as were given are handed, one at a time, to
    recipients drawn from the whole population. The random draws are an input:
    `draws` lists the values the random generator returns, in call order. */
module Wealth {

  /** Total wealth held by the agents of `x`. */
  function Sum(x: seq<int>): int
  {
    if x == [] then 0 else x[0] + Sum(x[1..])
  }

  predicate NonNegative(x: seq<int>)
  {
    forall i :: 0 <= i < |x| ==> x[i] >= 0
  }

  /** The starting vector: `n` agents each holding `w`. */
  function Uniform(w: int, n: nat): seq<int>
  {
    seq(n, _ => w)
  }

  /** The starting vector holds `w` per agent. */
  lemma {:induction false} SumUniform(w: int, n: nat)
    ensures Sum(Uniform(w, n)) == w * n
  {
    if n > 0 {
      assert Uniform(w, n)[1..] == Uniform(w, n - 1);
      SumUniform(w, n - 1);
    }
  }

  /** Every draw names an agent of a population of `n`. */
  predicate ValidDraws(draws: seq<nat>, n: nat)
  {
    forall j :: 0 <= j < |draws| ==> draws[j] < n
  }

  lemma {:induction false} SumConcat(a: seq<int>, b: seq<int>)
    ensures Sum(a + b) == Sum(a) + Sum(b)
  {
    if a == [] {
      assert a + b == b;
    } else {
      assert (a + b)[1..] == a[1..] + b;
      SumConcat(a[1..], b);
    }
  }

  lemma {:induction false} SumNonNegative(x: seq<int>)
    requires NonNegative(x)
    ensures Sum(x) >= 0
  {
    if x != [] {
      SumNonNegative(x[1..]);
    }
  }

  /** Giving one more unit to agent `d` adds one to the total. */
  lemma {:induction false} SumIncrement(x: seq<int>, d: nat)
    requires d < |x|
    ensures Sum(x[d := x[d] + 1]) == Sum(x) + 1
  {
    if d > 0 {
      assert x[d := x[d] + 1][1..] == x[1..][d - 1 := x[d] + 1];
      SumIncrement(x[1..], d - 1);
    }
  }

  /** The number of benefactors of a tick: the agents whose wealth is positive,
      counted in index order as the first loop does. */
  function Benefactors(x: seq<int>): (k: nat)
    ensures k <= |x|
  {
    if x == [] then 0 else Benefactors(x[..|x| - 1]) + (if x[|x| - 1] > 0 then 1 else 0)
  }

  /** The agents whose wealth is positive. */
  function Positive(x: seq<int>): set<nat>
  {
    set i: nat | i < |x| && x[i] > 0
  }

  /** The benefactor count is the number of agents with positive wealth. */
  lemma {:induction false} BenefactorsArePositive(x: seq<int>)
    ensures Benefactors(x) == |Positive(x)|
  {
    if x != [] {
      var p := x[..|x| - 1];
      BenefactorsArePositive(p);
      if x[|x| - 1] > 0 {
        assert Positive(x) == Positive(p) + {|x| - 1};
      } else {
        assert Positive(x) == Positive(p);
      }
    }
  }

  /** The vector after the first loop: every agent with positive wealth has given one unit. */
  function Debit(x: seq<int>): seq<int>
  {
    seq(|x|, i requires 0 <= i < |x| => if x[i] > 0 then x[i] - 1 else x[i])
  }

  /** The first loop removes exactly one unit per benefactor. */
  lemma {:induction false} DebitSum(x: seq<int>)
    ensures Sum(Debit(x)) == Sum(x) - Benefactors(x)
  {
    if x != [] {
      var p := x[..|x| - 1];
      var last := x[|x| - 1];
      DebitSum(p);
      assert x == p + [last];
      assert Debit(x) == Debit(p) + [Debit(x)[|x| - 1]];
      SumConcat(p, [last]);
      SumConcat(Debit(p), [Debit(x)[|x| - 1]]);
    }
  }

  /** The vector after the second loop: each draw of `ds`, in order, receives one unit. */
  function Credit(v: seq<int>, ds: seq<nat>): (r: seq<int>)
    requires ValidDraws(ds, |v|)
    ensures |r| == |v|
    decreases |ds|
  {
    if ds == [] then v
    else
      var before := Credit(v, ds[..|ds| - 1]);
      var d := ds[|ds| - 1];
      before[d := before[d] + 1]
  }

  /** After the second loop an agent holds what it held plus the number of draws naming it. */
  lemma {:induction false} CreditAt(v: seq<int>, ds: seq<nat>, i: nat)
    requires ValidDraws(ds, |v|) && i < |v|
    ensures Credit(v, ds)[i] == v[i] + multiset(ds)[i]
  {
    if ds != [] {
      var p := ds[..|ds| - 1];
      CreditAt(v, p, i);
      assert ds == p + [ds[|ds| - 1]];
      assert multiset(ds) == multiset(p) + multiset{ds[|ds| - 1]};
    }
  }

  /** The second loop adds exactly one unit per draw. */
  lemma {:induction false} CreditSum(v: seq<int>, ds: seq<nat>)
    requires ValidDraws(ds, |v|)
    ensures Sum(Credit(v, ds)) == Sum(v) + |ds|
  {
    if ds != [] {
      var p := ds[..|ds| - 1];
      CreditSum(v, p);
      SumIncrement(Credit(v, p), ds[|ds| - 1]);
    }
  }

  /** One tick of the yard sale: the first loop debits the benefactors, the second
      credits the recipients named by the first `Benefactors(x)` draws. */
  function Tick(x: seq<int>, draws: seq<nat>): (r: seq<int>)
    requires ValidDraws(draws, |x|) && Benefactors(x) <= |draws|
    ensures |r| == |x|
  {
    Credit(Debit(x), draws[..Benefactors(x)])
  }

  /** What one agent holds after a tick: it loses one unit exactly when its wealth
      was positive, and gains one unit per draw that names it. */
  lemma TickAt(x: seq<int>, draws: seq<nat>, i: nat)
    requires ValidDraws(draws, |x|) && Benefactors(x) <= |draws| && i < |x|
    ensures Tick(x, draws)[i] == x[i] - (if x[i] > 0 then 1 else 0) + multiset(draws[..Benefactors(x)])[i]
  {
    CreditAt(Debit(x), draws[..Benefactors(x)], i);
  }

  /** A tick conserves total wealth. */
  lemma TickConserves(x: seq<int>, draws: seq<nat>)
    requires ValidDraws(draws, |x|) && Benefactors(x) <= |draws|
    ensures Sum(Tick(x, draws)) == Sum(x)
  {
    DebitSum(x);
    CreditSum(Debit(x), draws[..Benefactors(x)]);
  }

  /** An agent without positive wealth never gives: a tick can only add to it. */
  lemma TickSparesThePoor(x: seq<int>, draws: seq<nat>)
    requires ValidDraws(draws, |x|) && Benefactors(x) <= |draws|
    ensures forall i :: 0 <= i < |x| && x[i] <= 0 ==> Tick(x, draws)[i] >= x[i]
  {
    forall i | 0 <= i < |x| && x[i] <= 0
      ensures Tick(x, draws)[i] >= x[i]
    {
      TickAt(x, draws, i);
    }
  }

  /** A tick keeps every agent's wealth non-negative. */
  lemma TickNonNegative(x: seq<int>, draws: seq<nat>)
    requires ValidDraws(draws, |x|) && Benefactors(x) <= |draws|
    requires NonNegative(x)
    ensures NonNegative(Tick(x, draws))
  {
    forall i | 0 <= i < |x|
      ensures Tick(x, draws)[i] >= 0
    {
      TickAt(x, draws, i);
    }
  }

  /** With nobody holding anything there are no benefactors and no draws: the
      vector is unchanged. */
  lemma TickFixesZero(n: nat, draws: seq<nat>)
    requires ValidDraws(draws, n)
    ensures Benefactors(Uniform(0, n)) == 0
    ensures Tick(Uniform(0, n), draws) == Uniform(0, n)
  {
    var z := Uniform(0, n);
    BenefactorsArePositive(z);
    assert Positive(z) == {};
    forall i | 0 <= i < n
      ensures Tick(z, draws)[i] == z[i]
    {
      TickAt(z, draws, i);
    }
  }

  /** A tick can move a uniform vector: when every draw names agent 0, agent 1
      ends with one unit less than it started with. */
  lemma TickMovesUniform(w: int, n: nat)
    requires w >= 1 && n >= 2
    ensures Tick(Uniform(w, n), seq(n, _ => 0))[1] == w - 1
    ensures Tick(Uniform(w, n), seq(n, _ => 0)) != Uniform(w, n)
  {
    var x := Uniform(w, n);
    var draws: seq<nat> := seq(n, _ => 0);
    TickAt(x, draws, 1);
    assert 1 !in draws[..Benefactors(x)];
  }

  /** Every round of draws can serve a tick of a population of `n`. */
  predicate ValidRounds(rounds: seq<seq<nat>>, n: nat)
  {
    forall j :: 0 <= j < |rounds| ==> n <= |rounds[j]| && ValidDraws(rounds[j], n)
  }

  /** The vector after one tick per round of draws, in order. */
  function Run(x: seq<int>, rounds: seq<seq<nat>>): (r: seq<int>)
    requires ValidRounds(rounds, |x|)
    ensures |r| == |x|
    decreases |rounds|
  {
    if rounds == [] then x
    else Tick(Run(x, rounds[..|rounds| - 1]), rounds[|rounds| - 1])
  }

  /** However many ticks run, the total wealth is the one the agents started with
      and nobody's wealth becomes negative. */
  lemma {:induction false} RunConserves(x: seq<int>, rounds: seq<seq<nat>>)
    requires ValidRounds(rounds, |x|)
    ensures Sum(Run(x, rounds)) == Sum(x)
    ensures NonNegative(x) ==> NonNegative(Run(x, rounds))
    decreases |rounds|
  {
    if rounds != [] {
      var p := rounds[..|rounds| - 1];
      RunConserves(x, p);
      TickConserves(Run(x, p), rounds[|rounds| - 1]);
      if NonNegative(x) {
        TickNonNegative(Run(x, p), rounds[|rounds| - 1]);
      }
    }
  }

  /** The tick as the dashboard runs it: two loops updating the agents' list in
      place, counting the benefactors as they go. */
  method TickInPlace(a: array<int>, draws: seq<nat>) returns (k: nat)
    requires ValidDraws(draws, a.Length) && Benefactors(a[..]) <= |draws|
    modifies a
    ensures k == Benefactors(old(a[..]))
    ensures a[..] == Tick(old(a[..]), draws)
  {
    k := DebitInPlace(a);
    CreditInPlace(a, draws[..k]);
  }

  /** The first loop: every agent with positive wealth gives one unit, and the
      givers are counted. */
  method DebitInPlace(a: array<int>) returns (k: nat)
    modifies a
    ensures k == Benefactors(old(a[..]))
    ensures a[..] == Debit(old(a[..]))
  {
    ghost var x := a[..];
    k := 0;
    for i := 0 to a.Length
      invariant k == Benefactors(x[..i])
      invariant forall j :: 0 <= j < i ==> a[j] == Debit(x)[j]
      invariant forall j :: i <= j < a.Length ==> a[j] == x[j]
    {
      assert x[..i + 1][..i] == x[..i];
      if a[i] > 0 {
        a[i] := a[i] - 1;
        k := k + 1;
      }
    }
    assert x[..a.Length] == x;
  }

  /** The second loop: each draw, in order, receives one unit. */
  method CreditInPlace(a: array<int>, ds: seq<nat>)
    requires ValidDraws(ds, a.Length)
    modifies a
    ensures a[..] == Credit(old(a[..]), ds)
  {
    ghost var v := a[..];
    for j := 0 to |ds|
      invariant a[..] == Credit(v, ds[..j])
    {
      assert ds[..j + 1][..j] == ds[..j];
      a[ds[j]] := a[ds[j]] + 1;
    }
    assert ds[..|ds|] == ds;
  }
}
