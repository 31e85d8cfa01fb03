/** The dashboard of app3.py: 200 agents starting with 100 each, with the agents'
    labels kept in the `data` store, a total-wealth display, and a group mask sized
    by the stored vector rather than by the agent count. */
module DashApp3 {
  import opened Reply
  import opened Wealth
  import opened Summary
  import opened Ranking
  import opened Store
  import opened Session

  const N_AGENTS: nat := 200
  const INITIAL_WEALTH: int := 100

  /** The labels `1 .. n_agents` of the initial data, the scatter plot's y-axis. */
  function Labels(): seq<int>
  {
    seq(N_AGENTS, i => i + 1)
  }

  /** The total wealth on display: `initial_wealth * n_agents`, which is what the
      initial vector of `n_agents` agents holding `initial_wealth` each sums to. */
  function TotalWealth(initialWealth: int, nAgents: nat): (t: int)
    ensures t == Sum(Uniform(initialWealth, nAgents))
  {
    SumUniform(initialWealth, nAgents);
    initialWealth * nAgents
  }

  /** The displayed total stays true: after any number of ticks from the initial
      vector, the agents still hold exactly the total on display. */
  lemma DisplayedTotalHolds(rounds: seq<seq<nat>>)
    requires ValidRounds(rounds, N_AGENTS)
    ensures Sum(Run(Uniform(INITIAL_WEALTH, N_AGENTS), rounds)) == TotalWealth(INITIAL_WEALTH, N_AGENTS)
  {
    RunConserves(Uniform(INITIAL_WEALTH, N_AGENTS), rounds);
  }

  /** The agents' wealth list of the module-level `initial_data`: the step callback
      falls back on it when the `data` store is empty. Its labels are never changed
      and are `Labels()`. */
  class Dashboard {
    var initialX: array<int>

    /** The list always has one entry per agent, no negative wealth, and the
        displayed total. */
    ghost predicate Valid()
      reads this, initialX
    {
      && initialX.Length == N_AGENTS
      && NonNegative(initialX[..])
      && Sum(initialX[..]) == TotalWealth(INITIAL_WEALTH, N_AGENTS)
    }

    /** The list still holds the initial wealth of every agent. */
    ghost predicate Pristine()
      reads this, initialX
    {
      initialX[..] == Uniform(INITIAL_WEALTH, N_AGENTS)
    }

    constructor ()
      ensures Valid() && Pristine() && fresh(initialX)
    {
      initialX := new int[N_AGENTS](_ => INITIAL_WEALTH);
      new;
      assert initialX[..] == Uniform(INITIAL_WEALTH, N_AGENTS);
    }

    /** The vector a step starts from: the store's, or the initial data's. */
    ghost function Before(data: Option<Frame>): seq<int>
      reads this, initialX
    {
      if data.Some? then data.value.x else initialX[..]
    }

    /** The step callback, ticking a private copy of the vector in place and
        keeping the labels of the store (or of the initial data). The initial data
        is never changed, so every session whose store is empty starts from the
        initial wealth of every agent. */
    method Step(maxIntervals: int, nIntervals: int, nClicks: Option<int>, data: Option<Frame>,
                quantiles: Option<History>, draws: seq<nat>) returns (r: Outcome<StepOutput>)
      requires Valid()
      requires data.Some? ==> |data.value.x| == N_AGENTS
      requires N_AGENTS <= |draws| && ValidDraws(draws, N_AGENTS)
      ensures r == StepReply(N_AGENTS, maxIntervals, nIntervals, nClicks, Before(data),
                             if data.Some? then data.value.y else Labels(), quantiles, draws)
      ensures Pristine() && data.None? && r.Update? ==>
        r.value.data.x == Tick(Uniform(INITIAL_WEALTH, N_AGENTS), draws)
    {
      if nClicks.None? && maxIntervals == 0 {
        return NoUpdate;
      }
      var x := if data.Some? then data.value.x else initialX[..];
      var y := if data.Some? then data.value.y else Labels();
      var newX := new int[|x|](i requires 0 <= i < |x| => x[i]);
      assert newX[..] == x;
      r := TickAndReply(N_AGENTS, maxIntervals, nIntervals, nClicks, newX, y, quantiles, draws);
    }

    /** The step callback as written: with an empty store the tick runs in place on
        the initial data's own list, which therefore changes (even when the
        callback then fails on a missing click count). */
    method StepAsWritten(maxIntervals: int, nIntervals: int, nClicks: Option<int>, data: Option<Frame>,
                         quantiles: Option<History>, draws: seq<nat>) returns (r: Outcome<StepOutput>)
      requires Valid()
      requires data.Some? ==> |data.value.x| == N_AGENTS
      requires N_AGENTS <= |draws| && ValidDraws(draws, N_AGENTS)
      modifies initialX
      ensures Valid()
      ensures r == StepReply(N_AGENTS, maxIntervals, nIntervals, nClicks, old(Before(data)),
                             if data.Some? then data.value.y else Labels(), quantiles, draws)
      ensures initialX[..] ==
        if data.None? && !(nClicks.None? && maxIntervals == 0) then Tick(old(initialX[..]), draws)
        else old(initialX[..])
    {
      if nClicks.None? && maxIntervals == 0 {
        return NoUpdate;
      }
      var newX: array<int>;
      var y: seq<int>;
      if data.Some? {
        var x := data.value.x;
        newX := new int[|x|](i requires 0 <= i < |x| => x[i]);
        assert newX[..] == x;
        y := data.value.y;
      } else {
        newX := initialX;
        y := Labels();
      }
      ghost var before := newX[..];
      r := TickAndReply(N_AGENTS, maxIntervals, nIntervals, nClicks, newX, y, quantiles, draws);
      if data.None? {
        TickConserves(before, draws);
        TickNonNegative(before, draws);
      }
    }
  }

  /** A session whose store is empty, after another session's first tick on the
      same server, no longer starts from the initial wealth, although its agents
      still hold the total on display, so the display does not reveal it. */
  lemma SecondSessionStartsElsewhere()
    ensures var drifted := Tick(Uniform(INITIAL_WEALTH, N_AGENTS), seq(N_AGENTS, _ => 0));
      && drifted != Uniform(INITIAL_WEALTH, N_AGENTS)
      && Sum(drifted) == TotalWealth(INITIAL_WEALTH, N_AGENTS)
  {
    TickMovesUniform(INITIAL_WEALTH, N_AGENTS);
    TickConserves(Uniform(INITIAL_WEALTH, N_AGENTS), seq(N_AGENTS, _ => 0));
  }

  /** The group callback: no update before the group button was clicked, before
      any step, or for a cutoff other than 90, 75, 25 and 10. The mask has one
      entry per stored agent, while the band's boundary comes from `n_agents`: a
      top band runs from that rank to the end of the stored vector (and is empty
      past it), and a bottom band longer than the stored vector fails on an index
      out of range. A top band flags agents at least as rich as all others, a
      bottom band agents at most as rich, and the band has exactly its number of
      ranks. */
  method Group(nClicks: Option<int>, data: Option<Frame>, cutoff: int, order: seq<nat>)
    returns (r: Outcome<seq<bool>>)
    requires data.Some? ==> IsArgsort(data.value.x, order)
    ensures r == NoUpdate <==> nClicks.None? || data.None? || BandOf(cutoff, N_AGENTS).None?
    ensures r == Fault <==>
      && nClicks.Some? && data.Some? && BandOf(cutoff, N_AGENTS).Some?
      && BandOf(cutoff, N_AGENTS).value.Bottom? && BandOf(cutoff, N_AGENTS).value.count > |data.value.x|
    ensures r.Update? ==> |r.value| == |data.value.x|
    ensures r.Update? && BandOf(cutoff, N_AGENTS).value.Top? ==>
      var length := |data.value.x|;
      var from := Min(BandOf(cutoff, N_AGENTS).value.from, length);
      && r.value == RankMask(order, length, from, length)
      && CountTrue(r.value) == length - from
      && forall a, b :: (0 <= a < length && 0 <= b < length && r.value[a] && !r.value[b])
                        ==> data.value.x[b] <= data.value.x[a]
    ensures r.Update? && BandOf(cutoff, N_AGENTS).value.Bottom? ==>
      var length := |data.value.x|;
      var count := BandOf(cutoff, N_AGENTS).value.count;
      && r.value == RankMask(order, length, 0, count)
      && CountTrue(r.value) == count
      && forall a, b :: (0 <= a < length && 0 <= b < length && r.value[a] && !r.value[b])
                        ==> data.value.x[a] <= data.value.x[b]
  {
    if nClicks.None? || data.None? {
      return NoUpdate;
    }
    var x := data.value.x;
    var length := |x|;
    match BandOf(cutoff, N_AGENTS)
    case None =>
      r := NoUpdate;
    case Some(Top(from)) =>
      var start := Min(from, length);
      var mask := FlagRanks(order, length, start, length);
      TopGroupIsRichest(x, order, start);
      r := Update(mask);
    case Some(Bottom(count)) =>
      if count > length {
        r := Fault;
      } else {
        var mask := FlagRanks(order, length, 0, count);
        BottomGroupIsPoorest(x, order, count);
        r := Update(mask);
      }
  }
}
