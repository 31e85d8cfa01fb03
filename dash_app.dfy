/** The dashboard of app.py: 100 agents starting with 100 each. Its callbacks are
    the step (one tick, its quantile summary and the history), the play button and
    the group highlight. */
module DashApp {
  import opened Reply
  import opened Wealth
  import opened Summary
  import opened Ranking
  import opened Store
  import opened Session

  const N_AGENTS: nat := 100
  const INITIAL_WEALTH: int := 100

  /** The agents' labels `1 .. n_agents`, the scatter plot's y-axis. */
  function Agents(): seq<int>
  {
    seq(N_AGENTS, i => i + 1)
  }

  /** The agents' wealth list of the module-level `initial_data`: the step callback
      falls back on it when the `data` store is empty. */
  class Dashboard {
    var initialX: array<int>

    /** The list always has one entry per agent, no negative wealth, and the
        total that the agents started with. */
    ghost predicate Valid()
      reads this, initialX
    {
      && initialX.Length == N_AGENTS
      && NonNegative(initialX[..])
      && Sum(initialX[..]) == INITIAL_WEALTH * N_AGENTS
    }

    /** The list still holds the initial wealth of every agent. */
    ghost predicate Pristine()
      reads this, initialX
    {
      initialX[..] == Uniform(INITIAL_WEALTH, N_AGENTS)
    }

    constructor ()
      ensures Valid() && Pristine() && fresh(initialX)
    {
      initialX := new int[N_AGENTS](_ => INITIAL_WEALTH);
      new;
      assert initialX[..] == Uniform(INITIAL_WEALTH, N_AGENTS);
      SumUniform(INITIAL_WEALTH, N_AGENTS);
    }

    /** The vector a step starts from: the store's, or the initial data's. */
    ghost function Before(data: Option<Frame>): seq<int>
      reads this, initialX
    {
      if data.Some? then data.value.x else initialX[..]
    }

    /** The step callback, ticking a private copy of the vector in place. The
        initial data is never changed, so every session whose store is empty
        starts from the initial wealth of every agent. */
    method Step(maxIntervals: int, nIntervals: int, nClicks: Option<int>, data: Option<Frame>,
                quantiles: Option<History>, draws: seq<nat>) returns (r: Outcome<StepOutput>)
      requires Valid()
      requires data.Some? ==> |data.value.x| == N_AGENTS
      requires N_AGENTS <= |draws| && ValidDraws(draws, N_AGENTS)
      ensures r == StepReply(N_AGENTS, maxIntervals, nIntervals, nClicks, Before(data), Agents(), quantiles, draws)
      ensures Pristine() && data.None? && r.Update? ==>
        r.value.data.x == Tick(Uniform(INITIAL_WEALTH, N_AGENTS), draws)
    {
      if nClicks.None? && maxIntervals == 0 {
        return NoUpdate;
      }
      var x := if data.Some? then data.value.x else initialX[..];
      var newX := new int[|x|](i requires 0 <= i < |x| => x[i]);
      assert newX[..] == x;
      r := TickAndReply(N_AGENTS, maxIntervals, nIntervals, nClicks, newX, Agents(), quantiles, draws);
    }

    /** The step callback as written: with an empty store the tick runs in place on
        the initial data's own list, which therefore changes (even when the
        callback then fails on a missing click count). */
    method StepAsWritten(maxIntervals: int, nIntervals: int, nClicks: Option<int>, data: Option<Frame>,
                         quantiles: Option<History>, draws: seq<nat>) returns (r: Outcome<StepOutput>)
      requires Valid()
      requires data.Some? ==> |data.value.x| == N_AGENTS
      requires N_AGENTS <= |draws| && ValidDraws(draws, N_AGENTS)
      modifies initialX
      ensures Valid()
      ensures r == StepReply(N_AGENTS, maxIntervals, nIntervals, nClicks, old(Before(data)), Agents(), quantiles, draws)
      ensures initialX[..] ==
        if data.None? && !(nClicks.None? && maxIntervals == 0) then Tick(old(initialX[..]), draws)
        else old(initialX[..])
    {
      if nClicks.None? && maxIntervals == 0 {
        return NoUpdate;
      }
      var newX: array<int>;
      if data.Some? {
        var x := data.value.x;
        newX := new int[|x|](i requires 0 <= i < |x| => x[i]);
        assert newX[..] == x;
      } else {
        newX := initialX;
      }
      ghost var before := newX[..];
      r := TickAndReply(N_AGENTS, maxIntervals, nIntervals, nClicks, newX, Agents(), quantiles, draws);
      if data.None? {
        TickConserves(before, draws);
        TickNonNegative(before, draws);
      }
    }
  }

  /** A session whose store is empty, after another session's first tick on the
      same server, no longer starts from the initial wealth. */
  lemma SecondSessionStartsElsewhere()
    ensures Tick(Uniform(INITIAL_WEALTH, N_AGENTS), seq(N_AGENTS, _ => 0)) != Uniform(INITIAL_WEALTH, N_AGENTS)
  {
    TickMovesUniform(INITIAL_WEALTH, N_AGENTS);
  }

  /** The group callback: no update before the group button was clicked, before
      any step, or for a cutoff other than 90, 75, 25 and 10; otherwise a mask of
      `n_agents` entries flagging the agents at the band's ranks of the argsort.
      A top band flags agents at least as rich as all others, a bottom band agents
      at most as rich, and the band has exactly its number of ranks. */
  method Group(nClicks: Option<int>, data: Option<Frame>, cutoff: int, order: seq<nat>)
    returns (r: Outcome<seq<bool>>)
    requires data.Some? ==> |data.value.x| == N_AGENTS && IsArgsort(data.value.x, order)
    ensures r == NoUpdate <==> nClicks.None? || data.None? || BandOf(cutoff, N_AGENTS).None?
    ensures r != Fault
    ensures r.Update? ==> |r.value| == N_AGENTS
    ensures r.Update? && BandOf(cutoff, N_AGENTS).value.Top? ==>
      var from := BandOf(cutoff, N_AGENTS).value.from;
      && r.value == RankMask(order, N_AGENTS, from, N_AGENTS)
      && CountTrue(r.value) == N_AGENTS - from
      && forall a, b :: (0 <= a < N_AGENTS && 0 <= b < N_AGENTS && r.value[a] && !r.value[b])
                        ==> data.value.x[b] <= data.value.x[a]
    ensures r.Update? && BandOf(cutoff, N_AGENTS).value.Bottom? ==>
      var count := BandOf(cutoff, N_AGENTS).value.count;
      && r.value == RankMask(order, N_AGENTS, 0, count)
      && CountTrue(r.value) == count
      && forall a, b :: (0 <= a < N_AGENTS && 0 <= b < N_AGENTS && r.value[a] && !r.value[b])
                        ==> data.value.x[a] <= data.value.x[b]
  {
    if nClicks.None? || data.None? {
      return NoUpdate;
    }
    var x := data.value.x;
    match BandOf(cutoff, N_AGENTS)
    case None =>
      r := NoUpdate;
    case Some(Top(from)) =>
      var mask := FlagRanks(order, N_AGENTS, from, N_AGENTS);
      TopGroupIsRichest(x, order, from);
      r := Update(mask);
    case Some(Bottom(count)) =>
      var mask := FlagRanks(order, N_AGENTS, 0, count);
      BottomGroupIsPoorest(x, order, count);
      r := Update(mask);
  }
}
