/** The step callback's logic, shared by both dashboards: given the vector the
    step starts from, the answer and the new stores. */
module Session {
  import opened Reply
  import opened Wealth
  import opened Summary
  import opened Store
  /** The step callback's answer for a wealth vector `x` of `nAgents` agents taken
      from the store (or from the initial data): no update while nothing was
      clicked and the timer is paused; otherwise one tick, its summary appended to
      the history, the new store with the agents plotted at `labels`, and the
      iteration count `n_clicks + n_intervals`, which fails when the step button
      was never clicked. */
  function StepReply(nAgents: nat, maxIntervals: int, nIntervals: int, nClicks: Option<int>, x: seq<int>, labels: seq<int>,
                     quantiles: Option<History>, draws: seq<nat>): Outcome<StepOutput>
    requires |x| == nAgents && nAgents <= |draws| && ValidDraws(draws, nAgents)
  {
    if nClicks.None? && maxIntervals == 0 then NoUpdate
    else if nClicks.None? then Fault
    else Update(Ticked(nAgents, x, labels, quantiles, draws, nClicks.value + nIntervals))
  }

  /** The outputs of a step that ticks: the summary of the ticked vector, the
      iteration count, the new store and the history with the summary appended. */
  function Ticked(nAgents: nat, x: seq<int>, labels: seq<int>, quantiles: Option<History>, draws: seq<nat>,
                  iterations: int): StepOutput
    requires |x| == nAgents && nAgents <= |draws| && ValidDraws(draws, nAgents)
  {
    var next := Tick(x, draws);
    var q := GetQuantiles(next, nAgents);
    StepOutput(q.bottom50, q.top10, iterations, Frame(next, labels), Record(quantiles, q))
  }

  /** A ticking step keeps the agents and their total wealth, keeps wealth
      non-negative, shows figures within the total, and appends exactly those
      figures to the history. */
  lemma TickedKeepsInvariants(nAgents: nat, x: seq<int>, labels: seq<int>, quantiles: Option<History>,
                              draws: seq<nat>, iterations: int)
    requires |x| == nAgents && nAgents <= |draws| && ValidDraws(draws, nAgents)
    ensures var out := Ticked(nAgents, x, labels, quantiles, draws, iterations);
      && |out.data.x| == nAgents && Sum(out.data.x) == Sum(x)
      && (NonNegative(x) ==> NonNegative(out.data.x) && 0 <= out.bottom50 && 0 <= out.top10
                             && out.bottom50 + out.top10 <= Sum(x))
      && out.data.y == labels
      && out.iterations == iterations
      && out.history.bottom50 == (if quantiles.Some? then quantiles.value.bottom50 else []) + [out.bottom50]
      && out.history.top10 == (if quantiles.Some? then quantiles.value.top10 else []) + [out.top10]
  {
    var h := Ticked(nAgents, x, labels, quantiles, draws, iterations).history;
    TickConserves(x, draws);
    if NonNegative(x) {
      TickNonNegative(x, draws);
    }
    assert h.bottom50 == h.bottom50[..|h.bottom50| - 1] + [h.bottom50[|h.bottom50| - 1]];
    assert h.top10 == h.top10[..|h.top10| - 1] + [h.top10[|h.top10| - 1]];
  }

  /** What a step guarantees: it updates exactly when the step button was clicked;
      the new vector has the same agents and the same total wealth, and stays
      non-negative; the figures shown are those appended to the history, which
      grows by one entry per series and keeps the earlier entries. */
  lemma StepReplyKeepsInvariants(nAgents: nat, maxIntervals: int, nIntervals: int, nClicks: Option<int>, x: seq<int>, labels: seq<int>,
                                 quantiles: Option<History>, draws: seq<nat>)
    requires |x| == nAgents && nAgents <= |draws| && ValidDraws(draws, nAgents)
    ensures StepReply(nAgents, maxIntervals, nIntervals, nClicks, x, labels, quantiles, draws) == NoUpdate
            <==> nClicks.None? && maxIntervals == 0
    ensures StepReply(nAgents, maxIntervals, nIntervals, nClicks, x, labels, quantiles, draws).Update? <==> nClicks.Some?
    ensures nClicks.Some? ==>
      var out := StepReply(nAgents, maxIntervals, nIntervals, nClicks, x, labels, quantiles, draws).value;
      && |out.data.x| == nAgents && Sum(out.data.x) == Sum(x)
      && (NonNegative(x) ==> NonNegative(out.data.x) && 0 <= out.bottom50 && 0 <= out.top10
                             && out.bottom50 + out.top10 <= Sum(x))
      && out.data.y == labels
      && out.iterations == nClicks.value + nIntervals
      && out.history.bottom50 == (if quantiles.Some? then quantiles.value.bottom50 else []) + [out.bottom50]
      && out.history.top10 == (if quantiles.Some? then quantiles.value.top10 else []) + [out.top10]
  {
    if nClicks.Some? {
      TickedKeepsInvariants(nAgents, x, labels, quantiles, draws, nClicks.value + nIntervals);
    }
  }

  /** The step callback past its guard: the tick runs in place on `newX`, then the
      summary, the history and the answer are computed from the ticked list. */
  method TickAndReply(nAgents: nat, maxIntervals: int, nIntervals: int, nClicks: Option<int>, newX: array<int>,
                      labels: seq<int>, quantiles: Option<History>, draws: seq<nat>) returns (r: Outcome<StepOutput>)
    requires !(nClicks.None? && maxIntervals == 0)
    requires newX.Length == nAgents && nAgents <= |draws| && ValidDraws(draws, nAgents)
    modifies newX
    ensures newX[..] == Tick(old(newX[..]), draws)
    ensures r == StepReply(nAgents, maxIntervals, nIntervals, nClicks, old(newX[..]), labels, quantiles, draws)
  {
    var _ := TickInPlace(newX, draws);
    var next := newX[..];
    var q := GetQuantiles(next, nAgents);
    var history := Record(quantiles, q);
    if nClicks.None? {
      return Fault;
    }
    r := Update(StepOutput(q.bottom50, q.top10, nClicks.value + nIntervals, Frame(next, labels), history));
  }
}
