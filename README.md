# Yard-sale wealth dashboards, modelled in Dafny

The repository holds near-duplicate Dash dashboards (`app.py`, `app3.py`) around a
toy "yard-sale" economy. Every agent starts with the same wealth. On each tick,
every agent with positive wealth gives one unit away. As many units are then
handed out, one at a time, to agents drawn at random from the whole population.
The dashboards show two figures for the sorted wealth vector: the wealth of the
poorest half and of the richest tenth. They keep a history of both figures, and
can highlight an income group (top 10 %, top 25 %, bottom 25 %, bottom 10 %) by rank.

This project models that logic and proves its properties:

- `reply.dfy` (`Reply`): `Option` for empty stores. `Outcome` is what a callback
  answers: `NoUpdate` (the callback raises `PreventUpdate`), `Fault` (it raises
  any other exception) or `Update(value)`.
- `wealth.dfy` (`Wealth`): the tick. `Tick` is its specification as a function
  (the first loop is `Debit`, the second `Credit`). `TickInPlace` is the two loops
  over an array, as the callback runs them on the stored list.
- `summary.dfy` (`Summary`): the ascending sort, the quantile summary
  `GetQuantiles`, and the append-only history (`Record`, `Replay`).
- `ranking.dfy` (`Ranking`): argsort as a predicate (`IsArgsort`), the band a cutoff
  selects (`BandOf`), and the flagging loop (`FlagRanks`).
- `playback.dfy` (`Playback`): the play button, which toggles the timer's
  `max_intervals` between 0 (paused) and -1 (playing). `app.py` and `app3.py` hold
  the same callback.
- `store.dfy` and `session.dfy` (`Store`, `Session`): the stored frame, the step
  callback's outputs, and the step's answer (`StepReply`). Both dashboards share
  these, parameterised by the agent count and by the labels the new frame carries.
- `dash_app.dfy` (`DashApp`, for `app.py`: 100 agents) and `dash_app3.dfy`
  (`DashApp3`, for `app3.py`: 200 agents). Each has a class `Dashboard` for the
  module-level `initial_data` wealth list, the step callback, and the group callback.

The random generator is an input. `draws` lists, in call order, the values that
`random.randint(0, n_agents - 1)` returns. A tick uses the first `k` of them,
where `k` is the number of benefactors. A step asks for at least `n_agents`
draws, the most a tick can use. `numpy.sort` is modelled by an insertion sort.
`SortIsUnique` shows that every sorted permutation of a vector is that sort, so no
result depends on how ties are ordered. `numpy.argsort` is an input `order`
constrained by `IsArgsort`. Any order of equal values is allowed, because numpy's
default sort is not stable. The group lemmas hold for every such order.

Where the design text and the code differ, the model follows the code:

- Grouping ties are not broken by index order. The code uses numpy's default
  argsort, so tie order is unspecified.
- An empty or negative wealth vector is not rejected. The code has no such check.
- The quantile cut points come from the configured `n_agents`, not from the
  vector's length. They are clamped to the length the way Python slices are.

## Model

| member | source | states |
|---|---|---|
| `Wealth.Benefactors` | app.py:271-276 | the benefactor count never exceeds the number of agents, so a tick never draws more recipients than there are agents |
| `Wealth.BenefactorsArePositive` | app.py:273-276 | the count `k` from the first loop is exactly the number of agents whose wealth is strictly positive |
| `Wealth.DebitSum` | app.py:273-276 | the first loop removes exactly one unit per benefactor from the total |
| `Wealth.Credit` | app.py:277-278 | the second loop keeps the number of agents |
| `Wealth.CreditAt` | app.py:277-278 | after the second loop, each agent has gained one unit per draw that names it |
| `Wealth.CreditSum` | app.py:277-278 | the second loop adds exactly one unit per draw to the total |
| `Wealth.Tick` | app.py:271-278 | a tick keeps the vector's length |
| `Wealth.TickAt` | app.py:271-278 | after a tick, an agent holds its old wealth, minus one exactly when that wealth was positive, plus the number of the first `k` draws naming it |
| `Wealth.TickConserves` | app.py:271-278 | a tick conserves total wealth |
| `Wealth.TickSparesThePoor` | app.py:273-276 | an agent without positive wealth is never decremented; a tick can only add to it |
| `Wealth.TickNonNegative` | app.py:273-278 | a tick keeps every agent's wealth non-negative |
| `Wealth.TickFixesZero` | app.py:271-278 | an all-zero vector has no benefactors and is unchanged by a tick, whatever the draws |
| `Wealth.TickMovesUniform` | app.py:271-278 | a tick can change a uniform vector: with every draw naming agent 0, agent 1 loses a unit |
| `Wealth.TickInPlace` | app.py:271-278 | the two in-place loops leave the list equal to `Tick` of the old list and return the benefactor count |
| `Wealth.DebitInPlace` | app.py:273-276 | the first loop leaves every positive entry one lower and every other entry unchanged, and counts the benefactors |
| `Wealth.CreditInPlace` | app.py:277-278 | the second loop gives one unit to each drawn agent, in draw order, and changes nothing else |
| `Wealth.SumUniform` | app.py:52-55 | the initial vector of `n_agents` copies of `initial_wealth` sums to `initial_wealth * n_agents` |
| `Wealth.Run` | app3.py:213-220 | any number of ticks keeps the vector's length |
| `Wealth.RunConserves` | app3.py:213-220 | however many ticks run, total wealth is conserved and wealth stays non-negative |
| `Summary.Sort` | app.py:89 | the sort is ascending and has one entry per agent |
| `Summary.SortPermutes` | app.py:89 | the sort is a permutation of the vector and has the same total |
| `Summary.SortIsUnique` | app3.py:80 | every ascending permutation of the vector equals `Sort`, so the summary does not depend on tie order |
| `Summary.GetQuantiles` | app.py:88-92 | for non-negative wealth, the bottom-50 % sum and the top-10 % sum are each non-negative, and together at most the total |
| `Summary.Summarise` | app.py:90-92 | the same bounds for the two slice sums of any vector of non-negative wealth; `GetQuantiles` takes them on the sorted vector |
| `Summary.SplitBounds` | app3.py:81-82 | for non-negative wealth, the slice before `n_agents / 2` and the slice from `n_agents * 9 / 10` are disjoint, so their sums together are at most the total |
| `Summary.BottomHalfAtMostHalf` | app3.py:81 | for non-negative wealth, the poorest `n / 2` agents hold at most half of the total wealth |
| `Summary.SortedBottomHalf` | app3.py:81 | the same bound on the summary of any ascending vector of non-negative wealth |
| `Summary.TopTenthAtLeastShare` | app3.py:82 | for a vector of `n >= 1` agents summarised with `n_agents = n`, the richest `n - n * 9 / 10` agents hold at least their proportional share: `n * top >= (n - n * 9 / 10) * total` |
| `Summary.SortedTopShare` | app3.py:82 | the same share bound on the summary of any ascending vector |
| `Summary.Record` | app.py:281-290 | recording appends one value to each series and keeps every earlier entry; with no history, both series start with that one value |
| `Summary.ReplayHistory` | app3.py:223-232 | after any number of ticks from an empty store, both series hold exactly one entry per tick, in tick order |
| `Ranking.BandOf` | app.py:324-337 | cutoffs 90 and 75 start a top band, and 25 and 10 end a bottom band, at rank `cutoff * n / 100` (floored); any other cutoff selects no band |
| `Ranking.FlagRanks` | app.py:322-335 | the loop's list is false everywhere except at the agents ranked `lo .. hi - 1`, and exactly `hi - lo` agents are flagged |
| `Ranking.TopGroupIsRichest` | app.py:321-329 | in a top band, every flagged agent is at least as rich as every unflagged one, whatever the tie order |
| `Ranking.BottomGroupIsPoorest` | app.py:330-335 | in a bottom band, every flagged agent is at most as rich as every unflagged one, whatever the tie order |
| `Playback.Play` | app.py:302-309 | no update before any click; otherwise the result is paused (0) or playing (-1), and it is paused exactly when the timer was playing |
| `Playback.PlayToggles` | app3.py:243-250 | on the paused and playing states, a click always changes the state, and a second click restores it |
| `Session.TickedKeepsInvariants` | app.py:271-293 | the outputs of a ticking step: the new vector has the same agents, the same total and non-negative wealth; the figures are within the total and are appended to the history; the labels and the iteration count are passed through |
| `Session.StepReplyKeepsInvariants` | app.py:264-295 | no update exactly when there are no clicks and the timer is paused; an update exactly when clicks exist. An update has `n_agents` entries and the same total, stays non-negative, shows figures within the total, counts `n_clicks + n_intervals` iterations, and appends its two figures to the history |
| `Session.TickAndReply` | app3.py:213-237 | past the guard, the tick runs in place on the given list, and the answer is the step's answer for the list as it was |
| `DashApp.Dashboard.constructor` | app.py:47-55 | the initial list gives each of the 100 agents 100 units |
| `DashApp.Dashboard.Step` | app.py:264-295 | answers as `StepReply` for the stored vector (or the initial one), with labels `1 .. n_agents`; the initial data never changes, so an empty store ticks from 100 per agent |
| `DashApp.Dashboard.StepAsWritten` | app.py:269-278 | the same answer, but with an empty store the initial data's own list becomes the ticked vector; it keeps its length, its total and non-negative wealth |
| `DashApp.SecondSessionStartsElsewhere` | app.py:269-272 | one tick on the initial list can leave it different from 100 per agent |
| `DashApp.Group` | app.py:316-339 | no update without a click, data or a known cutoff; otherwise a mask of `n_agents` entries flags the band's ranks, exactly the band's number of agents, richest (top) or poorest (bottom) |
| `DashApp3.TotalWealth` | app3.py:85-87 | `get_total_wealth(w, n)` equals the sum of the initial vector of `n` agents holding `w` |
| `DashApp3.DisplayedTotalHolds` | app3.py:154-157 | after any number of ticks from the initial vector, the agents hold exactly the total on display |
| `DashApp3.Dashboard.constructor` | app3.py:54-57 | the initial list gives each of the 200 agents 100 units |
| `DashApp3.Dashboard.Step` | app3.py:206-237 | answers as `StepReply` for the stored vector (or the initial one), keeping the stored labels `y` (or the initial `1 .. n_agents`); the initial data never changes |
| `DashApp3.Dashboard.StepAsWritten` | app3.py:211-220 | the same answer, but with an empty store the initial data's own list becomes the ticked vector; it keeps its length and the displayed total |
| `DashApp3.SecondSessionStartsElsewhere` | app3.py:211-214 | one tick on the initial list can leave it different from 100 per agent, while it still sums to the displayed total, so the display does not show the drift |
| `DashApp3.Group` | app3.py:257-281 | the mask has one entry per stored agent, and the band boundary comes from `n_agents`. A top band past the vector is empty; a bottom band longer than the vector fails. Otherwise it flags exactly the band, richest or poorest |

## Left out

- The Dash layout, the stores, the interval timer, and the callback wiring.
  A callback is modelled as a
  call, and `PreventUpdate` as `NoUpdate`.
- Figure construction in `update_figure` and `update_quantiles`: the marker
  colours and the `delay` throttling of redraws. They are presentation only.
- `random.randint`: it is replaced by the input sequence `draws`, each value in
  `[0, n_agents)`. No generator and no distribution is modelled.
- `numpy.sort` and `numpy.argsort`: the first is a sort function proved
  ascending and a permutation; the second is any order satisfying `IsArgsort`.
- Float arithmetic in `int(n_agents * 0.9)`, `int(n_agents * 9 / 10)` and
  similar: integer floor division is used. It agrees with the float form for the
  configured 100 and 200 agents.
- The server (`app.run_server(..., threaded=True)`) and the concurrency it allows.
  Two sessions could interleave their ticks on the shared initial list; this is
  not modelled.
- JSON serialisation of the stores: a stored list is modelled as a value, and each
  call gets a fresh copy. The only list that outlives a call is the module-level
  `initial_data`.
- A cleared dropdown (`group` is `None`): it takes the "any other cutoff" branch
  and gives no update. The model takes the cutoff as an integer.
- `simple economy.py`: it is not part of this model.
- DashApp.Group: requires the stored vector to have `n_agents` entries. `Step`
  always keeps that length. With another length the source can fail on an index;
  that failure is not modelled.
- DashApp.Dashboard.Step, DashApp3.Dashboard.Step: require the stored vector to
  have `n_agents` entries, the length every step keeps, and at least `n_agents`
  draws in range.

## Findings

| source | as written | input that shows it | evidently intended | confidence | as-written member | corrected member |
|---|---|---|---|---|---|---|
| app.py:269-278 | `data = data or initial_data` makes `newX` the module-level `initial_data[0]['x']` list itself, and the tick's loops update it in place | a session's first step with an empty `data` store, every draw naming agent 0: the shared initial list becomes 199 for agent 0 and 99 for the others, and the next session whose store is empty starts from that vector | a session with an empty store starts from 100 units per agent, using a copy of the initial data | medium, not executed | `DashApp.Dashboard.StepAsWritten`, `DashApp.SecondSessionStartsElsewhere` | `DashApp.Dashboard.Step` |
| app3.py:211-220 | the same fallback: the first step of each session ticks the module-level `initial_data[0]['x']` in place | as above, with 200 agents | as above | medium, not executed | `DashApp3.Dashboard.StepAsWritten`, `DashApp3.SecondSessionStartsElsewhere` | `DashApp3.Dashboard.Step` |
