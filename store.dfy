/** What the dashboard keeps in its client-side stores and what the step callback
    answers with. */
module Store {
  import opened Summary

  /** The `data` store: the agents' wealth `x` and the labels `y` they are plotted at. */
  datatype Frame = Frame(x: seq<int>, y: seq<int>)

  /** The step callback's outputs: the two figures of the new vector, the iteration
      count, the new `data` store and the new `quantiles` store. */
  datatype StepOutput = StepOutput(bottom50: int, top10: int, iterations: int, data: Frame, history: History)
}
