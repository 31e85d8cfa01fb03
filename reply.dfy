/** Values passed between the dashboard's callbacks and what a callback answers. */
module Reply {

  /** A store or input that may be empty (`None` in the dashboard's state). */
  datatype Option<+T> = None | Some(value: T)

  /** What a callback answers: it prevents the update, fails with an exception,
      or updates its outputs with `value`. */
  datatype Outcome<+T> = NoUpdate | Fault | Update(value: T)
}
