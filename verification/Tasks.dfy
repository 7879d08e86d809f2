/** The states asynq keeps tasks in, as far as the backend lets them get there. */
module Tasks {

  /** `Archived(failed)`: LastErr is not empty. */
  datatype TaskState = Pending | Active | Completed | Archived(failed: bool)
  {
    predicate Finished() {
      Completed? || Archived?
    }
  }
}
