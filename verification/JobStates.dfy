/** The job states shared by the scheduler and the agent protocol. */
module JobStates {

  // NoState is the value 0 that deleteJob stores and that addJob uses while a job enters the table.
  datatype JobState = NoState | Running | Pending | Deferred | Holding | Completed | Exited | Unknown
}
