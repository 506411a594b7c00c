/** The states of a job, shared by the queue backends. */
module Jobs {
  datatype Status = Queued | Processing | Completed | Failed | DeadLetter | Cancelled
}
