/** The five answers a job board can give to a poll. */
module PollOutcomes {
  datatype Outcome = Complete | Partial | Empty | NotModified | DeadSlug
}
