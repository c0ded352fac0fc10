/** Status columns that several components share. */
module Statuses {

  /** The processing status of a source email; `EmailFailed` is its failed status. */
  datatype EmailStatus = Pending | Processing | NeedsReview | Processed | Ignored | EmailFailed

  datatype OperationStatus = Queued | Running | Succeeded | Failed
}
