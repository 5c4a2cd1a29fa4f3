/** The status columns. */
module Statuses {
  datatype FileStatus = Uploading | Pending | Processing | Ready | Failed
  datatype BatchStatus = BatchPending | BatchProcessing | BatchCompleted | BatchFailed
}
