/** The states of reviewed work (`review::Status`). */
module Statuses {
  datatype Status =
    | Preparing | Pending | Approved | Sending
    | ResponseReceived | GraphqlError | Denied | Expired | Cancelled | Blocked | UpstreamError | Unknown
}
