/** What a request handler answers, reduced to what the handlers decide:
    the HTTP status and, where the body carries them, the batch counts or
    the values read. Messages, timings and JSON encoding are not modelled. */
module Replies {
  import opened Wrappers
  import opened Values
  import opened Driver

  datatype Reply =
    | Plain(status: nat)
    | Partial(status: nat, written: nat, failed: nat)
    | Data(status: nat, data: map<Tag, Option<Value>>)

  /** The reply of one request, the connection flag after it, and the
      driver calls it made (sleeps included), in order. */
  datatype Outcome = Outcome(reply: Reply, connected: bool, calls: seq<Call>)
}
