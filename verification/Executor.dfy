/**
 The HTTP check: how the outcome of one request becomes a result. The network itself is an
 input, the `Reply`.
*/
module Executor {
  import opened SortedSet

  /** The parts of a monitor that the check reads. */
  datatype Target = Target(id: Id, expectedStatus: int, latencyThreshold: int)

  /** What `errors.Is` and `errors.As` say about a client error. */
  datatype ClientError = ClientError(deadlineExceeded: bool, dns: bool, net: bool, timeout: bool)

  datatype Reply =
    | BadRequest                             // the request could not be built
    | NoResponse(err: ClientError)
    | Response(code: int, elapsed: nat)

  datatype HTTPResult = HTTPResult(
    id: Id, success: bool, status: int, latency: int, reason: string, retryable: bool, intervalSec: nat)

  function ClassifyError(e: ClientError): (string, bool) {
    if e.deadlineExceeded then ("TIMEOUT", true)
    else if e.dns then ("DNS_FAILURE", false)
    else if e.net then (if e.timeout then "NETWORK_TIMEOUT" else "NETWORK_ERROR", true)
    else ("UNKNOWN_ERROR", true)
  }

  function Check(t: Target, reply: Reply): HTTPResult {
    match reply
    case BadRequest => HTTPResult(t.id, false, 0, 0, "INVALID_REQUEST", false, 0)
    case NoResponse(e) =>
      var (reason, retryable) := ClassifyError(e);
      HTTPResult(t.id, false, 0, 0, reason, retryable, 0)
    case Response(code, elapsed) =>
      HTTPResult(t.id, code == t.expectedStatus && elapsed <= t.latencyThreshold, code, elapsed, "", false, 0)
  }

  /** The test with which the failure handler decides to stop monitoring. */
  predicate IsTerminal(r: HTTPResult) {
    r.reason == "INVALID_REQUEST" || r.reason == "DNS_FAILURE"
  }

  /** What a row of monitor_incidents accepts. */
  predicate Storable(r: HTTPResult) {
    100 <= r.status <= 599 && r.latency >= 0
  }

  /** The handlers' case split, read back to the network: terminal means a bad request or a
      DNS failure that was not a deadline; retryable means every other client error; what
      remains is a response with the wrong status or too slow. Only a response can be stored
      as an incident row, and no result ever carries its monitor's interval. */
  lemma ResultShapes(t: Target, reply: Reply)
    ensures var r := Check(t, reply);
            && (IsTerminal(r) <==>
                  reply.BadRequest? || (reply.NoResponse? && reply.err.dns && !reply.err.deadlineExceeded))
            && (r.retryable <==> reply.NoResponse? && (reply.err.dns ==> reply.err.deadlineExceeded))
            && (r.success ==> reply.Response? && reply.code == t.expectedStatus && reply.elapsed <= t.latencyThreshold)
            && (!r.success && !IsTerminal(r) && !r.retryable ==>
                  reply.Response? && (reply.code != t.expectedStatus || reply.elapsed > t.latencyThreshold))
            && (Storable(r) <==> reply.Response? && 100 <= reply.code <= 599)
            && !(IsTerminal(r) && r.retryable)
            && r.id == t.id && r.intervalSec == 0
            && (if reply.Response? then r.status == reply.code && r.latency == reply.elapsed && r.reason == ""
                else r.status == 0 && r.latency == 0)
            && (r.reason == "TIMEOUT" <==> reply.NoResponse? && reply.err.deadlineExceeded)
            && (r.reason == "DNS_FAILURE" <==> reply.NoResponse? && reply.err.dns && !reply.err.deadlineExceeded)
            && (r.reason == "NETWORK_TIMEOUT" ==> reply.NoResponse? && reply.err.net && reply.err.timeout)
            && (r.reason == "NETWORK_ERROR" ==> reply.NoResponse? && reply.err.net && !reply.err.timeout)
            && (r.reason == "UNKNOWN_ERROR" ==> reply.NoResponse? && !reply.err.net)
  {
  }
}
