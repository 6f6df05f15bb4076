/**
 * How a report of the agent reaches the server and what the answer means for it
 * (agent/borg_ui_agent/client.py): the retry loop around one request, and the classification of
 * what it raised.
 */
module AgentRequests {
  import opened Wrappers

  datatype Body = Empty | Json | Garbled
  datatype Attempt = Answered(status: int, body: Body) | NetworkError

  /** What a request raises: the client's own error, with the HTTP status if the server answered,
      or the error of a body that could not be read. */
  datatype RequestError = ClientError(status: Option<int>) | UndecodableBody

  datatype Answer = Accepted | Unanswered | Retry | Settled | Refusal

  const SETTLED_STATUS_CODES := {404, 409}
  const RETRYABLE_STATUS_CODES := {401, 403, 408, 429}

  /** `report_answer`. */
  function ReportAnswer(e: RequestError): Answer {
    if !e.ClientError? || e.status.None? then Unanswered
    else
      var code := e.status.value;
      if code >= 500 || code in RETRYABLE_STATUS_CODES then Retry
      else if code in SETTLED_STATUS_CODES || code < 400 then Settled
      else Refusal
  }

  function AnswerTo(r: Result<(), RequestError>): Answer {
    if r.Success? then Accepted else ReportAnswer(r.error)
  }

  predicate Conclusive(a: Attempt) {
    a.Answered? && a.status < 500
  }

  /** `n` is the attempt that decides: the first conclusive one, else the last. */
  predicate Decides(attempts: seq<Attempt>, n: nat) {
    && n < |attempts|
    && (Conclusive(attempts[n]) || n == |attempts| - 1)
    && forall i :: 0 <= i < n ==> !Conclusive(attempts[i])
  }

  /** What the deciding attempt means: no answer to a lost request or an unreadable acceptance, a
      later attempt after a server error, authentication or rate limit, and so on. */
  function Meaning(a: Attempt): Answer {
    if a.NetworkError? then Unanswered
    else if a.status < 400 then if a.body == Garbled then Unanswered else Accepted
    else if a.status in {404, 409} then Settled
    else if a.status >= 500 || a.status in {401, 403, 408, 429} then Retry
    else Refusal
  }

  class AgentClient {
    const hasToken: bool
    const maxReportAttempts: nat

    constructor (hasToken: bool, maxReportAttempts: int)
      ensures this.hasToken == hasToken && this.maxReportAttempts >= 1
      ensures maxReportAttempts >= 1 ==> this.maxReportAttempts == maxReportAttempts
    {
      this.hasToken := hasToken;
      this.maxReportAttempts := if maxReportAttempts < 1 then 1 else maxReportAttempts;
    }

    /** `_request`, where `network` is what each attempt would meet; `sent` requests went out. */
    method Request(network: seq<Attempt>) returns (r: Result<(), RequestError>, sent: nat)
      requires |network| == maxReportAttempts >= 1
      ensures !hasToken ==> sent == 0 && AnswerTo(r) == Unanswered
      ensures hasToken ==> sent >= 1 && Decides(network, sent - 1) && AnswerTo(r) == Meaning(network[sent - 1])
      ensures forall i :: 0 <= i < sent - 1 ==> network[i].NetworkError? || network[i].status >= 500
      ensures hasToken && sent < maxReportAttempts ==> network[sent - 1].Answered? && network[sent - 1].status < 500
    {
      sent := 0;
      if !hasToken {
        return Failure(ClientError(None)), 0;
      }
      var response: Option<Attempt> := None;
      while sent < maxReportAttempts
        invariant 0 <= sent <= maxReportAttempts
        invariant forall i :: 0 <= i < sent ==> !Conclusive(network[i])
        invariant sent < maxReportAttempts || sent == 0
      {
        var attempt := network[sent];
        sent := sent + 1;
        if attempt.NetworkError? {
          if sent < maxReportAttempts {
            continue;
          }
          return Failure(ClientError(None)), sent;
        }
        response := Some(attempt);
        if attempt.status < 500 || sent == maxReportAttempts {
          break;
        }
      }
      if response.value.status >= 400 {
        return Failure(ClientError(Some(response.value.status))), sent;
      }
      if response.value.body == Garbled {
        return Failure(UndecodableBody), sent;
      }
      return Success(()), sent;
    }
  }
}
