/** The completion service as the core sees it: a request made of a model id,
    a role-tagged message list, a temperature and an output-token cap, answered
    by generated text or by an error. The network client itself is not part of
    this model; the service is an oracle passed in by the caller. */
module Completion {
  import opened Wrappers

  datatype Role = System | User | Assistant

  datatype ChatMessage = ChatMessage(role: Role, content: string)

  /** The two sampling temperatures the system ever sends: 0.2 and 0.4. */
  datatype Temperature = PointTwo | PointFour

  datatype Request = Request(model: string, messages: seq<ChatMessage>, temperature: Temperature, maxTokens: nat)

  /** The service: the reply text (already stripped by the client) or the
      message of the error it raised. */
  type Service = Request -> Result<string, string>

  /** A request made of one system message followed by one user message, the
      only shape the core sends. */
  function SystemUserRequest(model: string, system: string, user: string, temperature: Temperature, maxTokens: nat): (r: Request)
    ensures r.model == model && r.temperature == temperature && r.maxTokens == maxTokens
    ensures |r.messages| == 2
    ensures r.messages[0] == ChatMessage(System, system) && r.messages[1] == ChatMessage(User, user)
  {
    Request(model, [ChatMessage(System, system), ChatMessage(User, user)], temperature, maxTokens)
  }

  /** What a run of calls made, one after the other, stopping at the first
      failure: the requests actually sent and either every reply, in order, or
      the first error. */
  datatype CallLog = CallLog(calls: seq<Request>, outcome: Result<seq<string>, string>)

  /** Python's `[call(r) for r in reqs]` where a raised error aborts the rest. */
  function CallEach(service: Service, reqs: seq<Request>): (log: CallLog)
    ensures log.calls <= reqs
    ensures log.outcome.Ok? <==> forall i :: 0 <= i < |reqs| ==> service(reqs[i]).Ok?
    ensures log.outcome.Ok? ==>
      && log.calls == reqs
      && |log.outcome.value| == |reqs|
      && forall i :: 0 <= i < |reqs| ==> service(reqs[i]) == Ok(log.outcome.value[i])
    ensures log.outcome.Err? ==>
      && log.calls != []
      && service(log.calls[|log.calls| - 1]) == Err(log.outcome.error)
      && forall i :: 0 <= i < |log.calls| - 1 ==> service(log.calls[i]).Ok?
  {
    if reqs == [] then CallLog([], Ok([]))
    else
      var prev := CallEach(service, reqs[..|reqs| - 1]);
      var r := reqs[|reqs| - 1];
      if prev.outcome.Err? then prev
      else
        match service(r)
        case Ok(v) => CallLog(prev.calls + [r], Ok(prev.outcome.value + [v]))
        case Err(e) => CallLog(prev.calls + [r], Err(e))
  }

  /** A single call: the one request is sent and its reply or error is the
      outcome. */
  function CallOnce(service: Service, req: Request): (log: CallLog)
    ensures log.calls == [req]
    ensures log.outcome.Ok? <==> service(req).Ok?
    ensures log.outcome.Ok? ==> log.outcome.value == [service(req).value]
    ensures log.outcome.Err? ==> log.outcome.error == service(req).error
  {
    var log := CallEach(service, [req]);
    assert [req][..0] == [];
    log
  }

  /** Once a prefix of the calls has failed, the later requests are never sent. */
  lemma {:induction false} CallEachStopsAtFailure(service: Service, reqs: seq<Request>, k: nat)
    requires k <= |reqs| && CallEach(service, reqs[..k]).outcome.Err?
    ensures CallEach(service, reqs) == CallEach(service, reqs[..k])
  {
    if k < |reqs| {
      assert reqs[..|reqs| - 1][..k] == reqs[..k];
      CallEachStopsAtFailure(service, reqs[..|reqs| - 1], k);
    } else {
      assert reqs[..k] == reqs;
    }
  }

  /** The first failing call decides the log: every request up to and
      including it is sent, none after it, and its error is the outcome. */
  lemma CallEachFailsAt(service: Service, reqs: seq<Request>, k: nat)
    requires k < |reqs| && service(reqs[k]).Err?
    requires forall i :: 0 <= i < k ==> service(reqs[i]).Ok?
    ensures CallEach(service, reqs) == CallLog(reqs[..k + 1], Err(service(reqs[k]).error))
  {
    var prefix := reqs[..k + 1];
    assert prefix[..k] == reqs[..k];
    assert forall i :: 0 <= i < k ==> service(reqs[..k][i]).Ok?;
    assert CallEach(service, prefix).outcome.Err?;
    CallEachStopsAtFailure(service, reqs, k + 1);
  }
}
