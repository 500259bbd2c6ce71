/** The gateway's side of a decision: it reads the run's state, then signals; the two can race. */
module Gateway {
  import opened Wrappers
  import opened Tickets
  import opened TicketWorkflow
  import opened SupportGraph

  datatype Error = NotFound | NotAwaiting | QueryFailed | SignalFailed

  /** Whether a decision is passed on, given what the query answered. */
  predicate PassesOn(query: Result<RunState, Error>) {
    query.Ok? && query.value.status == WaitingApproval
  }

  class TemporalService {
    const approvalTimeoutHours: int
    const executionTimeout: int // seconds, 0 for unlimited

    constructor (hours: int)
      ensures approvalTimeoutHours == hours && executionTimeout == ExecutionTimeout(hours)
      ensures executionTimeout == if hours == 0 then 0 else (hours + 1) * 3600
    {
      var timeout := hours * 3600 + 3600;
      if hours == 0 { timeout := 0; }
      approvalTimeoutHours, executionTimeout := hours, timeout;
    }

    /** `query` is what the state query answered and `delivered` whether the service took the signal.
        A decision is passed on exactly when the state read was waiting; its sender is told of success
        exactly when it was passed on and taken, whatever the run then makes of it. */
    method Decide(ticketId: string, d: Decision, query: Result<RunState, Error>, delivered: bool)
      returns (reply: Result<RunState, Error>, sent: Option<Decision>)
      ensures sent.Some? <==> PassesOn(query)
      ensures sent.Some? <==> query.Ok? && query.value.status == WaitingApproval
      ensures sent.Some? ==> sent.value == d
      ensures reply.Ok? <==> sent.Some? && delivered
      ensures reply.Ok? ==> reply.value == RunState(ticketId, Running, None, None, None, [], None)
      ensures query.Err? ==> reply == Err(query.error)
      ensures query.Ok? && sent.None? ==> reply == Err(NotAwaiting)
      ensures sent.Some? && !delivered ==> reply == Err(SignalFailed)
    {
      if query.Err? { return Err(query.error), None; }
      if query.value.status != WaitingApproval { return Err(NotAwaiting), None; }
      if !delivered { return Err(SignalFailed), Some(d); }
      return Ok(Blank(ticketId, None)), Some(d);
    }
  }
}
