/** The workflow object: the decision signal, the pause and the published state. */
module TicketWorkflow {
  import opened Wrappers
  import opened Tickets
  import opened TicketMapping

  /** The fields of a workflow instance. */
  datatype Workflow = Workflow(state: RunState, decision: Option<Decision>, timeoutHours: int)

  const TIMED_OUT := Decision(false, "system", Some("approval timed out"))

  function Blank(ticketId: string, createdAt: Option<int>): RunState {
    RunState(ticketId, Running, None, None, None, [], createdAt)
  }

  function Created(): Workflow { Workflow(Blank("", None), None, 0) }

  /** `run` up to the first ainvoke. */
  function Begun(w: Workflow, ticketId: string, timeoutHours: int, createdAt: int): Workflow {
    w.(timeoutHours := timeoutHours, state := Blank(ticketId, Some(createdAt)))
  }

  /** The signal handler: only the first decision during the pause is kept. */
  function Submitted(w: Workflow, d: Decision): Workflow {
    if w.state.status != WaitingApproval || w.decision.Some? then w else w.(decision := Some(d))
  }

  /** `run` between the interrupt and the wait. */
  function PausedAt(w: Workflow, ticketId: string, values: Values, createdAt: int, pending: PendingAction): Workflow {
    w.(state := ToRunState(ticketId, Some(values), Some(createdAt), Some(pending)))
  }

  /** `run` after the last ainvoke. */
  function Finished(w: Workflow, ticketId: string, values: Values, createdAt: int): Workflow {
    w.(state := ToRunState(ticketId, Some(values), Some(createdAt), None))
  }

  /** Whether `_await_decision` may stop waiting, and with what: a latched decision at any time,
      the system's rejection once the deadline passes with none. */
  function Awaited(w: Workflow, deadlinePassed: bool): Option<Decision> {
    if w.decision.Some? then w.decision
    else if deadlinePassed && w.timeoutHours != 0 then Some(TIMED_OUT) else None
  }

  class SupportTicketWorkflow {
    var state: RunState
    var decision: Option<Decision>
    var approvalTimeoutHours: int

    constructor ()
      ensures View() == Created()
    {
      state, decision, approvalTimeoutHours := Blank("", None), None, 0;
    }

    function View(): Workflow
      reads this
    {
      Workflow(state, decision, approvalTimeoutHours)
    }

    method SubmitDecision(d: Decision)
      modifies this`decision
      ensures View() == Submitted(old(View()), d)
    {
      if state.status != WaitingApproval || decision.Some? { return; }
      decision := Some(d);
    }

    /** `run`, first part. */
    method Begin(ticketId: string, timeoutHours: int, now: int)
      modifies this`state, this`approvalTimeoutHours
      ensures View() == Begun(old(View()), ticketId, timeoutHours, now)
    {
      approvalTimeoutHours := timeoutHours;
      state := Blank(ticketId, Some(now));
    }

    /** `run`, when the graph came back with an interrupt. */
    method Pause(ticketId: string, values: Values, createdAt: int, pending: PendingAction)
      modifies this`state
      ensures View() == PausedAt(old(View()), ticketId, values, createdAt, pending)
    {
      state := ToRunState(ticketId, Some(values), Some(createdAt), Some(pending));
    }

    /** One check of the wait condition and its timer. */
    method AwaitDecision(deadlinePassed: bool) returns (d: Option<Decision>)
      ensures d == Awaited(View(), deadlinePassed)
    {
      if decision.Some? { return decision; }
      var timed := approvalTimeoutHours != 0;
      return if timed && deadlinePassed then Some(TIMED_OUT) else None;
    }

    /** `run`, last part. */
    method Finish(ticketId: string, values: Values, createdAt: int)
      modifies this`state
      ensures View() == Finished(old(View()), ticketId, values, createdAt)
    {
      state := ToRunState(ticketId, Some(values), Some(createdAt), None);
    }
  }
}
