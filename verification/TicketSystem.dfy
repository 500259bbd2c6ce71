/** Many tickets, one registry: every interleaving of node runs, signals, deadlines, attempts and restarts. */
module TicketSystem {
  import opened Wrappers
  import opened Tickets
  import opened TicketMapping
  import opened SupportGraph
  import opened ActionRegistry
  import opened TicketWorkflow

  /** Where `run` of a ticket stands. */
  datatype Phase =
    | Invoked(node: Node)                 // inside the first ainvoke, `node` next
    | Interrupted(pending: PendingAction) // the first ainvoke returned an interrupt
    | Paused                              // waiting for a decision
    | Resumed(node: Node)                 // inside the second ainvoke
    | Done
    | Failed                              // an activity used up its attempts, or the run was closed from outside

  /** Attempts of the apply_action activity. `running` attempts may still reach the registry, even when the
      server has given up on them; `live` is the one whose answer is awaited. */
  datatype Attempts = Attempts(started: nat, live: Option<nat>, running: set<nat>, returned: Option<Record>)

  /** `consumed` is the local variable `decision` of `run`. */
  datatype Ticket = Ticket(phase: Phase, values: Values, workflow: Workflow, createdAt: int,
                           consumed: Option<Decision>, attempts: Attempts)

  /** A side effect that really happened, and the worker process it happened in. */
  datatype Effect = Effect(record: Record, process: nat)

  datatype System = System(tickets: map<string, Ticket>, registry: Registry, process: nat, effects: seq<Effect>)

  datatype Step =
    | Begin(id: string, customerId: string, orderId: Option<string>, timeoutHours: int, now: int)
    | RunNode(id: string, answer: Answer)  // the node's activity succeeded, on whatever attempt
    | Pause(id: string)
    | Signal(id: string, decision: Decision)
    | Wake(id: string)
    | Expire(id: string)
    | StartAttempt(id: string)
    | Execute(id: string, attempt: nat)    // a running attempt calls the registry
    | Acknowledge(id: string)              // the live attempt's answer reaches the workflow
    | LoseAttempt(id: string)              // crash, timeout or lost answer
    | Finish(id: string)
    | Abort(id: string)
    | RestartWorker

  function Initial(): System { System(map[], map[], 0, []) }

  function NodeOf(p: Phase): Option<Node> {
    if p.Invoked? || p.Resumed? then Some(p.node) else None
  }

  function At(p: Phase, n: Node): Phase
    requires p.Invoked? || p.Resumed?
  {
    if p.Invoked? then Invoked(n) else Resumed(n)
  }

  predicate EnabledFor(settings: Settings, t: Ticket, step: Step) {
    match step
    case RunNode(_, _) =>
      && NodeOf(t.phase).Some? && NodeOf(t.phase) != Some(ApplyAction) && NodeOf(t.phase) != Some(End)
      && (NodeOf(t.phase) == Some(Approval) ==> t.values.plan.Some? && t.values.draft.Some?)
    case Pause(_) => t.phase.Interrupted?
    case Signal(_, _) => true
    case Wake(_) => t.phase.Paused? && t.workflow.decision.Some?
    case Expire(_) => t.phase.Paused? && t.workflow.decision.None? && Awaited(t.workflow, true).Some?
    case StartAttempt(_) =>
      NodeOf(t.phase) == Some(ApplyAction) && t.attempts.live.None? && t.attempts.started < MAX_ATTEMPTS
    case Execute(_, k) => k in t.attempts.running && t.values.plan.Some?
    case Acknowledge(_) => NodeOf(t.phase) == Some(ApplyAction) && t.attempts.returned.Some? && t.values.draft.Some?
    case LoseAttempt(_) => NodeOf(t.phase) == Some(ApplyAction) && t.attempts.live.Some?
    case Finish(_) => NodeOf(t.phase) == Some(End)
    case Abort(_) => !t.phase.Done? && !t.phase.Failed?
    case _ => false
  }

  predicate Enabled(settings: Settings, s: System, step: Step) {
    match step
    case Begin(id, _, _, _, _) => id !in s.tickets
    case RestartWorker => true
    case _ => step.id in s.tickets && EnabledFor(settings, s.tickets[step.id], step)
  }

  function Fresh(id: string, customerId: string, orderId: Option<string>, timeoutHours: int, now: int): Ticket {
    Ticket(Invoked(Sanitize),
           Values(id, customerId, orderId, None, None, None, None, 0, None, None, None, None),
           Begun(Created(), id, timeoutHours, now), now, None, Attempts(0, None, {}, None))
  }

  /** One node of the graph; the approval node starts over when the run is resumed. */
  function AfterNode(settings: Settings, t: Ticket, node: Node, a: Answer): Ticket
    requires NodeOf(t.phase) == Some(node)
    requires node == Approval ==> t.values.plan.Some? && t.values.draft.Some?
  {
    if node == Approval then
      match ApprovalNode(settings, t.values, t.consumed)
      case Interrupt(p) => t.(phase := Interrupted(p))
      case Update(v) => t.(values := v, phase := At(t.phase, Next(settings, Approval, v)))
    else
      var v := Updated(node, t.values, a);
      t.(values := v, phase := At(t.phase, Next(settings, node, v)))
  }

  /** The ticket after its own step; what the step does to the registry is in `Apply`. */
  function Stepped(settings: Settings, id: string, t: Ticket, step: Step, output: Option<Record>): Ticket
    requires EnabledFor(settings, t, step) && (step.Execute? ==> output.Some?)
  {
    match step
    case RunNode(_, a) => AfterNode(settings, t, t.phase.node, a)
    case Pause(_) =>
      t.(phase := Paused, workflow := PausedAt(t.workflow, id, t.values, t.createdAt, t.phase.pending))
    case Signal(_, d) => t.(workflow := Submitted(t.workflow, d))
    case Wake(_) => t.(phase := Resumed(Approval), consumed := Awaited(t.workflow, false))
    case Expire(_) => t.(phase := Resumed(Approval), consumed := Awaited(t.workflow, true))
    case StartAttempt(_) =>
      var k := t.attempts.started + 1;
      t.(attempts := Attempts(k, Some(k), t.attempts.running + {k}, None))
    case Execute(_, k) =>
      t.(attempts := t.attempts.(running := t.attempts.running - {k},
                                 returned := if t.attempts.live == Some(k) then output else t.attempts.returned))
    case Acknowledge(_) =>
      t.(values := Applied(t.values, t.attempts.returned.value), phase := At(t.phase, End),
         attempts := t.attempts.(live := None, returned := None))
    case LoseAttempt(_) =>
      t.(attempts := t.attempts.(live := None, returned := None),
         phase := if t.attempts.started == MAX_ATTEMPTS then Failed else t.phase)
    case Finish(_) => t.(phase := Done, workflow := Finished(t.workflow, id, t.values, t.createdAt))
    case Abort(_) => t.(phase := Failed)
    case _ => t
  }

  /** A restart kills every running attempt; what they returned but did not deliver is lost too. */
  function Killed(t: Ticket): Ticket {
    t.(attempts := t.attempts.(running := {}, returned := None))
  }

  function ActionOf(t: Ticket): string
    requires t.values.plan.Some?
  {
    Name(t.values.plan.value.action)
  }

  function Apply(settings: Settings, s: System, step: Step): System
    requires Enabled(settings, s, step)
  {
    match step
    case Begin(id, customerId, orderId, hours, now) =>
      s.(tickets := s.tickets[id := Fresh(id, customerId, orderId, hours, now)])
    case RestartWorker =>
      System(map id | id in s.tickets :: Killed(s.tickets[id]), map[], s.process + 1, s.effects)
    case Execute(id, _) =>
      var t := s.tickets[id];
      var (registry, output) := ActionRegistry.Execute(s.registry, id, ActionOf(t), ActionArguments(t.values));
      System(s.tickets[id := Stepped(settings, id, t, step, Some(output))], registry, s.process,
             if Key(id, ActionOf(t)) in s.registry then s.effects else s.effects + [Effect(output, s.process)])
    case _ => s.(tickets := s.tickets[step.id := Stepped(settings, step.id, s.tickets[step.id], step, None)])
  }

  // ---- What holds of every ticket.

  function ApprovalText(v: Values): string
    requires v.draft.Some?
  {
    APPROVED + v.draft.value
  }

  /** The record the action of this ticket produces. */
  function RecordOf(v: Values): Record
    requires v.plan.Some?
  {
    NewRecord(v.ticketId, Name(v.plan.value.action), ActionArguments(v))
  }

  predicate Decided(v: Values, d: Decision)
    requires v.plan.Some? && v.draft.Some?
  {
    if d.approve then
      v.status == Some(Completed) && v.finalAnswer == Some(ApprovalText(v)) && v.actionResult == Some(RecordOf(v))
    else v.status == Some(Rejected) && v.finalAnswer == Some(RejectionText(v, d))
  }

  predicate Undecided(v: Values) { v.status == None && v.finalAnswer == None }

  predicate Ready(node: Node, v: Values) {
    && (Rank(node) <= Rank(ExecuteReadTools) ==> v.plan.Some?)
    && (Rank(node) <= Rank(Reflect) ==> v.draft.Some?)
  }

  /** The run has been paused: everything the reviewer sees is settled. */
  predicate Gated(settings: Settings, v: Values) {
    v.plan.Some? && v.draft.Some? && NeedsApproval(settings, v)
  }

  /** The published state while a decision is pending. */
  predicate ShowsPause(t: Ticket)
    requires t.values.plan.Some? && t.values.draft.Some?
  {
    && t.workflow.state.status == WaitingApproval && t.workflow.state.pending == Some(Shown(t.values))
    && t.workflow.state.citations == Citations(t.values.draft)
  }

  /** The decision taken is the latched one, or the system's when a deadline passed with none latched. */
  predicate Justified(w: Workflow, d: Decision) {
    w.decision == Some(d) || (d == TIMED_OUT && w.timeoutHours != 0)
  }

  predicate PhaseOk(settings: Settings, t: Ticket) {
    var v, w := t.values, t.workflow;
    match t.phase
    case Invoked(n) =>
      && t.consumed == None && w.decision == None && w.state.status == Running && w.state.pending == None
      && v.approval == None && n != ApplyAction && Ready(n, v)
      && (n != End ==> Undecided(v))
      && (n == End ==> !NeedsApproval(settings, v) && v.status == Some(Completed) && v.finalAnswer == v.draft)
    case Interrupted(p) =>
      && t.consumed == None && w.decision == None && w.state.status == Running && w.state.pending == None
      && v.approval == None && Gated(settings, v) && p == Shown(v) && Undecided(v)
    case Paused =>
      t.consumed == None && v.approval == None && Gated(settings, v) && Undecided(v) && ShowsPause(t)
    case Resumed(n) =>
      && Gated(settings, v) && ShowsPause(t) && t.consumed.Some? && Justified(w, t.consumed.value)
      && (n == Approval || n == ApplyAction || n == End)
      && (n == Approval ==> v.approval == None && Undecided(v))
      && (n == ApplyAction ==> v.approval == t.consumed && t.consumed.value.approve && Undecided(v))
      && (n == End ==> v.approval == t.consumed && Decided(v, t.consumed.value))
    case Done =>
      && v.plan.Some? && v.draft.Some? && w.state == ToRunState(v.ticketId, Some(v), Some(t.createdAt), None)
      && v.approval == t.consumed
      && (NeedsApproval(settings, v) <==> t.consumed.Some?)
      && (if t.consumed.Some? then Justified(w, t.consumed.value) && Decided(v, t.consumed.value)
          else v.status == Some(Completed) && v.finalAnswer == v.draft)
    case Failed =>
      && (w.state.status == Running ==> w.state.pending == None)
      && (w.state.status == WaitingApproval ==> w.state.pending.Some?)
      && (w.state.status == Running || w.state.status == WaitingApproval)
      && (v.approval.Some? ==> v.approval == t.consumed && Gated(settings, v) && Justified(w, t.consumed.value)
                               && w.state.pending == Some(Shown(v)))
  }

  predicate IsApproved(v: Values) { v.approval.Some? && v.approval.value.approve && v.plan.Some? }

  predicate AttemptsOk(t: Ticket) {
    var a := t.attempts;
    && a.started <= MAX_ATTEMPTS
    && (a.live.Some? ==> a.live.value == a.started)
    && (NodeOf(t.phase) == Some(ApplyAction) && a.live.None? ==> a.started < MAX_ATTEMPTS)
    && (a.started > 0 ==> IsApproved(t.values))
    && (a.returned.Some? ==> a.live.Some? && IsApproved(t.values) && a.returned.value == RecordOf(t.values))
  }

  predicate TicketOk(settings: Settings, id: string, t: Ticket) {
    && t.values.ticketId == id && PhaseOk(settings, t) && AttemptsOk(t)
    && (forall k :: k in t.attempts.running ==> 1 <= k <= t.attempts.started)
  }

  lemma FreshOk(settings: Settings, id: string, customerId: string, orderId: Option<string>, hours: int, now: int)
    ensures TicketOk(settings, id, Fresh(id, customerId, orderId, hours, now))
  {}

  lemma NodeOk(settings: Settings, id: string, t: Ticket, step: Step)
    requires TicketOk(settings, id, t) && EnabledFor(settings, t, step) && step.RunNode?
    ensures TicketOk(settings, id, Stepped(settings, id, t, step, None))
  {}

  lemma SteppedOk(settings: Settings, id: string, t: Ticket, step: Step, output: Option<Record>)
    requires TicketOk(settings, id, t) && EnabledFor(settings, t, step)
    requires step.Execute? ==> output.Some? && IsApproved(t.values) && output.value == RecordOf(t.values)
    ensures TicketOk(settings, id, Stepped(settings, id, t, step, output))
  {
    if step.RunNode? { NodeOk(settings, id, t, step); }
  }
}
