/** Where a ticket's values come from: its first step, and the last answer each model gave. */
module TicketTraces {
  import opened Wrappers
  import opened Tickets
  import opened TicketMapping
  import opened SupportGraph
  import opened ActionRegistry
  import opened TicketSystem
  import opened TicketRuns
  import opened TicketOutcomes
  import opened TicketProgress

  // ---- The models' answers.

  /** The answer of the last run of `node` for the ticket among the first `n` steps. */
  function LastAnswer(r: Run, n: nat, id: string, node: Node): Option<Answer>
    requires n <= |r.steps| && |r.states| == |r.steps| + 1
  {
    if n == 0 then None
    else if RunsNode(r.states[n - 1], r.steps[n - 1], id, node) then Some(r.steps[n - 1].answer)
    else LastAnswer(r, n - 1, id, node)
  }

  /** The part of the values that a node answers for is what was answered last, if anything. */
  predicate Says(v: Values, node: Node, last: Option<Answer>) {
    match node
    case Classify => v.category == (if last.Some? then Some(last.value.category) else None)
    case MakePlan => v.plan == (if last.Some? then Some(last.value.plan) else None)
    case Draft => v.draft == (if last.Some? then Some(last.value.draft) else None)
    case Reflect => v.passed == (if last.Some? then Some(last.value.passed) else None)
    case _ => true
  }

  predicate SaysIn(s: System, id: string, node: Node, last: Option<Answer>) {
    if id in s.tickets then Says(s.tickets[id].values, node, last) else last == None
  }

  lemma SaysStepped(settings: Settings, id: string, t: Ticket, step: Step, output: Option<Record>, node: Node,
                    last: Option<Answer>)
    requires EnabledFor(settings, t, step) && (step.Execute? ==> output.Some?) && Says(t.values, node, last)
    ensures Says(Stepped(settings, id, t, step, output).values, node,
                 if step.RunNode? && NodeOf(t.phase) == Some(node) then Some(step.answer) else last)
  {}

  lemma SaysStep(settings: Settings, s: System, step: Step, id: string, node: Node, last: Option<Answer>)
    requires Enabled(settings, s, step) && SaysIn(s, id, node, last)
    ensures SaysIn(Apply(settings, s, step), id, node, if RunsNode(s, step, id, node) then Some(step.answer) else last)
  {
    if id in s.tickets {
      if Concerns(step, id) {
        var t := s.tickets[id];
        Own(settings, s, step, id);
        var output := if step.Execute? then Some(Apply(settings, s, step).registry[Key(id, ActionOf(t))]) else None;
        SaysStepped(settings, id, t, step, output, node, last);
      } else {
        Bystander(settings, s, step, id);
      }
    }
  }

  lemma {:induction false} SaysHolds(settings: Settings, r: Run, n: nat, id: string, node: Node)
    requires Valid(settings, r) && n <= |r.steps|
    ensures SaysIn(r.states[n], id, node, LastAnswer(r, n, id, node))
  {
    if n == 0 {
    } else {
      SaysHolds(settings, r, n - 1, id, node);
      assert StepAt(settings, r, n - 1);
      SaysStep(settings, r.states[n - 1], r.steps[n - 1], id, node, LastAnswer(r, n - 1, id, node));
    }
  }

  // ---- The request.

  predicate IsBegin(step: Step, id: string) { step.Begin? && step.id == id }

  /** The ticket is the one that its first step asked for. */
  predicate AsBegun(t: Ticket, step: Step) {
    && step.Begin? && t.values.ticketId == step.id && t.values.customerId == step.customerId
    && t.values.orderId == step.orderId && t.createdAt == step.now && t.workflow.timeoutHours == step.timeoutHours
  }

  lemma AsBegunStepped(settings: Settings, id: string, t: Ticket, step: Step, output: Option<Record>, begin: Step)
    requires EnabledFor(settings, t, step) && (step.Execute? ==> output.Some?) && AsBegun(t, begin)
    ensures AsBegun(Stepped(settings, id, t, step, output), begin)
  {}

  lemma AsBegunStep(settings: Settings, s: System, step: Step, id: string, begin: Step)
    requires Enabled(settings, s, step) && id in s.tickets && AsBegun(s.tickets[id], begin)
    ensures id in Apply(settings, s, step).tickets && AsBegun(Apply(settings, s, step).tickets[id], begin)
  {
    if Concerns(step, id) {
      var t := s.tickets[id];
      Own(settings, s, step, id);
      var output := if step.Execute? then Some(Apply(settings, s, step).registry[Key(id, ActionOf(t))]) else None;
      AsBegunStepped(settings, id, t, step, output, begin);
    } else {
      Bystander(settings, s, step, id);
    }
  }

  /** Every ticket was begun by one step, and is what that step asked for. */
  lemma {:induction false} BegunOnce(settings: Settings, r: Run, n: nat, id: string) returns (b: nat)
    requires Valid(settings, r) && n <= |r.steps| && id in r.states[n].tickets
    ensures b < n && IsBegin(r.steps[b], id) && AsBegun(r.states[n].tickets[id], r.steps[b])
    ensures forall k :: 0 <= k < n && k != b ==> !IsBegin(r.steps[k], id)
  {
    assert StepAt(settings, r, n - 1);
    if id in r.states[n - 1].tickets {
      b := BegunOnce(settings, r, n - 1, id);
      AsBegunStep(settings, r.states[n - 1], r.steps[n - 1], id, r.steps[b]);
    } else {
      b := n - 1;
      UnknownUntouched(settings, r, n - 1, id);
      assert forall k :: 0 <= k < b && IsBegin(r.steps[k], id) ==> Concerns(r.steps[k], id);
    }
  }

  // ---- Where an effect comes from.

  /** Behind a record: the step that began its ticket, the answer that planned its action, and the approval. */
  ghost predicate Traced(r: Run, n: nat, record: Record, id: string, b: nat, i: nat)
    requires n <= |r.steps| && |r.states| == |r.steps| + 1
  {
    && b < i < n && IsBegin(r.steps[b], id) && IsSignal(r.steps[i], id) && r.steps[i].decision.approve
    && id in r.states[i].tickets && r.states[i].tickets[id].workflow.state.status == WaitingApproval
    && record.arguments.customerId == r.steps[b].customerId && record.arguments.orderId == r.steps[b].orderId
    && LastAnswer(r, i, id, MakePlan).Some?
    && var plan := LastAnswer(r, i, id, MakePlan).value.plan;
       record.action == Name(plan.action) && record.arguments.amount == plan.amount
       && record.idempotencyKey == id + ":" + Name(plan.action) && record.result == "accepted"
  }

  lemma RecordTraced(settings: Settings, r: Run, n: nat, record: Record)
    requires Valid(settings, r) && n <= |r.steps| && exists id, i, p :: ApprovedAt(r, n, record, id, i, p)
    ensures exists id, b, i :: Traced(r, n, record, id, b, i)
  {
    var id, i: nat, p :| ApprovedAt(r, n, record, id, i, p);
    SaysHolds(settings, r, i, id, MakePlan);
    var b := BegunOnce(settings, r, i, id);
    assert Traced(r, n, record, id, b, i);
  }

  /** Every effect of a run is the action a model planned for a ticket, on the customer and the order the ticket was
      begun with and for the planned amount, and a reviewer approved it while that ticket was waiting. */
  lemma EffectsTraced(settings: Settings, r: Run, n: nat, e: Effect)
    requires Valid(settings, r) && n <= |r.steps| && e in r.states[n].effects
    ensures exists id, b, i :: Traced(r, n, e.record, id, b, i)
  {
    EffectsWereApproved(settings, r, n);
    RecordTraced(settings, r, n, e.record);
  }

  // ---- What is shown.

  /** The public state of a ticket, stage by stage. */
  predicate Displays(t: Ticket) {
    var v, s := t.values, t.workflow.state;
    match s.status
    case Running => s == RunState(v.ticketId, Running, None, None, None, [], Some(t.createdAt))
    case WaitingApproval =>
      && s.ticketId == v.ticketId && s.answer == None && s.category == v.category && s.createdAt == Some(t.createdAt)
      && s.pending.Some? && Requests(v, s.pending.value) && s.citations == Citations(v.draft)
    case _ =>
      && s.ticketId == v.ticketId && s.answer == v.finalAnswer && s.category == v.category && s.pending == None
      && s.createdAt == Some(t.createdAt)
      && s.citations == Citations(if v.finalAnswer.Some? && v.finalAnswer.value != "" then v.finalAnswer else v.draft)
  }

  /** How what a ticket shows goes with where it stands. */
  predicate Settles(settings: Settings, t: Ticket) {
    && (t.phase.Invoked? || t.phase.Interrupted? ==> t.workflow.state.status == Running)
    && (t.phase.Paused? || t.phase.Resumed? ==> t.workflow.state.status == WaitingApproval)
    && (t.phase.Resumed? ==> Rank(t.phase.node) <= Rank(Approval))
    && (t.workflow.state.status == Completed || t.workflow.state.status == Rejected ==> t.phase.Done?)
    && (t.phase.Interrupted? ==> t.values.plan.Some? && t.values.draft.Some? && Undecided(t.values)
                                 && Requests(t.values, t.phase.pending))
    && (NodeOf(t.phase) == Some(End) ==> t.values.status == Some(Completed) || t.values.status == Some(Rejected))
  }

  lemma OkSettles(settings: Settings, id: string, t: Ticket)
    requires TicketOk(settings, id, t)
    ensures Settles(settings, t)
  {}

  /** Whatever the public state is read from is as it was. */
  predicate ShownAlike(t: Ticket, u: Ticket) {
    && u.workflow.state == t.workflow.state && u.createdAt == t.createdAt && u.values.ticketId == t.values.ticketId
    && (t.workflow.state.status != Running ==>
         SameRequest(t.values, u.values) && u.values.category == t.values.category)
    && (t.workflow.state.status == Completed || t.workflow.state.status == Rejected ==>
         u.values.finalAnswer == t.values.finalAnswer)
  }

  lemma AlikeDisplays(t: Ticket, u: Ticket)
    requires ShownAlike(t, u) && Displays(t)
    ensures Displays(u)
  {}

  lemma StepShowsAlike(settings: Settings, id: string, t: Ticket, step: Step, output: Option<Record>)
    requires EnabledFor(settings, t, step) && (step.Execute? ==> output.Some?) && Settles(settings, t)
    requires !step.Pause? && !step.Finish?
    ensures ShownAlike(t, Stepped(settings, id, t, step, output))
  {}

  lemma PauseDisplays(settings: Settings, id: string, t: Ticket, step: Step)
    requires EnabledFor(settings, t, step) && Settles(settings, t) && t.values.ticketId == id && step.Pause?
    ensures Displays(Stepped(settings, id, t, step, None))
  {}

  lemma FinishDisplays(settings: Settings, id: string, t: Ticket, step: Step)
    requires EnabledFor(settings, t, step) && Settles(settings, t) && t.values.ticketId == id && step.Finish?
    ensures Displays(Stepped(settings, id, t, step, None))
  {}

  lemma DisplaysStepped(settings: Settings, id: string, t: Ticket, step: Step, output: Option<Record>)
    requires EnabledFor(settings, t, step) && (step.Execute? ==> output.Some?) && Settles(settings, t)
    requires t.values.ticketId == id && Displays(t)
    ensures Displays(Stepped(settings, id, t, step, output))
  {
    if step.Pause? {
      PauseDisplays(settings, id, t, step);
    } else if step.Finish? {
      FinishDisplays(settings, id, t, step);
    } else {
      StepShowsAlike(settings, id, t, step, output);
      AlikeDisplays(t, Stepped(settings, id, t, step, output));
    }
  }

  lemma DisplaysStep(settings: Settings, s: System, step: Step, id: string)
    requires Enabled(settings, s, step) && id in s.tickets && TicketOk(settings, id, s.tickets[id])
    requires Displays(s.tickets[id])
    ensures id in Apply(settings, s, step).tickets && Displays(Apply(settings, s, step).tickets[id])
  {
    if Concerns(step, id) {
      var t := s.tickets[id];
      OkSettles(settings, id, t);
      Own(settings, s, step, id);
      var output := if step.Execute? then Some(Apply(settings, s, step).registry[Key(id, ActionOf(t))]) else None;
      DisplaysStepped(settings, id, t, step, output);
    } else {
      Bystander(settings, s, step, id);
    }
  }

  lemma {:induction false} DisplaysHolds(settings: Settings, r: Run, n: nat, id: string)
    requires Valid(settings, r) && n <= |r.steps|
    ensures id in r.states[n].tickets ==> Displays(r.states[n].tickets[id])
  {
    if n == 0 {
    } else {
      DisplaysHolds(settings, r, n - 1, id);
      ReachableTicketOk(settings, r, n - 1, id);
      assert StepAt(settings, r, n - 1);
      if id in r.states[n - 1].tickets { DisplaysStep(settings, r.states[n - 1], r.steps[n - 1], id); }
    }
  }

  /** In every reachable state a ticket's values and what is shown of it go back to its first step and to the last
      answers: the draft shown is the last one drafted, the category and the plan those last given. */
  lemma TicketsTraced(settings: Settings, r: Run, n: nat, id: string) returns (b: nat)
    requires Valid(settings, r) && n <= |r.steps| && id in r.states[n].tickets
    ensures var t := r.states[n].tickets[id];
      && b < n && IsBegin(r.steps[b], id) && AsBegun(t, r.steps[b]) && Displays(t)
      && forall node :: Says(t.values, node, LastAnswer(r, n, id, node))
  {
    b := BegunOnce(settings, r, n, id);
    DisplaysHolds(settings, r, n, id);
    forall node ensures Says(r.states[n].tickets[id].values, node, LastAnswer(r, n, id, node)) {
      SaysHolds(settings, r, n, id, node);
    }
  }

  lemma ConsumedStep(settings: Settings, s: System, step: Step, id: string)
    requires Enabled(settings, s, step) && id in s.tickets && TicketOk(settings, id, s.tickets[id])
    requires s.tickets[id].consumed.Some?
    ensures var s' := Apply(settings, s, step); id in s'.tickets && s'.tickets[id].consumed == s.tickets[id].consumed
  {
    if Concerns(step, id) { Own(settings, s, step, id); } else { Bystander(settings, s, step, id); }
  }

  lemma {:induction false} ConsumedStays(settings: Settings, r: Run, j: nat, n: nat, id: string)
    requires Valid(settings, r) && j <= n <= |r.steps| && id in r.states[j].tickets
    requires r.states[j].tickets[id].consumed.Some?
    ensures id in r.states[n].tickets && r.states[n].tickets[id].consumed == r.states[j].tickets[id].consumed
    decreases n - j
  {
    if j == n {
    } else {
      ReachableTicketOk(settings, r, j, id);
      assert StepAt(settings, r, j);
      ConsumedStep(settings, r.states[j], r.steps[j], id);
      ConsumedStays(settings, r, j + 1, n, id);
    }
  }

  /** A run whose reviewer let the deadline pass ends rejected by the system, and its action is never attempted. */
  lemma TimeoutRejects(settings: Settings, r: Run, j: nat, n: nat, id: string)
    requires Valid(settings, r) && j < n <= |r.steps| && r.steps[j] == Expire(id)
    requires id in r.states[n].tickets && r.states[n].tickets[id].phase.Done?
    ensures var t := r.states[n].tickets[id];
      && t.values.plan.Some? && t.workflow.state.status == Rejected && t.attempts.started == 0
      && t.consumed.Some? && t.consumed.value.reviewer == "system"
      && t.workflow.state.answer
         == Some("The proposed " + Name(t.values.plan.value.action) + " was not approved: " + "approval timed out")
  {
    assert StepAt(settings, r, j);
    ConsumedStays(settings, r, j + 1, n, id);
    OutcomeDetermined(settings, r, n, id);
    ReachableTicketOk(settings, r, n, id);
  }
}
