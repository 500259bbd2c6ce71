/** What whole runs guarantee: approvals behind every effect, bounded effects, the visible states, the outcome. */
module TicketOutcomes {
  import opened Wrappers
  import opened Tickets
  import opened TicketMapping
  import opened SupportGraph
  import opened ActionRegistry
  import opened TicketWorkflow
  import opened TicketSystem
  import opened TicketSafety
  import opened TicketRuns

  // ---- From the pause on, the request is settled.

  predicate Committed(t: Ticket) { !t.phase.Invoked? && !t.phase.Interrupted? }

  predicate SameRequest(v: Values, w: Values) {
    && w.ticketId == v.ticketId && w.customerId == v.customerId && w.orderId == v.orderId
    && w.plan == v.plan && w.draft == v.draft
  }

  lemma CommittedStep(settings: Settings, s: System, step: Step, id: string)
    requires Enabled(settings, s, step) && id in s.tickets && Committed(s.tickets[id])
    requires TicketOk(settings, id, s.tickets[id])
    ensures var s' := Apply(settings, s, step);
      id in s'.tickets && Committed(s'.tickets[id]) && SameRequest(s.tickets[id].values, s'.tickets[id].values)
  {
    if Concerns(step, id) { Own(settings, s, step, id); } else { Bystander(settings, s, step, id); }
  }

  lemma {:induction false} CommittedStays(settings: Settings, r: Run, i: nat, n: nat, id: string)
    requires Valid(settings, r) && i <= n <= |r.steps| && id in r.states[i].tickets
    requires Committed(r.states[i].tickets[id])
    ensures id in r.states[n].tickets && Committed(r.states[n].tickets[id])
    ensures SameRequest(r.states[i].tickets[id].values, r.states[n].tickets[id].values)
    decreases n - i
  {
    if i == n {
    } else {
      ReachableTicketOk(settings, r, i, id);
      assert StepAt(settings, r, i);
      CommittedStep(settings, r.states[i], r.steps[i], id);
      CommittedStays(settings, r, i + 1, n, id);
    }
  }

  // ---- Every effect was approved as shown.

  /** What is asked for is the planned action, on the ticket's own customer and order and for the planned amount. */
  predicate Requests(v: Values, p: PendingAction) {
    && v.plan.Some? && p.action == Name(v.plan.value.action) && p.reason == v.plan.value.rationale
    && p.arguments.customerId == v.customerId && p.arguments.orderId == v.orderId
    && p.arguments.amount == v.plan.value.amount
  }

  /** At `states[i]` the reviewer sees `p` for ticket `id`, and nobody has decided. */
  ghost predicate Asking(s: System, id: string, p: PendingAction) {
    && id in s.tickets && s.tickets[id].phase.Paused? && s.tickets[id].workflow.decision == None
    && s.tickets[id].workflow.state.status == WaitingApproval && s.tickets[id].workflow.state.pending == Some(p)
    && Requests(s.tickets[id].values, p)
  }

  /** The record is for the action and the arguments a reviewer saw and approved at step `i`, while the
      ticket was waiting and before any other decision on it. */
  ghost predicate ApprovedAt(r: Run, n: nat, record: Record, id: string, i: nat, p: PendingAction)
    requires n <= |r.steps| && |r.states| == |r.steps| + 1
  {
    && i < n && Asking(r.states[i], id, p) && IsSignal(r.steps[i], id) && r.steps[i].decision.approve
    && record.idempotencyKey == id + ":" + p.action && record.action == p.action && record.arguments == p.arguments
    && record.result == "accepted"
  }

  /** A step other than its pause leaves a ticket paused only if it was paused before. */
  lemma PausedBefore(settings: Settings, s: System, step: Step, id: string)
    requires Enabled(settings, s, step) && !IsPause(step, id)
    requires var s' := Apply(settings, s, step); id in s'.tickets && s'.tickets[id].phase.Paused?
    ensures id in s.tickets && s.tickets[id].phase.Paused?
  {}

  lemma {:induction false} PausedBetween(settings: Settings, r: Run, i: nat, j: nat, id: string)
    requires Valid(settings, r) && i <= j <= |r.steps|
    requires forall k :: i <= k < j ==> !IsPause(r.steps[k], id)
    requires id in r.states[j].tickets && r.states[j].tickets[id].phase.Paused?
    ensures id in r.states[i].tickets && r.states[i].tickets[id].phase.Paused?
    decreases j - i
  {
    if i == j {
    } else {
      assert StepAt(settings, r, j - 1);
      PausedBefore(settings, r.states[j - 1], r.steps[j - 1], id);
      PausedBetween(settings, r, i, j - 1, id);
    }
  }

  lemma TheSignal(r: Run, n: nat, id: string, p: nat, j: nat, d: Decision) returns (i: nat)
    requires n <= |r.steps| && ConsumedOnce(r, n, id, p, j, d) && d != TIMED_OUT
    ensures p < i < j && r.steps[i] == Signal(id, d) && forall k :: p < k < i ==> !IsSignal(r.steps[k], id)
  {
    i :| p < i < j && r.steps[i] == Signal(id, d) && forall k :: p < k < i ==> !IsSignal(r.steps[k], id);
  }

  /** The first signal after the pause finds the ticket asking. */
  lemma FirstSignalFindsAsking(settings: Settings, r: Run, n: nat, id: string, p: nat, j: nat, d: Decision, i: nat)
    requires Valid(settings, r) && n <= |r.steps| && ConsumedOnce(r, n, id, p, j, d)
    requires p < i < j && r.steps[i] == Signal(id, d) && forall k :: p < k < i ==> !IsSignal(r.steps[k], id)
    ensures id in r.states[i].tickets && r.states[i].tickets[id].values.plan.Some?
    ensures Asking(r.states[i], id, Shown(r.states[i].tickets[id].values))
  {
    assert StepAt(settings, r, j);
    PausedBetween(settings, r, i, j, id);
    var t := r.states[i].tickets[id];
    ReachableTicketOk(settings, r, i, id);
    HistoryHolds(settings, r, i, id);
    var q :| PausedSince(r, i, id, q, t.workflow.decision);
    assert q == p;
  }

  /** An approved ticket was approved by the first signal after its pause. */
  lemma ApprovedBySignal(settings: Settings, r: Run, n: nat, id: string) returns (i: nat)
    requires Valid(settings, r) && n <= |r.steps| && id in r.states[n].tickets
    requires r.states[n].tickets[id].consumed.Some? && r.states[n].tickets[id].consumed.value.approve
    ensures i < n && id in r.states[i].tickets && r.states[i].tickets[id].values.plan.Some?
    ensures Asking(r.states[i], id, Shown(r.states[i].tickets[id].values))
    ensures IsSignal(r.steps[i], id) && r.steps[i].decision.approve
  {
    var d := r.states[n].tickets[id].consumed.value;
    OneDecision(settings, r, n, id);
    var p: nat, j: nat :| ConsumedOnce(r, n, id, p, j, d);
    i := TheSignal(r, n, id, p, j, d);
    FirstSignalFindsAsking(settings, r, n, id, p, j, d, i);
  }

  lemma ApprovedIsConsumed(settings: Settings, id: string, t: Ticket)
    requires TicketOk(settings, id, t) && IsApproved(t.values)
    ensures t.consumed == t.values.approval
  {}

  lemma ApprovedRecord(settings: Settings, r: Run, n: nat, record: Record)
    requires Valid(settings, r) && n <= |r.steps| && Backed(r.states[n].tickets, record)
    ensures exists id, i, p :: ApprovedAt(r, n, record, id, i, p)
  {
    var id :| id in r.states[n].tickets && r.states[n].tickets[id].values.ticketId == id
              && BackedBy(r.states[n].tickets[id], record);
    var t := r.states[n].tickets[id];
    ReachableTicketOk(settings, r, n, id);
    ApprovedIsConsumed(settings, id, t);
    var i := ApprovedBySignal(settings, r, n, id);
    CommittedStays(settings, r, i, n, id);
    assert ApprovedAt(r, n, record, id, i, Shown(r.states[i].tickets[id].values));
  }

  /** In every reachable state, each registry entry and each effect so far was approved by a reviewer while
      its ticket was waiting, and carries exactly the action and the arguments that reviewer was shown. */
  lemma EffectsWereApproved(settings: Settings, r: Run, n: nat)
    requires Valid(settings, r) && n <= |r.steps|
    ensures forall k :: k in r.states[n].registry ==>
      && k == r.states[n].registry[k].idempotencyKey
      && exists id, i, p :: ApprovedAt(r, n, r.states[n].registry[k], id, i, p)
    ensures forall e :: e in r.states[n].effects ==> exists id, i, p :: ApprovedAt(r, n, e.record, id, i, p)
  {
    ReachableOk(settings, r, n);
    forall k | k in r.states[n].registry
      ensures exists id, i, p :: ApprovedAt(r, n, r.states[n].registry[k], id, i, p)
    {
      ApprovedRecord(settings, r, n, r.states[n].registry[k]);
    }
    forall e | e in r.states[n].effects ensures exists id, i, p :: ApprovedAt(r, n, e.record, id, i, p) {
      ApprovedRecord(settings, r, n, e.record);
    }
  }

  // ---- How often an effect happens.

  function Restarts(steps: seq<Step>): nat {
    if steps == [] then 0
    else
      var before := Restarts(steps[..|steps| - 1]);
      if steps[|steps| - 1].RestartWorker? then before + 1 else before
  }

  lemma {:induction false} ProcessCountsRestarts(settings: Settings, r: Run, n: nat)
    requires Valid(settings, r) && n <= |r.steps|
    ensures r.states[n].process == Restarts(r.steps[..n])
  {
    if n == 0 {
    } else {
      ProcessCountsRestarts(settings, r, n - 1);
      assert StepAt(settings, r, n - 1);
      assert r.steps[..n][..n - 1] == r.steps[..n - 1];
    }
  }

  /** What the registry holds is what this process did. */
  ghost predicate Ledger(s: System) {
    forall k :: k in s.registry ==> Effect(s.registry[k], s.process) in s.effects
  }

  lemma {:induction false} LedgerHolds(settings: Settings, r: Run, n: nat)
    requires Valid(settings, r) && n <= |r.steps|
    ensures Ledger(r.states[n])
  {
    if n == 0 {
    } else {
      LedgerHolds(settings, r, n - 1);
      assert StepAt(settings, r, n - 1);
    }
  }

  /** Whatever attempts, lost answers, retries and restarts a run holds: a (ticket, action) takes effect at
      most once per worker process and at most min(3, 1 + restarts) times in all. */
  lemma EffectsBounded(settings: Settings, r: Run, n: nat, id: string, action: ActionKind)
    requires Valid(settings, r) && n <= |r.steps|
    ensures var s, key := r.states[n], Key(id, Name(action));
      && (forall i, j ::
            0 <= i < j < |s.effects|
            && s.effects[i].record.idempotencyKey == key == s.effects[j].record.idempotencyKey ==>
            s.effects[i].process != s.effects[j].process)
      && CountEffects(s.effects, key) <= 1 + Restarts(r.steps[..n])
      && CountEffects(s.effects, key) <= MAX_ATTEMPTS
      && Ledger(s)
  {
    ReachableOk(settings, r, n);
    EffectBounds(settings, r.states[n], Key(id, Name(action)));
    ProcessCountsRestarts(settings, r, n);
    LedgerHolds(settings, r, n);
  }

  // ---- What the gateway shows.

  function Stage(s: Status): nat {
    match s
    case Running => 0
    case WaitingApproval => 1
    case Completed => 2
    case Rejected => 2
  }

  /** The published state is as it was, or it moved on to a later stage. */
  predicate Advances(before: RunState, after: RunState) {
    || after == before
    || (Stage(before.status) < Stage(after.status)
        && after.ticketId == before.ticketId && after.createdAt == before.createdAt)
  }

  predicate Published(id: string, t: Ticket) {
    && t.workflow.state.ticketId == id && t.workflow.state.createdAt == Some(t.createdAt)
  }

  lemma AdvancesStep(settings: Settings, s: System, step: Step, id: string)
    requires Enabled(settings, s, step) && id in s.tickets && TicketOk(settings, id, s.tickets[id])
    requires Published(id, s.tickets[id])
    ensures var s' := Apply(settings, s, step);
      id in s'.tickets && Published(id, s'.tickets[id])
      && Advances(s.tickets[id].workflow.state, s'.tickets[id].workflow.state)
  {
    if Concerns(step, id) { Own(settings, s, step, id); } else { Bystander(settings, s, step, id); }
  }

  lemma {:induction false} PublishedHolds(settings: Settings, r: Run, n: nat, id: string)
    requires Valid(settings, r) && n <= |r.steps|
    ensures id in r.states[n].tickets ==> Published(id, r.states[n].tickets[id])
  {
    if n == 0 {
    } else {
      PublishedHolds(settings, r, n - 1, id);
      var s, step := r.states[n - 1], r.steps[n - 1];
      assert StepAt(settings, r, n - 1);
      if id in s.tickets {
        ReachableTicketOk(settings, r, n - 1, id);
        AdvancesStep(settings, s, step, id);
      }
    }
  }

  lemma AdvancesNext(settings: Settings, r: Run, n: nat, id: string)
    requires Valid(settings, r) && n < |r.steps| && id in r.states[n].tickets
    ensures id in r.states[n + 1].tickets
    ensures Advances(r.states[n].tickets[id].workflow.state, r.states[n + 1].tickets[id].workflow.state)
  {
    ReachableTicketOk(settings, r, n, id);
    PublishedHolds(settings, r, n, id);
    assert StepAt(settings, r, n);
    AdvancesStep(settings, r.states[n], r.steps[n], id);
  }

  /** The visible status only moves from running over waiting to completed or rejected; within a stage nothing
      visible changes, so a terminal state is final. */
  lemma {:induction false} VisibleStatusAdvances(settings: Settings, r: Run, m: nat, n: nat, id: string)
    requires Valid(settings, r) && m <= n <= |r.steps| && id in r.states[m].tickets
    ensures id in r.states[n].tickets
    ensures Advances(r.states[m].tickets[id].workflow.state, r.states[n].tickets[id].workflow.state)
    decreases n - m
  {
    if m == n {
    } else {
      AdvancesNext(settings, r, m, id);
      VisibleStatusAdvances(settings, r, m + 1, n, id);
    }
  }

  /** A pending action is shown exactly while the status says so, and a terminal status means the run is done. */
  lemma PendingExactlyWhileWaiting(settings: Settings, r: Run, n: nat, id: string)
    requires Valid(settings, r) && n <= |r.steps| && id in r.states[n].tickets
    ensures var t := r.states[n].tickets[id];
      && (t.workflow.state.pending.Some? <==> t.workflow.state.status == WaitingApproval)
      && (t.phase.Done? <==> t.workflow.state.status == Completed || t.workflow.state.status == Rejected)
  {
    ReachableTicketOk(settings, r, n, id);
  }

  // ---- How a run ends.

  function FinalStatus(settings: Settings, action: ActionKind, consumed: Option<Decision>): Status {
    if Name(action) in settings.requireApprovalFor && consumed.Some? && !consumed.value.approve then Rejected
    else Completed
  }

  function FinalAnswer(settings: Settings, plan: ActionPlan, draft: string, consumed: Option<Decision>): string {
    if Name(plan.action) !in settings.requireApprovalFor || consumed.None? then draft
    else if consumed.value.approve then "Approved and submitted. " + draft
    else
      var comment := consumed.value.comment;
      "The proposed " + Name(plan.action) + " was not approved: "
      + if comment.Some? && comment.value != "" then comment.value else "No reason supplied"
  }

  /** A finished graph carries its own status, never the default; status and answer depend on nothing but
      the plan, the draft, the configuration and the decision consumed, and a decision was consumed exactly
      when the configuration asks for one. */
  lemma OutcomeDetermined(settings: Settings, r: Run, n: nat, id: string)
    requires Valid(settings, r) && n <= |r.steps| && id in r.states[n].tickets && r.states[n].tickets[id].phase.Done?
    ensures var t := r.states[n].tickets[id];
      var v := t.values;
      && v.plan.Some? && v.draft.Some? && (t.consumed.Some? <==> NeedsApproval(settings, v))
      && v.status == Some(FinalStatus(settings, v.plan.value.action, t.consumed))
      && t.workflow.state.status == FinalStatus(settings, v.plan.value.action, t.consumed)
      && t.workflow.state.answer == Some(FinalAnswer(settings, v.plan.value, v.draft.value, t.consumed))
      && t.workflow.state.pending == None
      && (t.consumed.Some? && t.consumed.value.approve ==> v.actionResult == Some(RecordOf(v)))
  {
    ReachableTicketOk(settings, r, n, id);
  }

  /** Approving a paused run leaves the citations the reviewer saw. */
  lemma ApprovedRunKeepsCitations(settings: Settings, r: Run, i: nat, n: nat, id: string)
    requires Valid(settings, r) && i <= n <= |r.steps| && id in r.states[i].tickets
    requires r.states[i].tickets[id].phase.Paused?
    requires id in r.states[n].tickets && r.states[n].tickets[id].phase.Done?
    requires r.states[n].tickets[id].consumed.Some? && r.states[n].tickets[id].consumed.value.approve
    ensures r.states[n].tickets[id].workflow.state.citations == r.states[i].tickets[id].workflow.state.citations
  {
    ReachableTicketOk(settings, r, i, id);
    ReachableTicketOk(settings, r, n, id);
    CommittedStays(settings, r, i, n, id);
    ApprovalKeepsCitations(r.states[n].tickets[id].values.draft.value);
  }

  // ---- Decisions that come too early or too late.

  /** A decision the gateway passes on belongs to a run that has paused, though it may have resumed since. */
  lemma {:induction false} PassedOnAfterPause(settings: Settings, r: Run, n: nat, id: string)
    requires Valid(settings, r) && n <= |r.steps| && id in r.states[n].tickets
    requires r.states[n].tickets[id].workflow.state.status == WaitingApproval
    ensures exists p :: 0 <= p < n && IsPause(r.steps[p], id)
  {
    if n == 0 {
    } else {
      var s, step := r.states[n - 1], r.steps[n - 1];
      ReachableTicketOk(settings, r, n - 1, id);
      assert StepAt(settings, r, n - 1);
      if id in s.tickets && s.tickets[id].workflow.state.status == WaitingApproval {
        PassedOnAfterPause(settings, r, n - 1, id);
      } else {
        NewlyWaiting(settings, s, step, id);
        assert IsPause(r.steps[n - 1], id);
      }
    }
  }

  lemma NewlyWaiting(settings: Settings, s: System, step: Step, id: string)
    requires Enabled(settings, s, step) && (id in s.tickets ==> TicketOk(settings, id, s.tickets[id]))
    requires var s' := Apply(settings, s, step);
      id in s'.tickets && s'.tickets[id].workflow.state.status == WaitingApproval
    requires id in s.tickets ==> s.tickets[id].workflow.state.status != WaitingApproval
    ensures IsPause(step, id)
  {}

  /** A signal changes a run exactly when it is the first while the run is shown as waiting. */
  lemma SignalLatches(settings: Settings, s: System, id: string, d: Decision)
    requires id in s.tickets
    ensures var t, s' := s.tickets[id], Apply(settings, s, Signal(id, d));
      if t.workflow.state.status == WaitingApproval && t.workflow.decision == None
      then s' == s.(tickets := s.tickets[id := WithLatch(t, Some(d))]) else s' == s
  {}

  /** The ticket as it is but for the latch. */
  function WithLatch(t: Ticket, latch: Option<Decision>): Ticket {
    t.(workflow := t.workflow.(decision := latch))
  }

  /** Except while the ticket is paused, no step reads the latch: two tickets that differ in it alone
      can take the same steps and keep differing in it alone. */
  lemma LateDecisionUnread(settings: Settings, id: string, t: Ticket, latch: Option<Decision>, step: Step,
                           output: Option<Record>)
    requires !t.phase.Paused? && !step.Signal? && (step.Execute? ==> output.Some?)
    ensures EnabledFor(settings, WithLatch(t, latch), step) == EnabledFor(settings, t, step)
    ensures EnabledFor(settings, t, step) ==>
      Stepped(settings, id, WithLatch(t, latch), step, output)
      == WithLatch(Stepped(settings, id, t, step, output), latch)
  {}
}
