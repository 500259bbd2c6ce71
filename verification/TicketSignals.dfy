/** What signals do to a run: the ones that come early, again or late could as well not have been sent. */
module TicketSignals {
  import opened Wrappers
  import opened Tickets
  import opened SupportGraph
  import opened ActionRegistry
  import opened TicketWorkflow
  import opened TicketSystem
  import opened TicketRuns
  import opened TicketOutcomes
  import opened TicketEffects
  import Gateway

  // ---- Ineffective signals.

  /** Any step but a signal that is not the first of its pause. */
  predicate Effective(s: System, step: Step) {
    step.Signal? ==>
      && step.id in s.tickets && s.tickets[step.id].phase.Paused?
      && s.tickets[step.id].workflow.decision == None
  }

  /** The steps of a run without the signals that come before the pause, again, or after it. */
  function Kept(r: Run, n: nat): seq<Step>
    requires n <= |r.steps| && |r.states| == |r.steps| + 1
  {
    if n == 0 then []
    else
      var before := Kept(r, n - 1);
      if Effective(r.states[n - 1], r.steps[n - 1]) then before + [r.steps[n - 1]] else before
  }

  /** The same ticket up to a latch that nothing reads any more. */
  predicate AlikeTicket(t: Ticket, u: Ticket) {
    t == WithLatch(u, t.workflow.decision) && (t.phase.Paused? ==> t == u)
  }

  ghost predicate Alike(s: System, q: System) {
    && s.registry == q.registry && s.process == q.process && s.effects == q.effects && s.tickets.Keys == q.tickets.Keys
    && forall id :: id in s.tickets ==> AlikeTicket(s.tickets[id], q.tickets[id])
  }

  /** A signal that is not the first of a pause changes at most such a latch. */
  lemma DroppedAlike(settings: Settings, s: System, q: System, step: Step)
    requires Enabled(settings, s, step) && Alike(s, q) && !Effective(s, step)
    ensures Alike(Apply(settings, s, step), q)
  {}

  /** Nothing is latched when a pause begins. */
  predicate Unlatched(t: Ticket) { t.phase.Interrupted? ==> t.workflow.decision == None }

  lemma ReachableUnlatched(settings: Settings, r: Run, n: nat, id: string)
    requires Valid(settings, r) && n <= |r.steps|
    ensures id in r.states[n].tickets ==> Unlatched(r.states[n].tickets[id])
  {
    ReachableTicketOk(settings, r, n, id);
  }

  lemma SteppedAlike(settings: Settings, id: string, t: Ticket, u: Ticket, step: Step, output: Option<Record>)
    requires AlikeTicket(t, u) && Unlatched(t) && Unlatched(u)
    requires EnabledFor(settings, t, step) && (step.Execute? ==> output.Some?) && (step.Signal? ==> t.phase.Paused?)
    ensures EnabledFor(settings, u, step)
    ensures AlikeTicket(Stepped(settings, id, t, step, output), Stepped(settings, id, u, step, output))
  {
    if !t.phase.Paused? {
      LateDecisionUnread(settings, id, u, t.workflow.decision, step, output);
    }
  }

  ghost predicate MoveAlike(settings: Settings, s: System, q: System, step: Step)
    requires Enabled(settings, s, step)
  {
    Enabled(settings, q, step) && Alike(Apply(settings, s, step), Apply(settings, q, step))
  }

  lemma OneAlike(s: System, q: System, id: string, t: Ticket, u: Ticket)
    requires Alike(s, q) && AlikeTicket(t, u)
    ensures Alike(s.(tickets := s.tickets[id := t]), q.(tickets := q.tickets[id := u]))
  {}

  lemma KeptOwn(settings: Settings, s: System, q: System, step: Step)
    requires Enabled(settings, s, step) && Alike(s, q) && Effective(s, step)
    requires !step.Begin? && !step.RestartWorker? && !step.Execute?
    requires Unlatched(s.tickets[step.id]) && Unlatched(q.tickets[step.id])
    ensures MoveAlike(settings, s, q, step)
  {
    var id := step.id;
    SteppedAlike(settings, id, s.tickets[id], q.tickets[id], step, None);
    OneAlike(s, q, id, Stepped(settings, id, s.tickets[id], step, None),
             Stepped(settings, id, q.tickets[id], step, None));
  }

  lemma KeptExecute(settings: Settings, s: System, q: System, step: Step)
    requires Enabled(settings, s, step) && Alike(s, q) && step.Execute?
    requires Unlatched(s.tickets[step.id]) && Unlatched(q.tickets[step.id])
    ensures MoveAlike(settings, s, q, step)
  {
    SteppedAlike(settings, step.id, s.tickets[step.id], q.tickets[step.id], step, Some(Output(settings, s, step)));
  }

  lemma KeptRestart(settings: Settings, s: System, q: System)
    requires Alike(s, q)
    ensures MoveAlike(settings, s, q, RestartWorker)
  {}

  lemma KeptBegin(settings: Settings, s: System, q: System, step: Step)
    requires Enabled(settings, s, step) && Alike(s, q) && step.Begin?
    ensures MoveAlike(settings, s, q, step)
  {}

  lemma KeptTicket(settings: Settings, s: System, q: System, step: Step)
    requires Enabled(settings, s, step) && Alike(s, q) && Effective(s, step)
    requires !step.Begin? && !step.RestartWorker? && Unlatched(s.tickets[step.id]) && Unlatched(q.tickets[step.id])
    ensures MoveAlike(settings, s, q, step)
  {
    if step.Execute? { KeptExecute(settings, s, q, step); } else { KeptOwn(settings, s, q, step); }
  }

  lemma KeptAlike(settings: Settings, s: System, q: System, step: Step)
    requires Enabled(settings, s, step) && Alike(s, q) && Effective(s, step)
    requires !step.Begin? && !step.RestartWorker? ==>
      Unlatched(s.tickets[step.id]) && Unlatched(q.tickets[step.id])
    ensures MoveAlike(settings, s, q, step)
  {
    if step.Begin? {
      KeptBegin(settings, s, q, step);
    } else if step.RestartWorker? {
      KeptRestart(settings, s, q);
    } else {
      KeptTicket(settings, s, q, step);
    }
  }

  lemma DroppedNext(settings: Settings, s: System, step: Step, before: Run) returns (q: Run)
    requires Valid(settings, before) && Enabled(settings, s, step) && Alike(s, LastState(before))
    requires !step.Begin? && !step.RestartWorker? ==>
      Unlatched(s.tickets[step.id]) && Unlatched(LastState(before).tickets[step.id])
    ensures Valid(settings, q) && Alike(Apply(settings, s, step), LastState(q))
    ensures q.steps == if Effective(s, step) then before.steps + [step] else before.steps
  {
    if Effective(s, step) {
      KeptAlike(settings, s, LastState(before), step);
      q := Extend(settings, before, step);
    } else {
      DroppedAlike(settings, s, LastState(before), step);
      q := before;
    }
  }

  /** Deleting every early, repeated and late signal from a run leaves a run again, and every state of the one
      is, up to latches nothing reads, a state of the other. */
  lemma {:induction false} SignalsDropped(settings: Settings, r: Run, n: nat) returns (q: Run)
    requires Valid(settings, r) && n <= |r.steps|
    ensures Valid(settings, q) && q.steps == Kept(r, n) && Alike(r.states[n], LastState(q))
  {
    if n == 0 {
      q := Run([Initial()], []);
    } else {
      q := SignalsDropped(settings, r, n - 1);
      var step := r.steps[n - 1];
      assert StepAt(settings, r, n - 1);
      if !step.RestartWorker? {
        ReachableUnlatched(settings, r, n - 1, step.id);
        ReachableUnlatched(settings, q, |q.steps|, step.id);
      }
      q := DroppedNext(settings, r.states[n - 1], step, q);
    }
  }

  // ---- A decision from the gateway, however stale the state it was passed on.

  /** What the gateway's query of a ticket answers. */
  function Read(s: System, id: string): Result<RunState, Gateway.Error> {
    if id in s.tickets then Ok(s.tickets[id].workflow.state) else Err(Gateway.NotFound)
  }

  predicate IsAbort(step: Step, id: string) { step.Abort? && step.id == id }

  /** Nothing happened to the pause of step `p` before step `m`. */
  ghost predicate StillOpen(r: Run, p: nat, m: nat, id: string)
    requires p < m <= |r.steps|
  {
    forall k :: p < k < m ==> !IsSignal(r.steps[k], id) && !IsConsume(r.steps[k], id) && !IsAbort(r.steps[k], id)
  }

  lemma PauseOpens(settings: Settings, s: System, step: Step, id: string)
    requires Enabled(settings, s, step) && id in s.tickets
    requires IsPause(step, id) || (s.tickets[id].phase.Paused? && !IsConsume(step, id) && !IsAbort(step, id))
    ensures var s' := Apply(settings, s, step); id in s'.tickets && s'.tickets[id].phase.Paused?
  {
    if Concerns(step, id) { Own(settings, s, step, id); } else { Bystander(settings, s, step, id); }
  }

  lemma {:induction false} OpenIsPaused(settings: Settings, r: Run, p: nat, m: nat, id: string)
    requires Valid(settings, r) && p < m <= |r.steps| && IsPause(r.steps[p], id) && StillOpen(r, p, m, id)
    ensures id in r.states[m].tickets && r.states[m].tickets[id].phase.Paused?
    decreases m
  {
    assert StepAt(settings, r, m - 1);
    if p == m - 1 {
    } else {
      OpenIsPaused(settings, r, p, m - 1, id);
    }
    PauseOpens(settings, r.states[m - 1], r.steps[m - 1], id);
  }

  /** A signal is the first of its pause exactly if the pause of step `p` was still untouched when it came. */
  lemma EffectiveWhenOpen(settings: Settings, r: Run, p: nat, m: nat, id: string)
    requires Valid(settings, r) && p < m < |r.steps| && IsPause(r.steps[p], id) && IsSignal(r.steps[m], id)
    ensures Effective(r.states[m], r.steps[m]) <==> StillOpen(r, p, m, id)
  {
    assert StepAt(settings, r, m);
    HistoryHolds(settings, r, m, id);
    var t := r.states[m].tickets[id];
    if StillOpen(r, p, m, id) {
      OpenIsPaused(settings, r, p, m, id);
      PausedHasNot(settings, r, m, id);
      var q :| PausedSince(r, m, id, q, t.workflow.decision);
      assert q == p;
    } else if Effective(r.states[m], r.steps[m]) {
      PausedHasNot(settings, r, m, id);
      var q :| PausedSince(r, m, id, q, t.workflow.decision);
      assert q == p;
      NoAbortBefore(settings, r, p, m, id);
    }
  }

  lemma PausedHasNot(settings: Settings, r: Run, m: nat, id: string)
    requires Valid(settings, r) && m <= |r.steps| && id in r.states[m].tickets && r.states[m].tickets[id].phase.Paused?
    ensures r.states[m].tickets[id].consumed == None
  {
    ReachableTicketOk(settings, r, m, id);
  }

  /** A closed run stays closed. */
  lemma FailedStays(settings: Settings, s: System, step: Step, id: string)
    requires Enabled(settings, s, step) && id in s.tickets && (s.tickets[id].phase.Failed? || IsAbort(step, id))
    ensures var s' := Apply(settings, s, step); id in s'.tickets && s'.tickets[id].phase.Failed?
  {
    if Concerns(step, id) { Own(settings, s, step, id); } else { Bystander(settings, s, step, id); }
  }

  lemma {:induction false} AbortedIsFailed(settings: Settings, r: Run, k: nat, m: nat, id: string)
    requires Valid(settings, r) && k < m <= |r.steps| && IsAbort(r.steps[k], id)
    ensures id in r.states[m].tickets && r.states[m].tickets[id].phase.Failed?
    decreases m
  {
    assert StepAt(settings, r, m - 1);
    if k == m - 1 {
    } else {
      AbortedIsFailed(settings, r, k, m - 1, id);
    }
    FailedStays(settings, r.states[m - 1], r.steps[m - 1], id);
  }

  lemma NoAbortBefore(settings: Settings, r: Run, p: nat, m: nat, id: string)
    requires Valid(settings, r) && p < m <= |r.steps| && id in r.states[m].tickets
    requires r.states[m].tickets[id].phase.Paused?
    ensures forall k :: p < k < m ==> !IsAbort(r.steps[k], id)
  {
    forall k: nat | p < k < m ensures !IsAbort(r.steps[k], id) {
      if IsAbort(r.steps[k], id) { AbortedIsFailed(settings, r, k, m, id); }
    }
  }

  /** A decision passed on for a state read at `n` and arriving at step `m`: the run had paused before it was read,
      and the decision is latched exactly if nothing came between that pause and its arrival; otherwise
      it is one of the signals that change nothing. */
  lemma StaleDecision(settings: Settings, r: Run, n: nat, m: nat, id: string, d: Decision)
    requires Valid(settings, r) && n <= m < |r.steps| && r.steps[m] == Signal(id, d)
    requires Gateway.PassesOn(Read(r.states[n], id))
    ensures exists p: nat :: p < n && IsPause(r.steps[p], id)
              && (Effective(r.states[m], r.steps[m]) <==> StillOpen(r, p, m, id))
    ensures id in r.states[m].tickets && StepAt(settings, r, m)
    ensures Effective(r.states[m], r.steps[m]) ==> r.states[m + 1].tickets[id].workflow.decision == Some(d)
    ensures !Effective(r.states[m], r.steps[m]) ==> Alike(r.states[m + 1], r.states[m])
  {
    PassedOnAfterPause(settings, r, n, id);
    var p: nat :| p < n && IsPause(r.steps[p], id);
    EffectiveWhenOpen(settings, r, p, m, id);
    assert StepAt(settings, r, m);
    if Effective(r.states[m], r.steps[m]) {
      ReachableTicketOk(settings, r, m, id);
    } else {
      DroppedAlike(settings, r.states[m], r.states[m], r.steps[m]);
    }
  }
}
