/** Whole runs of the ticket system: who approved what, which decision counts, what is shown when. */
module TicketRuns {
  import opened Wrappers
  import opened Tickets
  import opened SupportGraph
  import opened ActionRegistry
  import opened TicketWorkflow
  import opened TicketSystem
  import opened TicketSafety

  /** `states[i + 1]` is what `steps[i]` makes of `states[i]`. */
  datatype Run = Run(states: seq<System>, steps: seq<Step>)

  predicate StepAt(settings: Settings, r: Run, i: nat)
    requires i < |r.steps| && i + 1 < |r.states|
  {
    Enabled(settings, r.states[i], r.steps[i]) && r.states[i + 1] == Apply(settings, r.states[i], r.steps[i])
  }

  ghost predicate Valid(settings: Settings, r: Run) {
    && |r.states| == |r.steps| + 1 && r.states[0] == Initial()
    && forall i: nat :: i < |r.steps| ==> StepAt(settings, r, i)
  }

  lemma {:induction false} ReachableOk(settings: Settings, r: Run, n: nat)
    requires Valid(settings, r) && n <= |r.steps|
    ensures SystemOk(settings, r.states[n])
  {
    if n == 0 {
    } else {
      ReachableOk(settings, r, n - 1);
      assert StepAt(settings, r, n - 1);
      StepOk(settings, r.states[n - 1], r.steps[n - 1]);
    }
  }

  lemma ReachableTicketOk(settings: Settings, r: Run, n: nat, id: string)
    requires Valid(settings, r) && n <= |r.steps|
    ensures id in r.states[n].tickets ==> TicketOk(settings, id, r.states[n].tickets[id])
  {
    ReachableOk(settings, r, n);
  }

  // ---- Steps as one ticket sees them.

  predicate Concerns(step: Step, id: string) {
    !step.RestartWorker? && step.id == id
  }

  /** A step of another ticket, or a restart, leaves everything but running attempts alone. */
  lemma Bystander(settings: Settings, s: System, step: Step, id: string)
    requires Enabled(settings, s, step) && id in s.tickets && !Concerns(step, id)
    ensures var s' := Apply(settings, s, step);
      id in s'.tickets && s'.tickets[id].(attempts := s.tickets[id].attempts) == s.tickets[id]
  {}

  /** The system's step on its own ticket. */
  lemma Own(settings: Settings, s: System, step: Step, id: string)
    requires Enabled(settings, s, step) && id in s.tickets && Concerns(step, id)
    ensures !step.Begin? && EnabledFor(settings, s.tickets[id], step)
    ensures var s', t := Apply(settings, s, step), s.tickets[id];
      var output := if step.Execute? then Some(s'.registry[Key(id, ActionOf(t))]) else None;
      && id in s'.tickets
      && s'.tickets[id].(attempts := t.attempts) == Stepped(settings, id, t, step, output).(attempts := t.attempts)
  {}

  // ---- Which decision counts.

  predicate IsPause(step: Step, id: string) { step.Pause? && step.id == id }
  predicate IsSignal(step: Step, id: string) { step.Signal? && step.id == id }
  predicate IsConsume(step: Step, id: string) { (step.Wake? || step.Expire?) && step.id == id }

  /** Before its pause: the run of ticket `id` has neither paused nor consumed anything. */
  ghost predicate NotYetPaused(r: Run, n: nat, id: string)
    requires n <= |r.steps|
  {
    forall k :: 0 <= k < n ==> !IsPause(r.steps[k], id) && !IsConsume(r.steps[k], id)
  }

  /** It paused once, at step `p`, and has consumed nothing; the first signal since then, if any, is latched. */
  ghost predicate PausedSince(r: Run, n: nat, id: string, p: nat, latched: Option<Decision>)
    requires n <= |r.steps|
  {
    && p < n && IsPause(r.steps[p], id)
    && (forall k :: 0 <= k < n && k != p ==> !IsPause(r.steps[k], id))
    && (forall k :: 0 <= k < n ==> !IsConsume(r.steps[k], id))
    && FirstSignal(r, p, n, id, latched)
  }

  /** The decision of the first signal for the ticket strictly between steps `p` and `n`. */
  ghost predicate FirstSignal(r: Run, p: nat, n: nat, id: string, d: Option<Decision>)
    requires p < n <= |r.steps|
  {
    match d
    case None => forall k :: p < k < n ==> !IsSignal(r.steps[k], id)
    case Some(x) =>
      exists i :: p < i < n && r.steps[i] == Signal(id, x) && forall k :: p < k < i ==> !IsSignal(r.steps[k], id)
  }

  /** It paused once, at `p`, and consumed once, at `j`: the first signal in between if there was one,
      else the system's rejection because the deadline had passed. */
  ghost predicate ConsumedOnce(r: Run, n: nat, id: string, p: nat, j: nat, d: Decision)
    requires n <= |r.steps|
  {
    && p < j < n && IsPause(r.steps[p], id) && IsConsume(r.steps[j], id)
    && (forall k :: 0 <= k < n && k != p ==> !IsPause(r.steps[k], id))
    && (forall k :: 0 <= k < n && k != j ==> !IsConsume(r.steps[k], id))
    && (FirstSignal(r, p, j, id, Some(d)) || (FirstSignal(r, p, j, id, None) && r.steps[j].Expire? && d == TIMED_OUT))
  }

  /** What the steps so far say about ticket `id`, given where it stands. */
  ghost predicate History(r: Run, n: nat, id: string, t: Ticket)
    requires n <= |r.steps|
  {
    match t.consumed
    case Some(d) => exists p, j :: ConsumedOnce(r, n, id, p, j, d)
    case None =>
      && (t.phase.Invoked? || t.phase.Interrupted? ==> NotYetPaused(r, n, id))
      && (t.phase.Paused? ==> exists p :: PausedSince(r, n, id, p, t.workflow.decision))
  }

  /** Steps that are no pause, signal or consumption of the ticket do not change its history. */
  lemma HistoryIdle(r: Run, n: nat, id: string, t: Ticket, u: Ticket)
    requires n < |r.steps| && History(r, n, id, t)
    requires !IsPause(r.steps[n], id) && !IsSignal(r.steps[n], id) && !IsConsume(r.steps[n], id)
    requires u.consumed == t.consumed && u.workflow.decision == t.workflow.decision
    requires u.phase.Paused? ==> t.phase.Paused?
    requires u.phase.Invoked? || u.phase.Interrupted? ==> t.phase.Invoked? || t.phase.Interrupted?
    ensures History(r, n + 1, id, u)
  {
    if t.consumed.Some? {
      var p, j :| ConsumedOnce(r, n, id, p, j, t.consumed.value);
      assert ConsumedOnce(r, n + 1, id, p, j, t.consumed.value);
    } else if t.phase.Paused? {
      var p :| PausedSince(r, n, id, p, t.workflow.decision);
      FirstSignalExtends(r, p, n, id, t.workflow.decision);
      assert PausedSince(r, n + 1, id, p, t.workflow.decision);
    }
  }

  lemma FirstSignalExtends(r: Run, p: nat, n: nat, id: string, d: Option<Decision>)
    requires p < n < |r.steps| && FirstSignal(r, p, n, id, d)
    ensures d.Some? || !IsSignal(r.steps[n], id) ==> FirstSignal(r, p, n + 1, id, d)
    ensures d == None && IsSignal(r.steps[n], id) ==> FirstSignal(r, p, n + 1, id, Some(r.steps[n].decision))
  {}

  lemma HistoryPause(r: Run, n: nat, id: string, t: Ticket, u: Ticket)
    requires n < |r.steps| && History(r, n, id, t) && IsPause(r.steps[n], id)
    requires t.phase.Interrupted? && t.consumed == None && t.workflow.decision == None
    requires u.phase.Paused? && u.consumed == None && u.workflow.decision == None
    ensures History(r, n + 1, id, u)
  {
    assert FirstSignal(r, n, n + 1, id, None);
    assert PausedSince(r, n + 1, id, n, None);
  }

  lemma HistorySignal(r: Run, n: nat, id: string, t: Ticket, u: Ticket)
    requires n < |r.steps| && History(r, n, id, t) && IsSignal(r.steps[n], id)
    requires u == t.(workflow := Submitted(t.workflow, r.steps[n].decision))
    requires t.phase.Paused? ==> t.workflow.state.status == WaitingApproval
    ensures History(r, n + 1, id, u)
  {
    if t.consumed.Some? {
      var p, j :| ConsumedOnce(r, n, id, p, j, t.consumed.value);
      assert ConsumedOnce(r, n + 1, id, p, j, t.consumed.value);
    } else if t.phase.Paused? {
      var p :| PausedSince(r, n, id, p, t.workflow.decision);
      FirstSignalExtends(r, p, n, id, t.workflow.decision);
      assert PausedSince(r, n + 1, id, p, u.workflow.decision);
    }
  }

  lemma HistoryConsume(r: Run, n: nat, id: string, t: Ticket, u: Ticket)
    requires n < |r.steps| && History(r, n, id, t) && IsConsume(r.steps[n], id)
    requires t.phase.Paused? && t.consumed == None && u.consumed.Some?
    requires t.workflow.decision == u.consumed
          || (t.workflow.decision == None && r.steps[n].Expire? && u.consumed == Some(TIMED_OUT))
    ensures History(r, n + 1, id, u)
  {
    var p :| PausedSince(r, n, id, p, t.workflow.decision);
    assert ConsumedOnce(r, n + 1, id, p, n, u.consumed.value);
  }

  lemma HistoryBegin(r: Run, n: nat, id: string, u: Ticket)
    requires n <= |r.steps| && forall k :: 0 <= k < n ==> !IsPause(r.steps[k], id) && !IsConsume(r.steps[k], id)
    requires u.consumed == None && u.phase.Invoked?
    ensures History(r, n, id, u)
  {}

  /** No step names a ticket that does not exist yet, except to begin it. */
  lemma {:induction false} UnknownUntouched(settings: Settings, r: Run, n: nat, id: string)
    requires Valid(settings, r) && n <= |r.steps| && id !in r.states[n].tickets
    ensures forall k :: 0 <= k < n ==> !Concerns(r.steps[k], id)
  {
    if n == 0 {
    } else {
      assert StepAt(settings, r, n - 1);
      UnknownUntouched(settings, r, n - 1, id);
    }
  }

  /** What a ticket's history needs of where it stands. */
  predicate Placed(t: Ticket) {
    && (t.phase.Interrupted? ==> t.consumed == None && t.workflow.decision == None)
    && (t.phase.Paused? ==> t.consumed == None && t.workflow.state.status == WaitingApproval)
    && (t.phase.Resumed? ==> t.consumed.Some?)
  }

  lemma HistoryOwn(settings: Settings, r: Run, n: nat, id: string, t: Ticket, output: Option<Record>)
    requires n < |r.steps| && History(r, n, id, t) && Placed(t) && Concerns(r.steps[n], id)
    requires EnabledFor(settings, t, r.steps[n]) && (r.steps[n].Execute? ==> output.Some?)
    ensures History(r, n + 1, id, Stepped(settings, id, t, r.steps[n], output))
  {
    var u := Stepped(settings, id, t, r.steps[n], output);
    match r.steps[n]
    case Pause(_) => HistoryPause(r, n, id, t, u);
    case Signal(_, _) => HistorySignal(r, n, id, t, u);
    case Wake(_) => HistoryConsume(r, n, id, t, u);
    case Expire(_) => HistoryConsume(r, n, id, t, u);
    case _ => HistoryIdle(r, n, id, t, u);
  }

  lemma HistoryStep(settings: Settings, r: Run, n: nat, id: string)
    requires Valid(settings, r) && n < |r.steps|
    requires id in r.states[n].tickets && TicketOk(settings, id, r.states[n].tickets[id])
    requires History(r, n, id, r.states[n].tickets[id])
    ensures HistoryAt(r, n + 1, id)
  {
    var s, step := r.states[n], r.steps[n];
    assert StepAt(settings, r, n);
    var t := s.tickets[id];
    if !Concerns(step, id) {
      Bystander(settings, s, step, id);
      HistoryIdle(r, n, id, t, r.states[n + 1].tickets[id]);
    } else {
      Own(settings, s, step, id);
      HistoryOwn(settings, r, n, id, t,
                 if step.Execute? then Some(r.states[n + 1].registry[Key(id, ActionOf(t))]) else None);
    }
  }

  lemma HistoryFirst(settings: Settings, r: Run, n: nat, id: string)
    requires Valid(settings, r) && n < |r.steps| && id !in r.states[n].tickets && id in r.states[n + 1].tickets
    ensures HistoryAt(r, n + 1, id)
  {
    assert StepAt(settings, r, n);
    assert r.steps[n].Begin?;
    UnknownUntouched(settings, r, n, id);
    forall k | 0 <= k < n + 1 ensures !IsPause(r.steps[k], id) && !IsConsume(r.steps[k], id) {
      assert k < n ==> !Concerns(r.steps[k], id);
    }
    HistoryBegin(r, n + 1, id, r.states[n + 1].tickets[id]);
  }

  ghost predicate HistoryAt(r: Run, n: nat, id: string)
    requires n <= |r.steps| && n < |r.states|
  {
    id in r.states[n].tickets ==> History(r, n, id, r.states[n].tickets[id])
  }

  lemma {:induction false} HistoryHolds(settings: Settings, r: Run, n: nat, id: string)
    requires Valid(settings, r) && n <= |r.steps|
    ensures HistoryAt(r, n, id)
  {
    if n > 0 && id in r.states[n].tickets {
      HistoryHolds(settings, r, n - 1, id);
      if id in r.states[n - 1].tickets {
        ReachableTicketOk(settings, r, n - 1, id);
        HistoryStep(settings, r, n - 1, id);
      } else {
        HistoryFirst(settings, r, n - 1, id);
      }
    }
  }

  /** A run consumes exactly one decision: the first one signalled between its pause and its resumption,
      or the system's rejection when the deadline passed first. Whatever came earlier, again or later
      left no trace. */
  lemma OneDecision(settings: Settings, r: Run, n: nat, id: string)
    requires Valid(settings, r) && n <= |r.steps| && id in r.states[n].tickets
    requires r.states[n].tickets[id].consumed.Some?
    ensures exists p, j :: ConsumedOnce(r, n, id, p, j, r.states[n].tickets[id].consumed.value)
  {
    HistoryHolds(settings, r, n, id);
  }
}
