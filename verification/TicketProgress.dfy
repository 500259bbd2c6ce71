/** No ticket gets stuck and none goes on forever, whatever the models answer and however tickets interleave. */
module TicketProgress {
  import opened Wrappers
  import opened Tickets
  import opened SupportGraph
  import ActionRegistry
  import opened TicketWorkflow
  import opened TicketSystem
  import opened TicketRuns

  /** A step in which the ticket itself moves on. */
  predicate Moves(step: Step, id: string) {
    Concerns(step, id) && !step.Begin? && !step.Signal?
  }

  /** What the ticket can do next, if it may. */
  function NextMove(t: Ticket, id: string, a: Answer): Step {
    match t.phase
    case Interrupted(_) => Pause(id)
    case Paused => if t.workflow.decision.Some? then Wake(id) else Expire(id)
    case _ =>
      if NodeOf(t.phase) == Some(End) then Finish(id)
      else if NodeOf(t.phase) != Some(ApplyAction) then RunNode(id, a)
      else if t.attempts.live.Some? then LoseAttempt(id)
      else StartAttempt(id)
  }

  predicate WaitsForever(t: Ticket) {
    t.phase.Paused? && t.workflow.decision == None && t.workflow.timeoutHours == 0
  }

  lemma CanMove(settings: Settings, id: string, t: Ticket, a: Answer)
    requires TicketOk(settings, id, t) && !t.phase.Done? && !t.phase.Failed? && !WaitsForever(t)
    ensures EnabledFor(settings, t, NextMove(t, id, a))
  {}

  /** A ticket that has not ended can move, unless it waits for a decision without a deadline. */
  lemma NeverStuck(settings: Settings, r: Run, n: nat, id: string, a: Answer)
    requires Valid(settings, r) && n <= |r.steps| && id in r.states[n].tickets
    ensures var t := r.states[n].tickets[id];
      t.phase.Done? || t.phase.Failed? || WaitsForever(t)
      || exists step :: Moves(step, id) && !step.Abort? && Enabled(settings, r.states[n], step)
  {
    ReachableTicketOk(settings, r, n, id);
    var t := r.states[n].tickets[id];
    if !t.phase.Done? && !t.phase.Failed? && !WaitsForever(t) {
      CanMove(settings, id, t, a);
      var step := NextMove(t, id, a);
      assert Moves(step, id) && !step.Abort? && Enabled(settings, r.states[n], step);
    }
  }

  /** Nodes still to run before the gate, at most. */
  function ToRun(settings: Settings, n: Node, v: Values): nat {
    match n
    case Sanitize => 2 * settings.maxReflectionLoops + 9
    case Classify => 2 * Left(settings, v) + 6
    case Retrieve => 2 * Left(settings, v) + 5
    case MakePlan => 2 * Left(settings, v) + 4
    case ExecuteReadTools => 2 * Left(settings, v) + 3
    case Draft => 2 * Left(settings, v) + 2
    case Reflect => 2 * Left(settings, v) + 1
    case _ => 0
  }

  function ToGo(settings: Settings, t: Ticket): nat {
    match t.phase
    case Invoked(n) =>
      if n == End then 1 else if n == ApplyAction then 2 else 6 + ToRun(settings, n, t.values)
    case Interrupted(_) => 5
    case Paused => 4
    case Resumed(n) => if n == End then 1 else if n == ApplyAction then 2 else 3 + ToRun(settings, n, t.values)
    case Done => 0
    case Failed => 0
  }

  /** Attempts yet to start, running, or awaited. */
  function ToTry(a: Attempts): int {
    3 * (MAX_ATTEMPTS - a.started) + |a.running| + if a.live.Some? then 1 else 0
  }

  function Potential(settings: Settings, t: Ticket): int { ToGo(settings, t) + ToTry(t.attempts) }

  lemma NodeFalls(settings: Settings, t: Ticket, node: Node, a: Answer)
    requires NodeOf(t.phase) == Some(node) && node != ApplyAction && node != End
    requires node == Approval ==> t.values.plan.Some? && t.values.draft.Some?
    requires t.phase.Resumed? ==> t.consumed.Some?
    ensures ToGo(settings, AfterNode(settings, t, node, a)) < ToGo(settings, t)
    ensures AfterNode(settings, t, node, a).attempts == t.attempts
  {}

  lemma AttemptFalls(settings: Settings, id: string, t: Ticket, step: Step, output: Option<Record>)
    requires EnabledFor(settings, t, step) && (step.StartAttempt? || step.Execute?) && (step.Execute? ==> output.Some?)
    requires forall k :: k in t.attempts.running ==> k <= t.attempts.started
    ensures var u := Stepped(settings, id, t, step, output);
      u.phase == t.phase && u.values == t.values && ToTry(u.attempts) < ToTry(t.attempts)
  {}

  lemma PotentialFalls(settings: Settings, id: string, t: Ticket, step: Step, output: Option<Record>)
    requires EnabledFor(settings, t, step) && (step.Execute? ==> output.Some?)
    requires forall k :: k in t.attempts.running ==> k <= t.attempts.started
    requires t.phase.Resumed? ==> t.consumed.Some?
    ensures var u := Stepped(settings, id, t, step, output);
      if step.Signal? then Potential(settings, u) == Potential(settings, t)
      else Potential(settings, u) < Potential(settings, t)
  {
    match step
    case RunNode(_, a) => NodeFalls(settings, t, t.phase.node, a);
    case StartAttempt(_) => AttemptFalls(settings, id, t, step, output);
    case Execute(_, k) => AttemptFalls(settings, id, t, step, output);
    case _ =>
  }

  /** Steps of the ticket among the first `n`. */
  function MovesOf(steps: seq<Step>, id: string): nat {
    if steps == [] then 0
    else
      var before := MovesOf(steps[..|steps| - 1], id);
      if Moves(steps[|steps| - 1], id) then before + 1 else before
  }

  lemma PotentialStep(settings: Settings, s: System, step: Step, id: string)
    requires Enabled(settings, s, step) && id in s.tickets && TicketOk(settings, id, s.tickets[id])
    ensures var s' := Apply(settings, s, step);
      && id in s'.tickets
      && Potential(settings, s'.tickets[id]) + (if Moves(step, id) then 1 else 0) <= Potential(settings, s.tickets[id])
  {
    if Concerns(step, id) {
      var registry := Apply(settings, s, step).registry;
      PotentialFalls(settings, id, s.tickets[id], step,
                     if step.Execute? then Some(registry[ActionRegistry.Key(id, ActionOf(s.tickets[id]))]) else None);
    }
  }

  lemma PotentialStarts(settings: Settings, s: System, step: Step, id: string)
    requires Enabled(settings, s, step) && id !in s.tickets && id in Apply(settings, s, step).tickets
    ensures !Moves(step, id)
    ensures Potential(settings, Apply(settings, s, step).tickets[id]) == 2 * settings.maxReflectionLoops + 24
  {}

  ghost predicate Accounted(settings: Settings, r: Run, n: nat, id: string)
    requires n <= |r.steps| && n < |r.states|
  {
    if id in r.states[n].tickets
    then
      MovesOf(r.steps[..n], id) + Potential(settings, r.states[n].tickets[id])
      <= 2 * settings.maxReflectionLoops + 24
    else MovesOf(r.steps[..n], id) == 0
  }

  lemma AccountedNext(settings: Settings, r: Run, n: nat, id: string)
    requires n < |r.steps| && n + 1 < |r.states| && StepAt(settings, r, n) && Accounted(settings, r, n, id)
    requires id in r.states[n].tickets ==> TicketOk(settings, id, r.states[n].tickets[id])
    ensures Accounted(settings, r, n + 1, id)
  {
    var s, step := r.states[n], r.steps[n];
    assert r.steps[..n + 1][..n] == r.steps[..n];
    if id in s.tickets {
      PotentialStep(settings, s, step, id);
    } else if id in r.states[n + 1].tickets {
      PotentialStarts(settings, s, step, id);
    }
  }

  /** What a ticket has done and what it may still do never exceed what it started with. */
  lemma {:induction false} MovesBounded(settings: Settings, r: Run, n: nat, id: string)
    requires Valid(settings, r) && n <= |r.steps|
    ensures Accounted(settings, r, n, id)
  {
    if n == 0 {
    } else {
      MovesBounded(settings, r, n - 1, id);
      ReachableTicketOk(settings, r, n - 1, id);
      assert StepAt(settings, r, n - 1);
      AccountedNext(settings, r, n - 1, id);
    }
  }

  /** However many tickets, signals, retries and restarts a run holds, no ticket moves more than 2 L + 24 times. */
  lemma RunsEnd(settings: Settings, r: Run, id: string)
    requires Valid(settings, r)
    ensures MovesOf(r.steps, id) <= 2 * settings.maxReflectionLoops + 24
  {
    MovesBounded(settings, r, |r.steps|, id);
    ReachableTicketOk(settings, r, |r.steps|, id);
    assert r.steps[..|r.steps|] == r.steps;
  }

  // ---- How often the reflection loop runs.

  /** The step is a run of `node` for the ticket. */
  predicate RunsNode(s: System, step: Step, id: string, node: Node) {
    step.RunNode? && step.id == id && id in s.tickets && NodeOf(s.tickets[id].phase) == Some(node)
  }

  /** Runs of `node` for the ticket among the first `n` steps. */
  function NodeRuns(r: Run, n: nat, id: string, node: Node): nat
    requires n <= |r.steps| && |r.states| == |r.steps| + 1
  {
    if n == 0 then 0
    else
      var before := NodeRuns(r, n - 1, id, node);
      if RunsNode(r.states[n - 1], r.steps[n - 1], id, node) then before + 1 else before
  }

  /** Whether the step is a critique of the ticket's draft that passes. */
  predicate PassesDraft(s: System, step: Step, id: string) {
    RunsNode(s, step, id, Reflect) && step.answer.passed
  }

  /** Critiques that passed among the first `n` steps. */
  function Passes(r: Run, n: nat, id: string): nat
    requires n <= |r.steps| && |r.states| == |r.steps| + 1
  {
    if n == 0 then 0
    else
      var before := Passes(r, n - 1, id);
      if PassesDraft(r.states[n - 1], r.steps[n - 1], id) then before + 1 else before
  }

  /** Drafts and reflections so far, and critiques that passed. */
  datatype Tally = Tally(drafts: nat, reflections: nat, passes: nat)

  /** The loop is over: a critique has passed, or the loops are used up. */
  predicate LoopOver(settings: Settings, y: Tally) {
    && 1 <= y.drafts == y.reflections <= settings.maxReflectionLoops + 1
    && (y.passes == 1 || (y.passes == 0 && y.reflections == settings.maxReflectionLoops + 1))
  }

  /** What is behind a ticket, by where it stands. */
  predicate Rounded(settings: Settings, t: Ticket, y: Tally) {
    match t.phase
    case Invoked(node) =>
      if Rank(node) > Rank(Draft) then y == Tally(0, 0, 0) && t.values.reflections == 0
      else if node == Draft then
        y.drafts == y.reflections == t.values.reflections <= settings.maxReflectionLoops && y.passes == 0
      else if node == Reflect then
        && y.drafts == y.reflections + 1 && y.reflections == t.values.reflections <= settings.maxReflectionLoops
        && y.passes == 0
      else LoopOver(settings, y)
    case Failed =>
      y.reflections <= y.drafts <= y.reflections + 1 && y.drafts <= settings.maxReflectionLoops + 1 && y.passes <= 1
    case _ => LoopOver(settings, y)
  }

  function OneIf(b: bool): nat { if b then 1 else 0 }

  lemma RoundedStepped(settings: Settings, id: string, t: Ticket, step: Step, output: Option<Record>, y: Tally)
    requires TicketOk(settings, id, t) && EnabledFor(settings, t, step) && (step.Execute? ==> output.Some?)
    requires Rounded(settings, t, y)
    ensures Rounded(settings, Stepped(settings, id, t, step, output),
                    Tally(y.drafts + OneIf(step.RunNode? && NodeOf(t.phase) == Some(Draft)),
                          y.reflections + OneIf(step.RunNode? && NodeOf(t.phase) == Some(Reflect)),
                          y.passes + OneIf(step.RunNode? && NodeOf(t.phase) == Some(Reflect) && step.answer.passed)))
  {}

  /** Where the ticket stands in the system, if it is there yet. */
  predicate RoundedIn(settings: Settings, s: System, id: string, y: Tally) {
    if id in s.tickets then Rounded(settings, s.tickets[id], y) else y == Tally(0, 0, 0)
  }

  function TallyNext(s: System, step: Step, id: string, y: Tally): Tally {
    Tally(y.drafts + OneIf(RunsNode(s, step, id, Draft)), y.reflections + OneIf(RunsNode(s, step, id, Reflect)),
          y.passes + OneIf(PassesDraft(s, step, id)))
  }

  lemma RoundedOwn(settings: Settings, s: System, step: Step, id: string, y: Tally)
    requires Enabled(settings, s, step) && RoundedIn(settings, s, id, y) && id in s.tickets && Concerns(step, id)
    requires TicketOk(settings, id, s.tickets[id])
    ensures RoundedIn(settings, Apply(settings, s, step), id, TallyNext(s, step, id, y))
  {
    var t := s.tickets[id];
    var output := if step.Execute? then
      Some(ActionRegistry.Execute(s.registry, id, ActionOf(t), ActionArguments(t.values)).1) else None;
    RoundedStepped(settings, id, t, step, output, y);
  }

  lemma RoundedStep(settings: Settings, s: System, step: Step, id: string, y: Tally)
    requires Enabled(settings, s, step) && RoundedIn(settings, s, id, y)
    requires id in s.tickets ==> TicketOk(settings, id, s.tickets[id])
    ensures RoundedIn(settings, Apply(settings, s, step), id, TallyNext(s, step, id, y))
  {
    if id in s.tickets {
      if Concerns(step, id) { RoundedOwn(settings, s, step, id, y); } else { Bystander(settings, s, step, id); }
    }
  }

  function TallyAt(r: Run, n: nat, id: string): Tally
    requires n <= |r.steps| && |r.states| == |r.steps| + 1
  {
    Tally(NodeRuns(r, n, id, Draft), NodeRuns(r, n, id, Reflect), Passes(r, n, id))
  }

  lemma {:induction false} RoundsHold(settings: Settings, r: Run, n: nat, id: string)
    requires Valid(settings, r) && n <= |r.steps|
    ensures RoundedIn(settings, r.states[n], id, TallyAt(r, n, id))
  {
    if n == 0 {
    } else {
      RoundsHold(settings, r, n - 1, id);
      ReachableTicketOk(settings, r, n - 1, id);
      assert StepAt(settings, r, n - 1);
      RoundedStep(settings, r.states[n - 1], r.steps[n - 1], id, TallyAt(r, n - 1, id));
    }
  }

  /** In every run, whatever the models answer: no ticket drafts or reflects more than L + 1 times, and reflections
      follow drafts one for one. While the loop goes on no critique has passed; a ticket that reached its
      gate has done both equally often, and its last critique passed or the loops were used up. */
  lemma LoopBounded(settings: Settings, r: Run, n: nat, id: string)
    requires Valid(settings, r) && n <= |r.steps|
    ensures var drafts, reflections := NodeRuns(r, n, id, Draft), NodeRuns(r, n, id, Reflect);
      && reflections <= drafts <= reflections + 1 && drafts <= settings.maxReflectionLoops + 1
      && (id in r.states[n].tickets ==>
           var phase := r.states[n].tickets[id].phase;
           && (phase == Invoked(Draft) || phase == Invoked(Reflect) ==> Passes(r, n, id) == 0)
           && (phase.Interrupted? || phase.Paused? || phase.Resumed? || phase.Done? ==>
                && drafts == reflections >= 1
                && (Passes(r, n, id) == 1
                    || (Passes(r, n, id) == 0 && drafts == settings.maxReflectionLoops + 1))))
  {
    RoundsHold(settings, r, n, id);
  }

  /** A critique ends the loop exactly if it passes or is the last the settings allow: in every run, the ticket goes
      back to its draft if the critique failed and at most L were made, this one included, and else to its gate. */
  lemma CritiqueDecides(settings: Settings, r: Run, n: nat, id: string)
    requires Valid(settings, r) && n < |r.steps| && RunsNode(r.states[n], r.steps[n], id, Reflect)
    ensures id in r.states[n + 1].tickets
    ensures r.states[n + 1].tickets[id].phase ==
      if !r.steps[n].answer.passed && NodeRuns(r, n + 1, id, Reflect) <= settings.maxReflectionLoops
      then Invoked(Draft) else Invoked(Approval)
  {
    RoundsHold(settings, r, n, id);
    ReachableTicketOk(settings, r, n, id);
    assert StepAt(settings, r, n);
  }
}
