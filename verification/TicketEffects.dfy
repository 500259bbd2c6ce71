/** How often, and with what output, the side effect of a ticket happens: exact counts, and runs that reach them. */
module TicketEffects {
  import opened Wrappers
  import opened Tickets
  import opened SupportGraph
  import opened ActionRegistry
  import opened TicketWorkflow
  import opened TicketSystem
  import opened TicketSafety
  import opened TicketRuns
  import opened TicketOutcomes

  // ---- Repeats.

  /** What a registry call returns to the attempt that made it. */
  function Output(settings: Settings, s: System, step: Step): Record
    requires Enabled(settings, s, step) && step.Execute?
  {
    var t := s.tickets[step.id];
    ActionRegistry.Execute(s.registry, step.id, ActionOf(t), ActionArguments(t.values)).1
  }

  lemma ApprovedIsCommitted(settings: Settings, id: string, t: Ticket)
    requires TicketOk(settings, id, t) && IsApproved(t.values)
    ensures Committed(t)
  {}

  /** Any two registry calls of one ticket in a run return the same record, whatever other calls, lost answers
      and even worker restarts lie between them. */
  lemma RepeatsReturnTheFirst(settings: Settings, r: Run, i: nat, j: nat, id: string)
    requires Valid(settings, r) && i <= j < |r.steps|
    requires r.steps[i].Execute? && r.steps[j].Execute? && r.steps[i].id == id == r.steps[j].id
    ensures Enabled(settings, r.states[i], r.steps[i]) && Enabled(settings, r.states[j], r.steps[j])
    ensures Output(settings, r.states[j], r.steps[j]) == Output(settings, r.states[i], r.steps[i])
  {
    assert StepAt(settings, r, i) && StepAt(settings, r, j);
    ReachableOk(settings, r, i);
    ReachableOk(settings, r, j);
    OutputIsOwn(settings, r.states[i], r.steps[i]);
    OutputIsOwn(settings, r.states[j], r.steps[j]);
    ReachableTicketOk(settings, r, i, id);
    ApprovedIsCommitted(settings, id, r.states[i].tickets[id]);
    CommittedStays(settings, r, i, j, id);
  }

  // ---- The exact count.

  /** The step takes the ticket's action to the registry. */
  predicate Reaches(s: System, step: Step, id: string, action: ActionKind) {
    && step.Execute? && step.id == id && id in s.tickets
    && s.tickets[id].values.plan.Some? && s.tickets[id].values.plan.value.action == action
  }

  /** The worker processes in which it did. */
  function Reached(r: Run, n: nat, id: string, action: ActionKind): set<nat>
    requires n <= |r.steps| && |r.states| == |r.steps| + 1
  {
    if n == 0 then {}
    else
      var before := Reached(r, n - 1, id, action);
      if Reaches(r.states[n - 1], r.steps[n - 1], id, action) then before + {r.states[n - 1].process} else before
  }

  /** Effects under the key are as many as the processes; the registry knows the key if this is one of them. */
  ghost predicate Tallied(registry: Registry, process: nat, effects: seq<Effect>, key: string, reached: set<nat>) {
    && CountEffects(effects, key) == |reached|
    && (key in registry <==> process in reached)
    && forall p :: p in reached ==> p <= process
  }

  ghost predicate Counted(s: System, key: string, reached: set<nat>) {
    Tallied(s.registry, s.process, s.effects, key, reached)
  }

  lemma NamesDiffer(a: ActionKind, b: ActionKind)
    requires Name(a) == Name(b)
    ensures a == b
  {}

  lemma OtherKey(t: string, a: ActionKind, u: string, b: ActionKind)
    requires t != u || a != b
    ensures Key(t, Name(a)) != Key(u, Name(b))
  {
    if Key(t, Name(a)) == Key(u, Name(b)) {
      NamesHaveNoColon(a);
      NamesHaveNoColon(b);
      KeyInjective(t, Name(a), u, Name(b));
      NamesDiffer(a, b);
    }
  }

  lemma OneMoreEffect(effects: seq<Effect>, e: Effect, key: string)
    ensures CountEffects(effects + [e], key)
         == CountEffects(effects, key) + if e.record.idempotencyKey == key then 1 else 0
  {
    assert (effects + [e])[..|effects|] == effects;
  }

  lemma TallyCall(registry: Registry, process: nat, effects: seq<Effect>, key: string, reached: set<nat>, r: Record)
    requires Tallied(registry, process, effects, key, reached)
    ensures var after := if r.idempotencyKey == key then reached + {process} else reached;
      if r.idempotencyKey in registry then Tallied(registry, process, effects, key, after)
      else Tallied(registry[r.idempotencyKey := r], process, effects + [Effect(r, process)], key, after)
  {
    OneMoreEffect(effects, Effect(r, process), key);
    if r.idempotencyKey == key && key in registry {
      assert reached + {process} == reached;
    }
  }

  lemma ReachesByKey(settings: Settings, s: System, step: Step, id: string, action: ActionKind)
    requires SystemOk(settings, s) && Enabled(settings, s, step) && step.Execute?
    ensures Reaches(s, step, id, action) <==> Key(step.id, ActionOf(s.tickets[step.id])) == Key(id, Name(action))
  {
    if !Reaches(s, step, id, action) { OtherKey(step.id, s.tickets[step.id].values.plan.value.action, id, action); }
  }

  lemma CountedExecute(settings: Settings, s: System, step: Step, id: string, action: ActionKind, reached: set<nat>)
    requires SystemOk(settings, s) && Enabled(settings, s, step) && step.Execute?
    requires Counted(s, Key(id, Name(action)), reached)
    ensures Counted(Apply(settings, s, step), Key(id, Name(action)),
                    if Reaches(s, step, id, action) then reached + {s.process} else reached)
  {
    var t := s.tickets[step.id];
    ReachesByKey(settings, s, step, id, action);
    TallyCall(s.registry, s.process, s.effects, Key(id, Name(action)), reached,
              NewRecord(step.id, ActionOf(t), ActionArguments(t.values)));
  }

  lemma CountedNext(settings: Settings, s: System, step: Step, id: string, action: ActionKind, reached: set<nat>)
    requires SystemOk(settings, s) && Enabled(settings, s, step)
    requires Counted(s, Key(id, Name(action)), reached)
    ensures Counted(Apply(settings, s, step), Key(id, Name(action)),
                    if Reaches(s, step, id, action) then reached + {s.process} else reached)
  {
    if step.Execute? { CountedExecute(settings, s, step, id, action, reached); }
  }

  lemma CountedStep(settings: Settings, r: Run, n: nat, id: string, action: ActionKind)
    requires Valid(settings, r) && n < |r.steps|
    requires Counted(r.states[n], Key(id, Name(action)), Reached(r, n, id, action))
    ensures Counted(r.states[n + 1], Key(id, Name(action)), Reached(r, n + 1, id, action))
  {
    ReachableOk(settings, r, n);
    assert StepAt(settings, r, n);
    CountedNext(settings, r.states[n], r.steps[n], id, action, Reached(r, n, id, action));
  }

  /** A (ticket, action) takes effect exactly once in every worker process in which an attempt of it reached
      the registry, and in no other. */
  lemma {:induction false} EffectsCounted(settings: Settings, r: Run, n: nat, id: string, action: ActionKind)
    requires Valid(settings, r) && n <= |r.steps|
    ensures Counted(r.states[n], Key(id, Name(action)), Reached(r, n, id, action))
  {
    if n == 0 {
    } else {
      EffectsCounted(settings, r, n - 1, id, action);
      CountedStep(settings, r, n - 1, id, action);
    }
  }

  // ---- Runs that reach the bound.

  function LastState(r: Run): System
    requires |r.states| > 0
  {
    r.states[|r.states| - 1]
  }

  lemma Extend(settings: Settings, r: Run, step: Step) returns (q: Run)
    requires Valid(settings, r) && Enabled(settings, LastState(r), step)
    ensures Valid(settings, q) && LastState(q) == Apply(settings, LastState(r), step)
    ensures q.steps == r.steps + [step]
    ensures Restarts(q.steps) == Restarts(r.steps) + if step.RestartWorker? then 1 else 0
  {
    q := Run(r.states + [Apply(settings, LastState(r), step)], r.steps + [step]);
    assert q.steps[..|r.steps|] == r.steps;
    forall i: nat | i < |q.steps| ensures StepAt(settings, q, i) {
      if i < |r.steps| { assert StepAt(settings, r, i); }
    }
  }

  /** A run of one ticket without restarts or effects. */
  ghost predicate Driven(settings: Settings, r: Run, id: string, t: Ticket) {
    Valid(settings, r) && Restarts(r.steps) == 0 && LastState(r) == System(map[id := t], map[], 0, [])
  }

  lemma Drive(settings: Settings, r: Run, id: string, t: Ticket, step: Step) returns (q: Run, u: Ticket)
    requires Driven(settings, r, id, t) && EnabledFor(settings, t, step)
    requires !step.Begin? && !step.RestartWorker? && !step.Execute? && step.id == id
    ensures u == Stepped(settings, id, t, step, None) && Driven(settings, q, id, u)
  {
    u := Stepped(settings, id, t, step, None);
    q := Extend(settings, r, step);
    assert map[id := t][id := u] == map[id := u];
  }

  lemma BeginRun(settings: Settings, id: string) returns (r: Run, t: Ticket)
    ensures t == Fresh(id, "", None, 0, 0) && Driven(settings, r, id, t)
  {
    var start := Run([Initial()], []);
    t := Fresh(id, "", None, 0, 0);
    r := Extend(settings, start, Begin(id, "", None, 0, 0));
  }

  lemma ToDraftRun(settings: Settings, id: string, action: ActionKind) returns (r: Run, t: Ticket)
    ensures var f := Fresh(id, "", None, 0, 0);
      t == f.(phase := Invoked(Draft),
              values := f.values.(category := Some(""), plan := Some(ActionPlan(action, "", None))))
    ensures Driven(settings, r, id, t)
  {
    var a := Answer("", ActionPlan(action, "", None), "", true);
    r, t := BeginRun(settings, id);
    r, t := Drive(settings, r, id, t, RunNode(id, a));
    r, t := Drive(settings, r, id, t, RunNode(id, a));
    r, t := Drive(settings, r, id, t, RunNode(id, a));
    r, t := Drive(settings, r, id, t, RunNode(id, a));
    r, t := Drive(settings, r, id, t, RunNode(id, a));
  }

  /** Plan and draft are there, and the ticket is at its gate. */
  lemma ToGateRun(settings: Settings, id: string, action: ActionKind) returns (r: Run, t: Ticket)
    ensures Driven(settings, r, id, t) && t.phase == Invoked(Approval) && t.consumed == None
    ensures t.values.plan == Some(ActionPlan(action, "", None)) && t.values.draft == Some("")
    ensures t.values.approval == None
    ensures t.attempts == Attempts(0, None, {}, None) && t.workflow.decision == None && t.values.ticketId == id
  {
    var a := Answer("", ActionPlan(action, "", None), "", true);
    r, t := ToDraftRun(settings, id, action);
    r, t := Drive(settings, r, id, t, RunNode(id, a));
    r, t := Drive(settings, r, id, t, RunNode(id, a));
  }

  /** It pauses, a reviewer approves, and the action is next. */
  lemma ApprovedRun(settings: Settings, id: string, action: ActionKind) returns (r: Run, t: Ticket)
    requires Name(action) in settings.requireApprovalFor
    ensures Driven(settings, r, id, t) && t.phase == Resumed(ApplyAction)
    ensures t.values.plan == Some(ActionPlan(action, "", None)) && t.attempts == Attempts(0, None, {}, None)
  {
    var a := Answer("", ActionPlan(action, "", None), "", true);
    r, t := ToGateRun(settings, id, action);
    r, t := Drive(settings, r, id, t, RunNode(id, a));
    r, t := Drive(settings, r, id, t, Pause(id));
    r, t := Drive(settings, r, id, t, Signal(id, Decision(true, "", None)));
    r, t := Drive(settings, r, id, t, Wake(id));
    r, t := Drive(settings, r, id, t, RunNode(id, a));
  }

  /** After `k` restarts and as many effects: no attempt is out, and the registry has forgotten. */
  ghost predicate Armed(settings: Settings, r: Run, id: string, action: ActionKind, k: nat) {
    && Valid(settings, r) && Restarts(r.steps) == k
    && var s := LastState(r);
       && s.registry == map[] && CountEffects(s.effects, Key(id, Name(action))) == k && id in s.tickets
       && var t := s.tickets[id];
          && t.phase == Resumed(ApplyAction) && t.values.plan == Some(ActionPlan(action, "", None))
          && t.attempts == Attempts(k, None, {}, None)
  }

  /** Then one more attempt has reached the registry, and its answer is not delivered. */
  ghost predicate Shot(settings: Settings, r: Run, id: string, action: ActionKind, k: nat) {
    && Valid(settings, r) && Restarts(r.steps) == k
    && var s := LastState(r);
       && CountEffects(s.effects, Key(id, Name(action))) == k + 1 && id in s.tickets
       && var t := s.tickets[id];
          && t.phase == Resumed(ApplyAction) && t.values.plan == Some(ActionPlan(action, "", None))
          && t.attempts.started == k + 1 && t.attempts.live == Some(k + 1) && t.attempts.running == {}
  }

  /** An attempt of it is out. */
  ghost predicate Trying(settings: Settings, r: Run, id: string, action: ActionKind, k: nat) {
    && Valid(settings, r) && Restarts(r.steps) == k
    && var s := LastState(r);
       && s.registry == map[] && CountEffects(s.effects, Key(id, Name(action))) == k && id in s.tickets
       && var t := s.tickets[id];
          && t.phase == Resumed(ApplyAction) && t.values.plan == Some(ActionPlan(action, "", None))
          && t.attempts == Attempts(k + 1, Some(k + 1), {k + 1}, None)
  }

  lemma Try(settings: Settings, r: Run, id: string, action: ActionKind, k: nat) returns (q: Run)
    requires Armed(settings, r, id, action, k) && k < MAX_ATTEMPTS
    ensures Trying(settings, q, id, action, k)
  {
    q := Extend(settings, r, StartAttempt(id));
    assert {} + {k + 1} == {k + 1};
  }

  lemma Shoot(settings: Settings, r: Run, id: string, action: ActionKind, k: nat) returns (q: Run)
    requires Trying(settings, r, id, action, k)
    ensures Shot(settings, q, id, action, k)
  {
    var s := LastState(r);
    q := Extend(settings, r, Step.Execute(id, k + 1));
    OneMoreEffect(s.effects, Effect(RecordOf(s.tickets[id].values), s.process), Key(id, Name(action)));
    ReachableTicketOk(settings, r, |r.steps|, id);
    assert {k + 1} - {k + 1} == {};
  }

  /** The worker restarts and the attempt is given up. */
  lemma Rearm(settings: Settings, r: Run, id: string, action: ActionKind, k: nat) returns (q: Run)
    requires Shot(settings, r, id, action, k) && k + 1 < MAX_ATTEMPTS
    ensures Armed(settings, q, id, action, k + 1)
  {
    q := Extend(settings, r, RestartWorker);
    assert LastState(q).registry == map[] && id in LastState(q).tickets;
    assert LastState(q).tickets[id].attempts == Attempts(k + 1, Some(k + 1), {}, None);
    q := Extend(settings, q, LoseAttempt(id));
  }

  lemma {:induction false} ShotAfter(settings: Settings, id: string, action: ActionKind, k: nat) returns (r: Run)
    requires Name(action) in settings.requireApprovalFor && k < MAX_ATTEMPTS
    ensures Shot(settings, r, id, action, k)
  {
    if k == 0 {
      var t;
      r, t := ApprovedRun(settings, id, action);
      assert Armed(settings, r, id, action, 0);
    } else {
      r := ShotAfter(settings, id, action, k - 1);
      r := Rearm(settings, r, id, action, k - 1);
    }
    r := Try(settings, r, id, action, k);
    r := Shoot(settings, r, id, action, k);
  }

  function Least(a: nat, b: nat): nat { if a < b then a else b }

  /** The bound of three and one more than the restarts is reached, for every action that needs approval and
      every number of restarts: a side effect need not happen only once. */
  lemma {:induction false} BoundIsReached(settings: Settings, id: string, action: ActionKind,
                                          restarts: nat) returns (r: Run)
    requires Name(action) in settings.requireApprovalFor
    ensures Valid(settings, r) && Restarts(r.steps) == restarts
    ensures CountEffects(LastState(r).effects, Key(id, Name(action))) == Least(MAX_ATTEMPTS, 1 + restarts)
  {
    if restarts < MAX_ATTEMPTS {
      r := ShotAfter(settings, id, action, restarts);
    } else {
      r := BoundIsReached(settings, id, action, restarts - 1);
      r := Extend(settings, r, RestartWorker);
    }
  }
}
