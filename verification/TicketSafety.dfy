/** What every step of the ticket system keeps: approvals behind effects, and how often effects happen. */
module TicketSafety {
  import opened Wrappers
  import opened Tickets
  import opened SupportGraph
  import opened ActionRegistry
  import opened TicketWorkflow
  import opened TicketSystem

  /** The record stems from an approved ticket of the system. */
  ghost predicate Backed(tickets: map<string, Ticket>, r: Record) {
    exists id :: id in tickets && tickets[id].values.ticketId == id && BackedBy(tickets[id], r)
  }

  predicate BackedBy(t: Ticket, r: Record) {
    IsApproved(t.values) && r == RecordOf(t.values)
  }

  function CountEffects(effects: seq<Effect>, key: string): nat {
    if effects == [] then 0
    else
      var before := CountEffects(effects[..|effects| - 1], key);
      if effects[|effects| - 1].record.idempotencyKey == key then before + 1 else before
  }

  ghost predicate TicketsOk(settings: Settings, tickets: map<string, Ticket>) {
    forall id :: id in tickets ==> TicketOk(settings, id, tickets[id])
  }

  ghost predicate RegistryOk(tickets: map<string, Ticket>, registry: Registry) {
    forall k :: k in registry ==> registry[k].idempotencyKey == k && Backed(tickets, registry[k])
  }

  /** For one key, later effects happened in later worker processes; those of this process are registered. */
  ghost predicate EffectsOk(tickets: map<string, Ticket>, registry: Registry, process: nat, effects: seq<Effect>) {
    && (forall i :: 0 <= i < |effects| ==>
         && Backed(tickets, effects[i].record) && effects[i].process <= process
         && (effects[i].process == process ==> effects[i].record.idempotencyKey in registry))
    && OncePerProcess(effects)
  }

  ghost predicate OncePerProcess(effects: seq<Effect>) {
    forall i, j :: 0 <= i < j < |effects| && effects[i].record.idempotencyKey == effects[j].record.idempotencyKey ==>
      effects[i].process < effects[j].process
  }

  /** Effects so far and attempts that may still act never exceed the attempts started. */
  predicate WithinBudget(t: Ticket, effects: seq<Effect>) {
    IsApproved(t.values) ==>
      CountEffects(effects, RecordOf(t.values).idempotencyKey) + |t.attempts.running| <= t.attempts.started
  }

  ghost predicate WithinAttempts(tickets: map<string, Ticket>, effects: seq<Effect>) {
    forall id :: id in tickets ==> WithinBudget(tickets[id], effects)
  }

  ghost predicate SystemOk(settings: Settings, s: System) {
    && TicketsOk(settings, s.tickets) && RegistryOk(s.tickets, s.registry)
    && EffectsOk(s.tickets, s.registry, s.process, s.effects) && WithinAttempts(s.tickets, s.effects)
  }

  /** Once approved, what a ticket may do is fixed. */
  lemma ApprovedFrozen(settings: Settings, id: string, t: Ticket, step: Step, output: Option<Record>)
    requires TicketOk(settings, id, t) && EnabledFor(settings, t, step) && (step.Execute? ==> output.Some?)
    requires IsApproved(t.values)
    ensures var u := Stepped(settings, id, t, step, output);
      IsApproved(u.values) && RecordOf(u.values) == RecordOf(t.values)
  {}

  lemma SameKeySameTicket(t: Ticket, u: Ticket)
    requires t.values.plan.Some? && u.values.plan.Some?
    requires RecordOf(t.values).idempotencyKey == RecordOf(u.values).idempotencyKey
    ensures t.values.ticketId == u.values.ticketId && ActionOf(t) == ActionOf(u)
  {
    NamesHaveNoColon(t.values.plan.value.action);
    NamesHaveNoColon(u.values.plan.value.action);
    KeyInjective(t.values.ticketId, ActionOf(t), u.values.ticketId, ActionOf(u));
  }

  /** Any record under this ticket's key is this ticket's record, and the ticket is approved. */
  lemma KeyTellsTicket(tickets: map<string, Ticket>, id: string, r: Record)
    requires id in tickets && tickets[id].values.ticketId == id && tickets[id].values.plan.Some?
    requires Backed(tickets, r) && r.idempotencyKey == Key(id, ActionOf(tickets[id]))
    ensures BackedBy(tickets[id], r)
  {
    var other :| other in tickets && tickets[other].values.ticketId == other && BackedBy(tickets[other], r);
    SameKeySameTicket(tickets[id], tickets[other]);
  }

  /** The ticket `u` is a later form of `t`: what was approved is unchanged. */
  predicate Follows(t: Ticket, u: Ticket) {
    && u.values.ticketId == t.values.ticketId
    && (IsApproved(t.values) ==> IsApproved(u.values) && RecordOf(u.values) == RecordOf(t.values))
  }

  ghost predicate Keeps(before: map<string, Ticket>, after: map<string, Ticket>) {
    forall id :: id in before ==> id in after && Follows(before[id], after[id])
  }

  lemma RecordsKeep(before: map<string, Ticket>, after: map<string, Ticket>, registry: Registry, process: nat,
                    effects: seq<Effect>)
    requires Keeps(before, after) && RegistryOk(before, registry) && EffectsOk(before, registry, process, effects)
    ensures RegistryOk(after, registry) && EffectsOk(after, registry, process, effects)
  {}

  lemma RecordAdded(tickets: map<string, Ticket>, registry: Registry, process: nat, effects: seq<Effect>, r: Record)
    requires RegistryOk(tickets, registry) && EffectsOk(tickets, registry, process, effects)
    requires r.idempotencyKey !in registry && Backed(tickets, r)
    ensures RegistryOk(tickets, registry[r.idempotencyKey := r])
    ensures EffectsOk(tickets, registry[r.idempotencyKey := r], process, effects + [Effect(r, process)])
  {}

  /** What an attempt of this ticket gets back is this ticket's record, first call or not. */
  lemma OutputIsOwn(settings: Settings, s: System, step: Step)
    requires SystemOk(settings, s) && Enabled(settings, s, step) && step.Execute?
    ensures var t := s.tickets[step.id];
      && IsApproved(t.values)
      && ActionRegistry.Execute(s.registry, step.id, ActionOf(t), ActionArguments(t.values)).1 == RecordOf(t.values)
  {
    var t := s.tickets[step.id];
    assert TicketOk(settings, step.id, t);
    assert t.attempts.started > 0;
    var key := Key(step.id, ActionOf(t));
    if key in s.registry { KeyTellsTicket(s.tickets, step.id, s.registry[key]); }
  }

  lemma {:induction false} NoEffectYet(settings: Settings, tickets: map<string, Ticket>, id: string,
                                       effects: seq<Effect>)
    requires id in tickets && tickets[id].values.ticketId == id && tickets[id].values.plan.Some?
    requires !IsApproved(tickets[id].values)
    requires forall i :: 0 <= i < |effects| ==> Backed(tickets, effects[i].record)
    ensures CountEffects(effects, Key(id, ActionOf(tickets[id]))) == 0
  {
    if effects == [] {
    } else {
      var last := effects[|effects| - 1];
      NoEffectYet(settings, tickets, id, effects[..|effects| - 1]);
      if last.record.idempotencyKey == Key(id, ActionOf(tickets[id])) {
        KeyTellsTicket(tickets, id, last.record);
      }
    }
  }

  /** A ticket becomes approved at its gate, before any attempt and without changing its plan. */
  lemma ApprovedAtGate(settings: Settings, id: string, t: Ticket, step: Step)
    requires TicketOk(settings, id, t) && EnabledFor(settings, t, step) && !step.Execute?
    requires !IsApproved(t.values) && IsApproved(Stepped(settings, id, t, step, None).values)
    ensures var u := Stepped(settings, id, t, step, None);
      t.values.plan.Some? && RecordOf(u.values) == RecordOf(t.values) && u.attempts == t.attempts
      && t.attempts.running == {}
  {}

  /** Any step of one ticket but the registry call. */
  lemma OwnStep(settings: Settings, tickets: map<string, Ticket>, effects: seq<Effect>, step: Step)
    requires !step.Begin? && !step.RestartWorker? && !step.Execute?
    requires step.id in tickets && TicketOk(settings, step.id, tickets[step.id])
    requires EnabledFor(settings, tickets[step.id], step)
    requires WithinBudget(tickets[step.id], effects)
    requires forall i :: 0 <= i < |effects| ==> Backed(tickets, effects[i].record)
    ensures var u := Stepped(settings, step.id, tickets[step.id], step, None);
      TicketOk(settings, step.id, u) && Follows(tickets[step.id], u) && WithinBudget(u, effects)
  {
    var id, t := step.id, tickets[step.id];
    SteppedOk(settings, id, t, step, None);
    if IsApproved(t.values) {
      ApprovedFrozen(settings, id, t, step, None);
    } else if IsApproved(Stepped(settings, id, t, step, None).values) {
      ApprovedAtGate(settings, id, t, step);
      NoEffectYet(settings, tickets, id, effects);
    }
  }

  lemma OneTicketChanged(settings: Settings, s: System, id: string, u: Ticket)
    requires SystemOk(settings, s) && TicketOk(settings, id, u) && WithinBudget(u, s.effects)
    requires id in s.tickets ==> Follows(s.tickets[id], u)
    ensures SystemOk(settings, s.(tickets := s.tickets[id := u]))
  {
    RecordsKeep(s.tickets, s.tickets[id := u], s.registry, s.process, s.effects);
  }

  ghost predicate Preserved(settings: Settings, s: System, step: Step)
    requires Enabled(settings, s, step)
  {
    SystemOk(settings, Apply(settings, s, step))
  }

  lemma RestartOk(settings: Settings, s: System)
    requires SystemOk(settings, s)
    ensures Preserved(settings, s, RestartWorker)
  {
    var after := Apply(settings, s, RestartWorker).tickets;
    forall id | id in after
      ensures TicketOk(settings, id, after[id]) && Follows(s.tickets[id], after[id])
      ensures WithinBudget(after[id], s.effects)
    {
      assert TicketOk(settings, id, s.tickets[id]) && WithinBudget(s.tickets[id], s.effects);
    }
    RecordsKeep(s.tickets, after, s.registry, s.process, s.effects);
  }

  lemma ExecutedOk(settings: Settings, id: string, t: Ticket, step: Step)
    requires TicketOk(settings, id, t) && EnabledFor(settings, t, step) && step.Execute? && IsApproved(t.values)
    ensures var u := Stepped(settings, id, t, step, Some(RecordOf(t.values)));
      && TicketOk(settings, id, u) && Follows(t, u)
      && |u.attempts.running| + 1 == |t.attempts.running| && u.attempts.started == t.attempts.started
  {
    var u := Stepped(settings, id, t, step, Some(RecordOf(t.values)));
    SteppedOk(settings, id, t, step, Some(RecordOf(t.values)));
    assert u.attempts.running + {step.attempt} == t.attempts.running;
  }

  /** The registry call: the attempt stops running, and an effect appears only for a new key. */
  lemma ExecuteOk(settings: Settings, s: System, step: Step)
    requires SystemOk(settings, s) && Enabled(settings, s, step) && step.Execute?
    ensures Preserved(settings, s, step)
  {
    var id, t := step.id, s.tickets[step.id];
    OutputIsOwn(settings, s, step);
    ExecutedOk(settings, id, t, step);
    var u := Stepped(settings, id, t, step, Some(RecordOf(t.values)));
    if RecordOf(t.values).idempotencyKey in s.registry {
      OneTicketChanged(settings, s, id, u);
    } else {
      NewEffectOk(settings, s, id, u);
    }
  }

  lemma NewEffectOk(settings: Settings, s: System, id: string, u: Ticket)
    requires SystemOk(settings, s) && id in s.tickets && IsApproved(s.tickets[id].values)
    requires TicketOk(settings, id, u) && Follows(s.tickets[id], u)
    requires |u.attempts.running| + 1 == |s.tickets[id].attempts.running|
    requires u.attempts.started == s.tickets[id].attempts.started
    requires RecordOf(u.values).idempotencyKey !in s.registry
    ensures var r := RecordOf(u.values);
      SystemOk(settings, System(s.tickets[id := u], s.registry[r.idempotencyKey := r], s.process,
                                s.effects + [Effect(r, s.process)]))
  {
    var after, r := s.tickets[id := u], RecordOf(u.values);
    RecordsKeep(s.tickets, after, s.registry, s.process, s.effects);
    assert BackedBy(after[id], r);
    RecordAdded(after, s.registry, s.process, s.effects, r);
    EffectCounted(settings, s.tickets, s.effects, id, u, Effect(r, s.process));
  }

  /** One more effect of this ticket uses up the attempt that brought it. */
  lemma EffectCounted(settings: Settings, tickets: map<string, Ticket>, effects: seq<Effect>, id: string, u: Ticket,
                      e: Effect)
    requires id in tickets && TicketsOk(settings, tickets) && WithinAttempts(tickets, effects)
    requires IsApproved(tickets[id].values) && Follows(tickets[id], u) && e.record == RecordOf(u.values)
    requires |u.attempts.running| + 1 == |tickets[id].attempts.running|
    requires u.attempts.started == tickets[id].attempts.started
    ensures WithinAttempts(tickets[id := u], effects + [e])
  {
    assert (effects + [e])[..|effects|] == effects;
    forall other | other in tickets ensures WithinBudget(tickets[id := u][other], effects + [e]) {
      assert WithinBudget(tickets[other], effects) && TicketOk(settings, other, tickets[other]);
      assert TicketOk(settings, id, tickets[id]);
      if other != id && IsApproved(tickets[other].values) {
        if RecordOf(tickets[other].values).idempotencyKey == e.record.idempotencyKey {
          SameKeySameTicket(tickets[other], u);
        }
      }
    }
  }

  lemma OwnStepOk(settings: Settings, s: System, step: Step)
    requires SystemOk(settings, s) && Enabled(settings, s, step)
    requires !step.Begin? && !step.RestartWorker? && !step.Execute?
    ensures Preserved(settings, s, step)
  {
    OwnStep(settings, s.tickets, s.effects, step);
    OneTicketChanged(settings, s, step.id, Stepped(settings, step.id, s.tickets[step.id], step, None));
  }

  lemma BeginOk(settings: Settings, s: System, step: Step)
    requires SystemOk(settings, s) && Enabled(settings, s, step) && step.Begin?
    ensures Preserved(settings, s, step)
  {
    FreshOk(settings, step.id, step.customerId, step.orderId, step.timeoutHours, step.now);
    OneTicketChanged(settings, s, step.id,
                     Fresh(step.id, step.customerId, step.orderId, step.timeoutHours, step.now));
  }

  lemma TicketStepOk(settings: Settings, s: System, step: Step)
    requires SystemOk(settings, s) && Enabled(settings, s, step) && !step.Begin? && !step.RestartWorker?
    ensures Preserved(settings, s, step)
  {
    if step.Execute? { ExecuteOk(settings, s, step); } else { OwnStepOk(settings, s, step); }
  }

  /** Every enabled step keeps the system sound. */
  lemma StepOk(settings: Settings, s: System, step: Step)
    requires SystemOk(settings, s) && Enabled(settings, s, step)
    ensures Preserved(settings, s, step)
  {
    if step.Begin? {
      BeginOk(settings, s, step);
    } else if step.RestartWorker? {
      RestartOk(settings, s);
    } else {
      TicketStepOk(settings, s, step);
    }
  }

  // ---- How often an effect happens.

  lemma {:induction false} CountBound(effects: seq<Effect>, key: string, last: int)
    requires last >= -1 && OncePerProcess(effects)
    requires forall i :: 0 <= i < |effects| && effects[i].record.idempotencyKey == key ==> effects[i].process <= last
    ensures CountEffects(effects, key) <= last + 1
  {
    if effects == [] {
    } else {
      var e := effects[|effects| - 1];
      CountBound(effects[..|effects| - 1], key, if e.record.idempotencyKey == key then e.process - 1 else last);
    }
  }

  lemma {:induction false} SomeEffect(effects: seq<Effect>, key: string)
    requires CountEffects(effects, key) > 0
    ensures exists i :: 0 <= i < |effects| && effects[i].record.idempotencyKey == key
  {
    if effects[|effects| - 1].record.idempotencyKey == key {
    } else {
      SomeEffect(effects[..|effects| - 1], key);
    }
  }

  /** For any key: at most one effect in each worker process, and at most min(3, 1 + restarts) in all. */
  lemma EffectBounds(settings: Settings, s: System, key: string)
    requires SystemOk(settings, s)
    ensures forall i, j :: 0 <= i < j < |s.effects| && s.effects[i].process == s.effects[j].process ==>
      s.effects[i].record.idempotencyKey != s.effects[j].record.idempotencyKey
    ensures CountEffects(s.effects, key) <= 1 + s.process
    ensures CountEffects(s.effects, key) <= MAX_ATTEMPTS
  {
    CountBound(s.effects, key, s.process);
    if CountEffects(s.effects, key) > 0 {
      SomeEffect(s.effects, key);
      var i :| 0 <= i < |s.effects| && s.effects[i].record.idempotencyKey == key;
      var r := s.effects[i].record;
      assert Backed(s.tickets, r);
      var id :| id in s.tickets && s.tickets[id].values.ticketId == id && BackedBy(s.tickets[id], r);
      assert TicketOk(settings, id, s.tickets[id]) && WithinBudget(s.tickets[id], s.effects);
    }
  }
}
