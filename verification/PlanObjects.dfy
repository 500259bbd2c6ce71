/** Plans as the mutable dictionaries of the program: every operation works on a deep copy. */
module PlanObjects {
  import opened Wrappers
  import opened CanonicalJson
  import opened ShockEngine
  import opened PlanLifecycle

  /** plan["governance"] */
  class GovernanceRecord {
    var armedBy: Option<string>
    var armedAt: Option<int>
    var armedLevel: Option<real>
    var armedSignature: Option<string>
    var firedAt: Option<int>
    var firedObservation: Option<Observation>
    var resolution: Option<State>
    var resolutionReason: Option<string>
    var decisionLog: seq<Entry>

    constructor (g: Governance)
      ensures View() == g
    {
      armedBy, armedAt, armedLevel, armedSignature := g.armedBy, g.armedAt, g.armedLevel, g.armedSignature;
      firedAt, firedObservation := g.firedAt, g.firedObservation;
      resolution, resolutionReason, decisionLog := g.resolution, g.resolutionReason, g.log;
    }

    function View(): Governance
      reads this
    {
      Governance(armedBy, armedAt, armedLevel, armedSignature, firedAt, firedObservation,
                 resolution, resolutionReason, decisionLog)
    }
  }

  class PlanRecord {
    var body: Body
    var state: State
    var governance: GovernanceRecord

    constructor (p: Plan)
      ensures View() == p && fresh(governance)
    {
      body, state := p.body, p.state;
      governance := new GovernanceRecord(p.gov);
    }

    function View(): Plan
      reads this, governance
    {
      Plan(body, state, governance.View())
    }

    /** copy.deepcopy: a new dictionary and a new governance dictionary inside it. */
    method DeepCopy() returns (c: PlanRecord)
      ensures fresh(c) && fresh(c.governance) && c.View() == View()
    {
      c := new PlanRecord(Plan(body, state, governance.View()));
    }

    /** `_log` */
    method Log(actor: string, to: State, note: string, at: int)
      modifies governance
      ensures View() == Logged(old(View()), actor, to, note, at)
    {
      governance.decisionLog := governance.decisionLog + [Entry(at, actor, Some(state), to, note)];
    }

    /** `_transition`, which raises before it writes anything. */
    method Move(to: State, actor: string, note: string, at: int) returns (refused: Option<Refusal>)
      modifies this`state, governance
      ensures governance == old(governance)
      ensures match Transition(old(View()), to, actor, note, at)
        case Ok(q) => refused == None && View() == q
        case Err(e) => refused == Some(e) && View() == old(View())
    {
      if !Allowed(state, to) { return Some(NotAllowed(body.planId, state, to)); }
      Log(actor, to, note, at);
      state := to;
      return None;
    }
  }

  /** A successful operation hands back an object no one else holds; a refused one nothing. */
  twostate predicate Returned(new r: Result<PlanRecord, Refusal>, spec: Result<Plan, Refusal>)
    reads if r.Ok? then {r.value, r.value.governance} else {}
  {
    match spec
    case Ok(q) => r.Ok? && fresh(r.value) && fresh(r.value.governance) && r.value.View() == q
    case Err(e) => r == Err(e)
  }

  // Nothing below has a modifies clause: the caller's plan is left as it was, raised or not.

  method ArmPlan(env: Env, original: PlanRecord, rm: string, level: Option<real>, note: string, at: Option<int>,
                 clock: Clock)
    returns (r: Result<PlanRecord, Refusal>)
    ensures Returned(r, Arm(env, original.View(), rm, level, note, at, clock))
    ensures r.Ok? ==>
      && r.value.body == original.body && r.value.state == Watching && r.value.governance.armedBy == Some(rm)
      && r.value.governance.armedLevel == Some(if level.Some? then level.value else original.body.trigger.level)
  {
    var plan := original.DeepCopy();
    var g := plan.governance;
    var lvl := Level(plan.View(), level);
    g.armedBy := Some(rm);
    g.armedAt := Some(Or(at, clock.first));
    g.armedLevel := Some(lvl);
    g.armedSignature := Some(Signature(env, plan.body));
    assert plan.View() == ArmRecord(env, original.View(), rm, level, Or(at, clock.first));
    var refused := plan.Move(Armed, rm, ArmNote(env, original.View(), lvl, note), Or(at, clock.second));
    if refused.Some? { return Err(refused.value); }
    refused := plan.Move(Watching, "system", "trigger registered with the watcher", Or(at, clock.third));
    if refused.Some? { return Err(refused.value); }
    return Ok(plan);
  }

  method DismissPlan(original: PlanRecord, rm: string, reason: string, now: int)
    returns (r: Result<PlanRecord, Refusal>)
    ensures Returned(r, Dismiss(original.View(), rm, reason, now))
  {
    if Strip(reason) == "" { return Err(NoReason); }
    var plan := original.DeepCopy();
    plan.governance.resolution := Some(Dismissed);
    plan.governance.resolutionReason := Some(Strip(reason));
    var refused := plan.Move(Dismissed, rm, Strip(reason), now);
    if refused.Some? { return Err(refused.value); }
    return Ok(plan);
  }

  method FirePlan(env: Env, original: PlanRecord, o: Observation, clock: Clock)
    returns (r: Result<PlanRecord, Refusal>)
    ensures Returned(r, Fire(env, original.View(), o, clock))
  {
    var plan := original.DeepCopy();
    plan.governance.firedAt := Some(clock.first);
    plan.governance.firedObservation := Some(o);
    var refused := plan.Move(Fired, "watcher", Expression(env, o), clock.second);
    if refused.Some? { return Err(refused.value); }
    return Ok(plan);
  }

  method ActionPlan(original: PlanRecord, rm: string, rank: int, note: string, now: int)
    returns (r: Result<PlanRecord, Refusal>)
    ensures Returned(r, Act(original.View(), rm, rank, note, now))
  {
    var plan := original.DeepCopy();
    var chosen := Chosen(plan.body.actions, rank);
    if chosen == None { return Err(NoSuchRank(rank)); }
    plan.governance.resolution := Some(Actioned);
    plan.governance.resolutionReason := Some("Action " + Decimal(rank) + ": " + chosen.value.action);
    var refused := plan.Move(Actioned, rm, Shortened(if note != "" then note else chosen.value.action), now);
    if refused.Some? { return Err(refused.value); }
    return Ok(plan);
  }
}
