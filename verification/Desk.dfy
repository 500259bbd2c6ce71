/** The contingency desk on values: the market update and the app's callbacks as state steps. */
module Desk {
  import opened Wrappers
  import CanonicalJson
  import opened ShockEngine
  import opened PlanLifecycle
  import opened Sweeping

  type Plans = map<string, Plan>

  /** Whether the watcher finds a plan's trigger true: only WATCHING plans are evaluated. */
  function Look(market: Market): Plan -> Result<bool, Error> {
    (p: Plan) =>
      match Watched(p, market)
      case Err(e) => Err(e)
      case Ok(o) => Ok(o.Some?)
  }

  /** The plan after the watcher fired it, `k` being its place in the sweep. */
  function Turn(env: Env, market: Market, clock: nat -> Clock): (Plan, nat) -> Plan {
    (p: Plan, k: nat) => Watch(env, p, market, clock(k))
  }

  lemma FiredPlansAreDone(env: Env, market: Market, clock: nat -> Clock, p: Plan, k: nat)
    requires Look(market)(p) == Ok(true)
    ensures Look(market)(Turn(env, market, clock)(p, k)) == Ok(false)
  {
    assert Turn(env, market, clock)(p, k) == Watch(env, p, market, clock(k));
    assert Watch(env, p, market, clock(k)).state == Fired;
  }

  /** Firing a plan whose trigger was found true is what its turn comes to. */
  lemma FiringIsTheTurn(env: Env, p: Plan, o: Observation, market: Market, clock: Clock)
    requires Watched(p, market) == Ok(Some(o))
    ensures Fire(env, p, o, clock) == Ok(Watch(env, p, market, clock))
  {}

  /** A watching plan whose trigger the watcher cannot read. */
  predicate Unreadable(facts: Facts, p: Plan) {
    p.state == Watching && !Readable(p.body.trigger, facts.facilities.Keys)
  }

  /** A watching plan whose trigger is true at its armed level. */
  predicate TriggerTrue(market: Market, p: Plan) {
    && p.state == Watching && Readable(p.body.trigger, market.facilities.Keys)
    && Compare(p.body.trigger.operator, Resolve(p.body.trigger.variable, market).value,
               if p.gov.armedLevel.Some? then p.gov.armedLevel.value else p.body.trigger.level) == Ok(true)
  }

  /** What looking at a plan comes to. */
  lemma LookGuards(facts: Facts, market: Market, p: Plan)
    requires market.facilities.Keys == facts.facilities.Keys
    ensures Look(market)(p).Err? <==> Unreadable(facts, p)
    ensures Look(market)(p) == Ok(true) <==> TriggerTrue(market, p)
  {
    EvaluateReads(p.body.trigger, market, p.gov.armedLevel);
  }

  function MarketSweep(env: Env, plans: Plans, order: seq<string>, market: Market, clock: nat -> Clock): Sweep<Plan,
                       Error>
    requires forall id :: id in order ==> id in plans
  {
    SweepTo(Look(market), Turn(env, market, clock), plans, order, |order|)
  }

  /** One sweep at a market fires exactly the watching plans that hit it, in order; the next fires none. */
  lemma SweepOnce(env: Env, plans: Plans, order: seq<string>, market: Market, clock: nat -> Clock, later: nat -> Clock)
    requires Listed(plans, order)
    ensures var s := MarketSweep(env, plans, order, market, clock);
      && (s.raised == None <==> forall id :: id in plans ==> Look(market)(plans[id]).Ok?)
      && (s.raised == None ==>
           && s.fired == Hits(Look(market), plans, order, |order|)
           && (forall i :: 0 <= i < |order| ==>
                s.plans[order[i]] == After(Look(market), Turn(env, market, clock), plans[order[i]], i))
           && NothingPending(Look(market), s.plans)
           && MarketSweep(env, s.plans, order, market, later) == Sweep(s.plans, [], None))
      && Described(Look(market), Turn(env, market, clock), plans, order, |order|, s)
  {
    var look, turn := Look(market), Turn(env, market, clock);
    forall p, k | look(p) == Ok(true) ensures look(turn(p, k)) == Ok(false) {
      FiredPlansAreDone(env, market, clock, p, k);
    }
    SweepFiresHits(look, turn, plans, order, |order|);
    SecondSweepIdle(look, turn, Turn(env, market, later), plans, order);
    EveryPlanLooked(look, plans, order);
  }

  lemma EveryPlanLooked(look: Plan -> Result<bool, Error>, plans: Plans, order: seq<string>)
    requires Listed(plans, order)
    ensures (forall i :: 0 <= i < |order| ==> look(plans[order[i]]).Ok?) <==>
            forall id :: id in plans ==> look(plans[id]).Ok?
  {}

  // ---- The session.

  /** The parts of the session the callbacks move; `error` is the refusal on screen. */
  datatype Session = Session(plans: Plans, order: seq<string>, brent: real, shocked: Option<Market>,
                             error: Option<Refusal>)

  /** What stays fixed: the platform, the facts and the plan files. */
  datatype Setting = Setting(env: Env, facts: Facts, loaded: Plans, loadedOrder: seq<string>)

  /** Every callback ends in at most one sweep, which reads its own clock. */
  datatype Callback =
    | SetBrent(level: real, sweepClock: nat -> Clock)
    | ResetDemo(sweepClock: nat -> Clock)
    | Perform(planId: string, op: Op, sweepClock: nat -> Clock)

  /** A callback's outcome: the session it leaves and the exception it lets escape, if any. */
  datatype Outcome = Outcome(session: Session, escaped: Option<Error>)

  function UpdateMarket(setting: Setting, s: Session, clock: nat -> Clock): Outcome
    requires Listed(s.plans, s.order)
  {
    match ShockAt(setting.facts, s.brent)
    case Err(e) => Outcome(s, Some(e))
    case Ok(market) =>
      var w := MarketSweep(setting.env, s.plans, s.order, market, clock);
      Outcome(s.(shocked := Some(market), plans := w.plans), w.raised)
  }

  /** The session once an operation went through or was refused; a refusal is the message on screen. */
  function Performed(setting: Setting, s: Session, id: string, op: Op): (t: Session)
    requires id in s.plans
    ensures t.plans.Keys == s.plans.Keys && t.order == s.order
  {
    match Attempt(setting.env, s.plans[id], op)
    case Err(refusal) => s.(error := Some(refusal))
    case Ok(q) => s.(plans := s.plans[id := q], error := None)
  }

  /** After a refusal nothing more; after an operation that went through, the market update. */
  function Concluded(setting: Setting, t: Session, clock: nat -> Clock): Outcome
    requires Listed(t.plans, t.order)
  {
    if t.error.Some? then Outcome(t, None) else UpdateMarket(setting, t, clock)
  }

  function OnCallback(setting: Setting, s: Session, cb: Callback): Outcome
    requires Listed(s.plans, s.order) && Listed(setting.loaded, setting.loadedOrder)
  {
    match cb
    case SetBrent(level, clock) => UpdateMarket(setting, s.(brent := level), clock)
    case ResetDemo(clock) =>
      UpdateMarket(setting, s.(plans := setting.loaded, order := setting.loadedOrder,
                            brent := setting.facts.brentNow, error := None), clock)
    case Perform(id, op, clock) =>
      if id !in s.plans then Outcome(s, Some(KeyError(id)))
      else
        Concluded(setting, Performed(setting, s, id, op), clock)
  }

  /** The numbers on screen are those of the dial, and no watching plan's trigger is true. */
  ghost predicate Settled(setting: Setting, s: Session) {
    && ShockAt(setting.facts, s.brent).Ok? && s.shocked == Some(ShockAt(setting.facts, s.brent).value)
    && forall id :: id in s.plans ==> !TriggerTrue(s.shocked.value, s.plans[id])
  }

  /** No plan whose trigger is true at the price stands after one that cannot be read. */
  ghost predicate TrueOnesFirst(setting: Setting, s: Session)
    requires Priceable(setting.facts, s.brent) && Listed(s.plans, s.order)
  {
    ShockGuards(setting.facts, s.brent);
    forall i, j :: 0 <= i < j < |s.order| && Unreadable(setting.facts, s.plans[s.order[i]]) ==>
      !TriggerTrue(ShockAt(setting.facts, s.brent).value, s.plans[s.order[j]])
  }

  /** What decides whether an update settles the session, read off the session before it. */
  ghost predicate Settleable(setting: Setting, s: Session)
    requires Listed(s.plans, s.order)
  {
    Priceable(setting.facts, s.brent) && TrueOnesFirst(setting, s)
  }

  /** What decides whether an update raises. */
  ghost predicate Quiet(setting: Setting, s: Session) {
    Priceable(setting.facts, s.brent) && forall id :: id in s.plans ==> !Unreadable(setting.facts, s.plans[id])
  }

  /** The watcher sees of every plan what its guards say. */
  ghost predicate Sees(look: Plan -> Result<bool, Error>, facts: Facts, market: Market) {
    forall p: Plan :: (look(p).Err? <==> Unreadable(facts, p)) && (look(p) == Ok(true) <==> TriggerTrue(market, p))
  }

  lemma LookSees(facts: Facts, market: Market)
    requires market.facilities.Keys == facts.facilities.Keys
    ensures Sees(Look(market), facts, market)
  {
    forall p: Plan
      ensures Look(market)(p).Err? <==> Unreadable(facts, p)
      ensures Look(market)(p) == Ok(true) <==> TriggerTrue(market, p)
    {
      LookGuards(facts, market, p);
    }
  }

  lemma SweepLeaves(setting: Setting, s: Session, market: Market, clock: nat -> Clock)
    requires Listed(s.plans, s.order)
    ensures var w := MarketSweep(setting.env, s.plans, s.order, market, clock);
      && (w.raised == None <==> forall id :: id in s.plans ==> Look(market)(s.plans[id]).Ok?)
      && (NoneTrue(Look(market), w.plans) <==> HitsComeFirst(Look(market), s.plans, s.order))
  {
    var look, turn := Look(market), Turn(setting.env, market, clock);
    forall p, k: nat | look(p) == Ok(true) ensures look(turn(p, k)) == Ok(false) {
      FiredPlansAreDone(setting.env, market, clock, p, k);
    }
    SweepLeavesNoneTrue(look, turn, s.plans, s.order);
    EveryPlanLooked(look, s.plans, s.order);
  }

  lemma SweepSettles(setting: Setting, s: Session, market: Market, clock: nat -> Clock)
    requires Listed(s.plans, s.order) && market.facilities.Keys == setting.facts.facilities.Keys
    ensures var w := MarketSweep(setting.env, s.plans, s.order, market, clock);
      && (w.raised == None <==> forall id :: id in s.plans ==> !Unreadable(setting.facts, s.plans[id]))
      && ((forall id :: id in w.plans ==> !TriggerTrue(market, w.plans[id])) <==>
          forall i, j :: 0 <= i < j < |s.order| && Unreadable(setting.facts, s.plans[s.order[i]]) ==>
            !TriggerTrue(market, s.plans[s.order[j]]))
  {
    SweepLeaves(setting, s, market, clock);
    LookSees(setting.facts, market);
    Translate(Look(market), setting.facts, market, s.plans, s.order,
              MarketSweep(setting.env, s.plans, s.order, market, clock).plans);
  }

  lemma Translate(look: Plan -> Result<bool, Error>, facts: Facts, market: Market, plans: Plans, order: seq<string>,
                  now: Plans)
    requires Sees(look, facts, market) && forall id :: id in order ==> id in plans
    ensures NoneTrue(look, now) <==> forall id :: id in now ==> !TriggerTrue(market, now[id])
    ensures (forall id :: id in plans ==> look(plans[id]).Ok?) <==>
            forall id :: id in plans ==> !Unreadable(facts, plans[id])
    ensures HitsComeFirst(look, plans, order) <==>
            forall i, j :: 0 <= i < j < |order| && Unreadable(facts, plans[order[i]]) ==>
              !TriggerTrue(market, plans[order[j]])
  {}

  /** An update of the market settles the session exactly if the book can be priced and every trigger that is
      true is reached before the first that cannot be read; it raises exactly if the book cannot be
      priced or some trigger cannot be read. */
  lemma UpdateSettles(setting: Setting, s: Session, clock: nat -> Clock)
    requires Listed(s.plans, s.order)
    ensures var o := UpdateMarket(setting, s, clock);
      && Listed(o.session.plans, o.session.order)
      && (o.escaped == None <==> Quiet(setting, s))
      && (Settled(setting, o.session) <==> Settleable(setting, s))
  {
    ShockGuards(setting.facts, s.brent);
    if ShockAt(setting.facts, s.brent).Ok? {
      SweepSettles(setting, s, ShockAt(setting.facts, s.brent).value, clock);
    }
  }

  // ---- Runs of the app.

  function Start(setting: Setting): Session {
    Session(setting.loaded, setting.loadedOrder, setting.facts.brentNow, None, None)
  }

  /** `main` on its first run: the plan files, today's price, and one market update. */
  function Initial(setting: Setting, clock: nat -> Clock): Outcome
    requires Listed(setting.loaded, setting.loadedOrder)
  {
    UpdateMarket(setting, Start(setting), clock)
  }

  function RunApp(setting: Setting, clock: nat -> Clock, cbs: seq<Callback>): (o: Outcome)
    requires Listed(setting.loaded, setting.loadedOrder)
    ensures Listed(o.session.plans, o.session.order)
  {
    if cbs == [] then
      UpdateSettles(setting, Start(setting), clock);
      Initial(setting, clock)
    else
      var s := RunApp(setting, clock, cbs[..|cbs| - 1]).session;
      CallbackSettles(setting, s, cbs[|cbs| - 1]);
      OnCallback(setting, s, cbs[|cbs| - 1])
  }

  /** The session a callback is about to update the market of; None when it does not get that far. */
  function Prepared(setting: Setting, s: Session, cb: Callback): Option<Session> {
    match cb
    case SetBrent(level, _) => Some(s.(brent := level))
    case ResetDemo(_) => Some(s.(plans := setting.loaded, order := setting.loadedOrder,
                                 brent := setting.facts.brentNow, error := None))
    case Perform(id, op, _) =>
      if id in s.plans && Performed(setting, s, id, op).error == None then Some(Performed(setting, s, id, op)) else None
  }

  /** The same for every callback; one that does not get to an update changes the message only. */
  lemma CallbackSettles(setting: Setting, s: Session, cb: Callback)
    requires Listed(s.plans, s.order) && Listed(setting.loaded, setting.loadedOrder)
    ensures var o, ready := OnCallback(setting, s, cb), Prepared(setting, s, cb);
      && Listed(o.session.plans, o.session.order)
      && (ready.Some? ==>
           && Listed(ready.value.plans, ready.value.order)
           && (o.escaped == None <==> Quiet(setting, ready.value))
           && (Settled(setting, o.session) <==> Settleable(setting, ready.value)))
      && (ready.None? ==> o.session.(error := s.error) == s && (Settled(setting, o.session) <==> Settled(setting, s)))
  {
    match cb
    case SetBrent(level, clock) => UpdateSettles(setting, s.(brent := level), clock);
    case ResetDemo(clock) => UpdateSettles(setting, Prepared(setting, s, cb).value, clock);
    case Perform(id, op, clock) =>
      if Prepared(setting, s, cb).Some? { UpdateSettles(setting, Prepared(setting, s, cb).value, clock); }
  }

  /** What a callback leaves of the dial and the message: the dial is where it was put or, after a reset, at today's
      price; the message is the refusal of an operation that was refused, and gone after one that went through. */
  lemma CallbackShows(setting: Setting, s: Session, cb: Callback)
    requires Listed(s.plans, s.order) && Listed(setting.loaded, setting.loadedOrder)
    ensures var o := OnCallback(setting, s, cb).session;
      match cb
      case SetBrent(level, _) => o.brent == level && o.error == s.error && o.order == s.order
      case ResetDemo(_) => o.brent == setting.facts.brentNow && o.error == None && o.order == setting.loadedOrder
      case Perform(id, op, _) =>
        && o.brent == s.brent && o.order == s.order
        && (id !in s.plans ==> o == s)
        && (id in s.plans ==>
             match Attempt(setting.env, s.plans[id], op)
             case Err(refusal) => o == s.(error := Some(refusal))
             case Ok(_) => o.error == None)
  {}

  /** The session that the last callback to update the market updated it of. */
  function LastPrepared(setting: Setting, clock: nat -> Clock, cbs: seq<Callback>): (s: Session)
    requires Listed(setting.loaded, setting.loadedOrder)
    ensures Listed(s.plans, s.order)
  {
    if cbs == [] then Start(setting)
    else
      var init, cb := cbs[..|cbs| - 1], cbs[|cbs| - 1];
      CallbackSettles(setting, RunApp(setting, clock, init).session, cb);
      match Prepared(setting, RunApp(setting, clock, init).session, cb)
      case Some(s) => s
      case None => LastPrepared(setting, clock, init)
  }

  /** After any sequence of callbacks, whatever was refused or raised on the way, the screen shows the shock of
      the dial and no armed trigger is true exactly if that could be told of the last update beforehand. */
  lemma {:induction false} AppSettled(setting: Setting, clock: nat -> Clock, cbs: seq<Callback>)
    requires Listed(setting.loaded, setting.loadedOrder)
    ensures Settled(setting, RunApp(setting, clock, cbs).session) <==>
            Settleable(setting, LastPrepared(setting, clock, cbs))
  {
    if cbs == [] {
      UpdateSettles(setting, Start(setting), clock);
    } else {
      AppSettled(setting, clock, cbs[..|cbs| - 1]);
      CallbackSettles(setting, RunApp(setting, clock, cbs[..|cbs| - 1]).session, cbs[|cbs| - 1]);
    }
  }

  /** Plans the watcher can read, at a price the book has. */
  ghost predicate Sound(setting: Setting, s: Session) {
    Priceable(setting.facts, s.brent)
    && forall id :: id in s.plans ==> Readable(s.plans[id].body.trigger, setting.facts.facilities.Keys)
  }

  lemma StepKeepsBody(env: Env, p: Plan, op: Op)
    ensures Step(env, p, op).body == p.body
  {}

  /** A sweep keeps every plan's trigger, so what could be read still can. */
  lemma SweepReadable(setting: Setting, s: Session, market: Market, clock: nat -> Clock)
    requires Listed(s.plans, s.order)
    requires forall id :: id in s.plans ==> Readable(s.plans[id].body.trigger, setting.facts.facilities.Keys)
    ensures var w := MarketSweep(setting.env, s.plans, s.order, market, clock);
      forall id :: id in s.plans ==> Readable(w.plans[id].body.trigger, setting.facts.facilities.Keys)
  {
    var inv := (p: Plan) => Readable(p.body.trigger, setting.facts.facilities.Keys);
    var turn := Turn(setting.env, market, clock);
    forall p, k: nat | inv(p) ensures inv(turn(p, k)) {
      StepKeepsBody(setting.env, p, OpWatch(market, clock(k)));
      assert turn(p, k) == Step(setting.env, p, OpWatch(market, clock(k)));
    }
    SweepKeeps(Look(market), turn, inv, s.plans, s.order, |s.order|);
    assert forall id :: id in s.plans ==> inv(MarketSweep(setting.env, s.plans, s.order, market, clock).plans[id]);
  }

  lemma UpdateSound(setting: Setting, s: Session, clock: nat -> Clock)
    requires Listed(s.plans, s.order) && Sound(setting, s)
    ensures var o := UpdateMarket(setting, s, clock);
      Sound(setting, o.session) && o.escaped == None && Settled(setting, o.session)
  {
    UpdateSettles(setting, s, clock);
    ShockGuards(setting.facts, s.brent);
    SweepReadable(setting, s, ShockAt(setting.facts, s.brent).value, clock);
  }

  /** What an operation leaves: a sound session, or the old one with a message. */
  ghost predicate Readied(setting: Setting, s: Session, t: Session) {
    Sound(setting, t) && (t.error.Some? ==> t == s.(error := t.error))
  }

  lemma PerformedReadied(setting: Setting, s: Session, id: string, op: Op)
    requires id in s.plans && Sound(setting, s)
    ensures Readied(setting, s, Performed(setting, s, id, op))
  {
    PerformedSteps(setting, s, id, op);
    StepKeepsBody(setting.env, s.plans[id], op);
  }

  /** What a callback leaves sound and settled, and what it lets escape. */
  ghost predicate LeavesSound(setting: Setting, o: Outcome, escaped: Option<Error>) {
    Sound(setting, o.session) && Settled(setting, o.session) && o.escaped == escaped
  }

  lemma ConcludedSound(setting: Setting, s: Session, t: Session, clock: nat -> Clock)
    requires Listed(t.plans, t.order) && Settled(setting, s) && Readied(setting, s, t)
    ensures LeavesSound(setting, Concluded(setting, t, clock), None)
  {
    if t.error == None { UpdateSound(setting, t, clock); }
  }

  lemma PerformConcludes(setting: Setting, s: Session, id: string, op: Op, clock: nat -> Clock)
    requires Listed(s.plans, s.order) && Listed(setting.loaded, setting.loadedOrder) && id in s.plans
    ensures OnCallback(setting, s, Perform(id, op, clock)) == Concluded(setting, Performed(setting, s, id, op), clock)
  {}

  lemma PerformSound(setting: Setting, s: Session, id: string, op: Op, clock: nat -> Clock, o: Outcome)
    requires Listed(s.plans, s.order) && Listed(setting.loaded, setting.loadedOrder)
    requires Sound(setting, s) && Settled(setting, s) && id in s.plans
    requires o == Concluded(setting, Performed(setting, s, id, op), clock)
    ensures LeavesSound(setting, o, None)
  {
    PerformedReadied(setting, s, id, op);
    ConcludedSound(setting, s, Performed(setting, s, id, op), clock);
  }

  lemma CallbackSound(setting: Setting, s: Session, cb: Callback)
    requires Listed(s.plans, s.order) && Listed(setting.loaded, setting.loadedOrder)
    requires Sound(setting, s) && Settled(setting, s) && Sound(setting, Start(setting))
    requires cb.SetBrent? ==> Priceable(setting.facts, cb.level)
    ensures LeavesSound(setting, OnCallback(setting, s, cb),
                        if cb.Perform? && cb.planId !in s.plans then Some(KeyError(cb.planId)) else None)
  {
    match cb
    case SetBrent(level, clock) => UpdateSound(setting, s.(brent := level), clock);
    case ResetDemo(clock) => UpdateSound(setting, Prepared(setting, s, cb).value, clock);
    case Perform(id, op, clock) =>
      if id in s.plans {
        PerformConcludes(setting, s, id, op, clock);
        PerformSound(setting, s, id, op, clock, OnCallback(setting, s, cb));
      }
  }

  /** If every loaded trigger can be read and every level dialled can be priced, the session is settled after
      every sequence of callbacks, and nothing escapes but the name of a plan that does not exist. */
  lemma {:induction false} AppStaysSettled(setting: Setting, clock: nat -> Clock, cbs: seq<Callback>)
    requires Listed(setting.loaded, setting.loadedOrder) && Sound(setting, Start(setting))
    requires forall i :: 0 <= i < |cbs| && cbs[i].SetBrent? ==> Priceable(setting.facts, cbs[i].level)
    ensures var o := RunApp(setting, clock, cbs);
      Sound(setting, o.session) && Settled(setting, o.session) && (o.escaped.Some? ==> o.escaped.value.KeyError?)
  {
    if cbs == [] {
      UpdateSound(setting, Start(setting), clock);
    } else {
      AppStaysSettled(setting, clock, cbs[..|cbs| - 1]);
      CallbackSound(setting, RunApp(setting, clock, cbs[..|cbs| - 1]).session, cbs[|cbs| - 1]);
    }
  }

  // ---- How the session comes apart.

  /** A level at which the book cannot be priced leaves the dial there and the screen behind. */
  lemma UnpriceableLevelUnsettles(setting: Setting, s: Session, level: real, clock: nat -> Clock)
    requires Listed(s.plans, s.order) && Listed(setting.loaded, setting.loadedOrder) && !Priceable(setting.facts, level)
    ensures var o := OnCallback(setting, s, SetBrent(level, clock));
      o.escaped.Some? && o.session == s.(brent := level) && !Settled(setting, o.session)
  {
    ShockGuards(setting.facts, level);
  }

  /** At Brent 80 the pool of this facility lends 25, with a sensitivity C of 100; at 60 it lends nothing. */
  lemma ThinPool() returns (facts: Facts)
    ensures facts == Facts(80.0, map["CF" := Facility("CL", 10.0, 25.0, 100.0, 70.0)], map[], [])
    ensures Priceable(facts, 80.0) && !Priceable(facts, 60.0) && ShockAt(facts, 60.0) == Err(ZeroDivision)
  {
    facts := Facts(80.0, map["CF" := Facility("CL", 10.0, 25.0, 100.0, 70.0)], map[], []);
    assert 80.0 / 80.0 - 1.0 == 0.0 && 60.0 / 80.0 - 1.0 == -0.25;
    assert LendingAt(facts.facilities["CF"], 0.0) == 25.0 && LendingAt(facts.facilities["CF"], -0.25) == 0.0;
  }

  lemma OneCallback(setting: Setting, clock: nat -> Clock, cb: Callback)
    requires Listed(setting.loaded, setting.loadedOrder)
    ensures RunApp(setting, clock, [cb]) == OnCallback(setting, RunApp(setting, clock, []).session, cb)
  {
    assert [cb][..0] == [];
  }

  /** So a level at which the book cannot be priced can lie within the dial's range: dialling 60 leaves the
      screen at 80. */
  lemma DialCanUnsettle(env: Env, clock: nat -> Clock) returns (setting: Setting)
    ensures Listed(setting.loaded, setting.loadedOrder) && setting.facts.brentNow == 80.0
    ensures Settled(setting, RunApp(setting, clock, []).session)
    ensures var o := RunApp(setting, clock, [SetBrent(60.0, clock)]);
      && o.escaped == Some(ZeroDivision) && !Settled(setting, o.session)
      && o.session.brent == 60.0 && o.session.shocked.Some? && o.session.shocked.value.brent == 80.0
  {
    var facts := ThinPool();
    setting := Setting(env, facts, map[], []);
    UpdateSound(setting, Start(setting), clock);
    OneCallback(setting, clock, SetBrent(60.0, clock));
    UnpriceableLevelUnsettles(setting, RunApp(setting, clock, []).session, 60.0, clock);
  }

  /** An armed plan that watches for a variable to fall below 100. */
  ghost predicate Watches(env: Env, p: Plan, variable: string) {
    && Lawful(env, p) && p.state == Watching && p.gov.armedLevel == Some(100.0)
    && p.body.trigger == Trigger(variable, "<", 100.0, "deterministic")
  }

  lemma WatcherExists(env: Env, variable: string) returns (p: Plan)
    ensures Watches(env, p, variable)
  {
    var body := Body("", Trigger(variable, "<", 100.0, "deterministic"), "100.0", [], [], CanonicalJson.Null, []);
    var log := [Entry(0, "author", None, Drafted, "")];
    var draft := Plan(body, Drafted, Governance(None, None, None, None, None, None, None, None, log));
    assert Draft(draft);
    RunLawful(env, draft, []);
    var arm := OpArm("rm", None, "", None, Clock(0, 0, 0));
    StepLawful(env, draft, arm);
    p := Step(env, draft, arm);
  }

  lemma WatcherSees(env: Env, market: Market, p: Plan)
    requires market.brent == 80.0
    ensures Watches(env, p, "WTI") ==> Look(market)(p) == Err(KeyError("WTI"))
    ensures Watches(env, p, "BRENT") ==> TriggerTrue(market, p)
  {}

  /** The sweep of the first update stops at once if the first plan cannot be looked at. */
  lemma StopsAtFirst(setting: Setting, clock: nat -> Clock, market: Market, e: Error)
    requires Listed(setting.loaded, setting.loadedOrder) && setting.loadedOrder != []
    requires ShockAt(setting.facts, setting.facts.brentNow) == Ok(market)
    requires Look(market)(setting.loaded[setting.loadedOrder[0]]) == Err(e)
    ensures RunApp(setting, clock, []) == Outcome(Start(setting).(shocked := Some(market)), Some(e))
  {
    var look, turn := Look(market), Turn(setting.env, market, clock);
    assert SweepTo(look, turn, setting.loaded, setting.loadedOrder, 0) == Sweep(setting.loaded, [], None);
    NextTurn(look, turn, setting.loaded, setting.loadedOrder, 0, setting.loaded, []);
  }

  lemma HiddenTrigger(env: Env, clock: nat -> Clock, a: Plan, b: Plan) returns (setting: Setting)
    requires Watches(env, a, "WTI") && Watches(env, b, "BRENT")
    ensures Listed(setting.loaded, setting.loadedOrder) && AllLawful(env, setting.loaded)
    ensures Priceable(setting.facts, setting.facts.brentNow)
    ensures var o := RunApp(setting, clock, []);
      && o.escaped == Some(KeyError("WTI")) && o.session.shocked.Some?
      && "B" in o.session.plans && TriggerTrue(o.session.shocked.value, o.session.plans["B"])
  {
    var facts := Facts(80.0, map[], map[], []);
    setting := Setting(env, facts, map["A" := a, "B" := b], ["A", "B"]);
    ShockGuards(facts, 80.0);
    var market := ShockAt(facts, 80.0).value;
    WatcherSees(env, market, a);
    WatcherSees(env, market, b);
    StopsAtFirst(setting, clock, market, KeyError("WTI"));
  }

  /** The other way: a plan that cannot be read, before one whose trigger is true. The sweep stops at the first,
      and the second stays watching a price it should have fired at. */
  lemma UnreadablePlanUnsettles(env: Env, clock: nat -> Clock) returns (setting: Setting)
    ensures Listed(setting.loaded, setting.loadedOrder) && AllLawful(env, setting.loaded)
    ensures Priceable(setting.facts, setting.facts.brentNow)
    ensures var o := RunApp(setting, clock, []); o.escaped == Some(KeyError("WTI")) && !Settled(setting, o.session)
  {
    var a := WatcherExists(env, "WTI");
    var b := WatcherExists(env, "BRENT");
    setting := HiddenTrigger(env, clock, a, b);
  }

  /** Every plan on the desk has followed the state machine, whatever was clicked. */
  ghost predicate AllLawful(env: Env, plans: Plans) {
    forall id :: id in plans ==> Lawful(env, plans[id])
  }

  lemma SweepLawful(env: Env, plans: Plans, order: seq<string>, market: Market, clock: nat -> Clock)
    requires (forall id :: id in order ==> id in plans) && AllLawful(env, plans)
    ensures AllLawful(env, MarketSweep(env, plans, order, market, clock).plans)
  {
    var inv := p => Lawful(env, p);
    var turn := Turn(env, market, clock);
    forall p, k | inv(p) ensures inv(turn(p, k)) { TurnLawful(env, p, market, clock, k); }
    SweepKeeps(Look(market), turn, inv, plans, order, |order|);
    assert forall id :: id in plans ==> inv(MarketSweep(env, plans, order, market, clock).plans[id]);
  }

  lemma TurnLawful(env: Env, p: Plan, market: Market, clock: nat -> Clock, k: nat)
    requires Lawful(env, p)
    ensures Lawful(env, Turn(env, market, clock)(p, k))
  {
    StepLawful(env, p, OpWatch(market, clock(k)));
  }

  lemma CallbackLawful(setting: Setting, s: Session, cb: Callback)
    requires Listed(s.plans, s.order) && Listed(setting.loaded, setting.loadedOrder)
    requires AllLawful(setting.env, setting.loaded) && AllLawful(setting.env, s.plans)
    ensures AllLawful(setting.env, OnCallback(setting, s, cb).session.plans)
  {
    match cb
    case SetBrent(level, clock) => UpdateLawful(setting, s.(brent := level), clock);
    case ResetDemo(clock) => UpdateLawful(setting, Prepared(setting, s, cb).value, clock);
    case Perform(id, op, clock) =>
      if id in s.plans {
        PerformedLawful(setting, s, id, op);
        UpdateLawful(setting, Performed(setting, s, id, op), clock);
      }
  }

  lemma PerformedLawful(setting: Setting, s: Session, id: string, op: Op)
    requires id in s.plans && AllLawful(setting.env, s.plans)
    ensures AllLawful(setting.env, Performed(setting, s, id, op).plans)
  {
    PerformedSteps(setting, s, id, op);
    StepLawful(setting.env, s.plans[id], op);
    PutLawful(setting.env, s.plans, id, Step(setting.env, s.plans[id], op));
  }

  lemma PutLawful(env: Env, plans: Plans, id: string, q: Plan)
    requires AllLawful(env, plans) && Lawful(env, q)
    ensures AllLawful(env, plans[id := q])
  {}

  lemma PerformedSteps(setting: Setting, s: Session, id: string, op: Op)
    requires id in s.plans
    ensures Performed(setting, s, id, op).plans == s.plans[id := Step(setting.env, s.plans[id], op)]
  {}

  lemma {:induction false} AppLawful(setting: Setting, clock: nat -> Clock, cbs: seq<Callback>)
    requires Listed(setting.loaded, setting.loadedOrder) && AllLawful(setting.env, setting.loaded)
    ensures AllLawful(setting.env, RunApp(setting, clock, cbs).session.plans)
  {
    if cbs == [] {
      UpdateLawful(setting, Start(setting), clock);
    } else {
      AppLawful(setting, clock, cbs[..|cbs| - 1]);
      CallbackLawful(setting, RunApp(setting, clock, cbs[..|cbs| - 1]).session, cbs[|cbs| - 1]);
    }
  }

  lemma UpdateLawful(setting: Setting, s: Session, clock: nat -> Clock)
    requires Listed(s.plans, s.order) && AllLawful(setting.env, s.plans)
    ensures AllLawful(setting.env, UpdateMarket(setting, s, clock).session.plans)
  {
    if ShockAt(setting.facts, s.brent).Ok? {
      SweepLawful(setting.env, s.plans, s.order, ShockAt(setting.facts, s.brent).value, clock);
    }
  }
}
