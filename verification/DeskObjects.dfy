/** The session of the app: a dictionary of plan objects, swept and updated in place. */
module DeskObjects {
  import opened Wrappers
  import opened ShockEngine
  import opened PlanLifecycle
  import opened PlanObjects
  import opened Sweeping
  import opened Desk

  method OperateOn(env: Env, p: PlanRecord, op: Op) returns (r: Result<PlanRecord, Refusal>)
    requires !op.OpWatch?
    ensures Returned(r, Attempt(env, p.View(), op))
  {
    match op
    case OpArm(rm, level, note, at, clock) => r := ArmPlan(env, p, rm, level, note, at, clock);
    case OpDismiss(rm, reason, clock) => r := DismissPlan(p, rm, reason, clock.first);
    case OpAct(rm, rank, note, clock) => r := ActionPlan(p, rm, rank, note, clock.first);
  }

  /** The watcher's look at one plan: the observation, if its trigger is found true. */
  method Observe(plan: PlanRecord, market: Market) returns (r: Result<Option<Observation>, Error>)
    ensures r == Watched(plan.View(), market)
  {
    if plan.state != Watching { return Ok(None); }
    match Evaluate(plan.body.trigger, market, plan.governance.armedLevel)
    case Err(e) => return Err(e);
    case Ok(o) => return Ok(if o.hit then Some(o) else None);
  }

  /** The dictionary of plans, in insertion order. `contents` is what the plan objects say. */
  class Book {
    var order: seq<string>
    var plans: map<string, PlanRecord>
    ghost var contents: Plans

    ghost predicate Valid()
      reads this, plans.Values, set p | p in plans.Values :: p.governance
    {
      && contents.Keys == plans.Keys
      && (forall id :: id in plans ==> plans[id].View() == contents[id])
      && Listed(contents, order)
    }

    /** `load_plans`: a new dictionary of new plan objects, read from the files. */
    constructor (order: seq<string>, loaded: Plans)
      requires Listed(loaded, order)
      ensures Valid() && this.order == order && contents == loaded
    {
      this.order, this.plans, this.contents := order, map[], loaded;
      new;
      var todo := loaded.Keys;
      while todo != {}
        invariant todo <= loaded.Keys && plans.Keys == loaded.Keys - todo
        invariant this.order == order && contents == loaded
        invariant forall id :: id in plans ==> plans[id].View() == loaded[id]
        decreases todo
      {
        var id :| id in todo;
        var p := new PlanRecord(loaded[id]);
        plans := plans[id := p];
        todo := todo - {id};
      }
    }

    method Put(id: string, p: PlanRecord)
      requires Valid() && id in plans
      modifies this`plans, this`contents
      ensures Valid() && contents == old(contents)[id := p.View()]
    {
      plans := plans[id := p];
      contents := contents[id := p.View()];
    }

    /** plans[id] = operation(plans[id], ...); a refusal leaves the dictionary alone. */
    method Operate(env: Env, id: string, op: Op) returns (refused: Option<Refusal>)
      requires Valid() && id in plans && !op.OpWatch?
      modifies this`plans, this`contents
      ensures Valid()
      ensures match Attempt(env, old(contents)[id], op)
        case Err(e) => refused == Some(e) && contents == old(contents)
        case Ok(q) => refused == None && contents == old(contents)[id := q]
    {
      var r := OperateOn(env, plans[id], op);
      if r.Err? { return Some(r.error); }
      Put(id, r.value);
      return None;
    }

    /** plans[id] = fire(plan, r), for a plan whose trigger was found true. */
    method FireInto(env: Env, id: string, o: Observation, market: Market, clock: Clock)
      requires Valid() && id in plans && Watched(contents[id], market) == Ok(Some(o))
      modifies this`plans, this`contents
      ensures Valid() && contents == old(contents)[id := Watch(env, old(contents)[id], market, clock)]
    {
      FiringIsTheTurn(env, contents[id], o, market, clock);
      var copy := FirePlan(env, plans[id], o, clock);
      Put(id, copy.value);
    }

    /** One turn of the loop in `sweep`. */
    method SweepPlan(env: Env, id: string, market: Market, clock: Clock) returns (r: Result<bool, Error>)
      requires Valid() && id in plans
      modifies this`plans, this`contents
      ensures Valid()
      ensures match Watched(old(contents)[id], market)
        case Err(e) => r == Err(e) && contents == old(contents)
        case Ok(None) => r == Ok(false) && contents == old(contents)
        case Ok(Some(_)) =>
          r == Ok(true) && contents == old(contents)[id := Watch(env, old(contents)[id], market, clock)]
    {
      var observed := Observe(plans[id], market);
      if observed.Err? { return Err(observed.error); }
      if observed.value == None { return Ok(false); }
      FireInto(env, id, observed.value.value, market, clock);
      return Ok(true);
    }

    /** `sweep`: plans that hit are replaced by their fired copies while the dictionary is walked. */
    method RunSweep(env: Env, market: Market, clock: nat -> Clock) returns (r: Result<seq<string>, Error>)
      requires Valid()
      modifies this`plans, this`contents
      ensures Valid()
      ensures var s := MarketSweep(env, old(contents), order, market, clock);
        && contents == s.plans
        && r == match s.raised case Some(e) => Err(e) case None => Ok(s.fired)
    {
      var fired: seq<string> := [];
      ghost var before := contents;
      ghost var look, turn := Look(market), Turn(env, market, clock);
      for i := 0 to |order|
        invariant Valid() && contents.Keys == before.Keys
        invariant Sweep(contents, fired, None) == SweepTo(look, turn, before, order, i)
      {
        NextTurn(look, turn, before, order, i, contents, fired);
        var hit := SweepPlan(env, order[i], market, clock(i));
        if hit.Err? { return Err(hit.error); }
        if hit.value { fired := fired + [order[i]]; }
      }
      return Ok(fired);
    }
  }

  /** What the callbacks of the app read and write in `st.session_state`. */
  class SessionState {
    const setting: Setting
    var book: Book
    var brent: real
    var shocked: Option<Market>
    var error: Option<Refusal>

    /** `main` on its first run, before its market update. */
    constructor (setting: Setting)
      requires Listed(setting.loaded, setting.loadedOrder)
      ensures this.setting == setting && book.Valid()
      ensures View() == Session(setting.loaded, setting.loadedOrder, setting.facts.brentNow, None, None)
    {
      this.setting := setting;
      brent, shocked, error := setting.facts.brentNow, None, None;
      book := new Book(setting.loadedOrder, setting.loaded);
    }

    ghost function View(): Session
      reads this, book
    {
      Session(book.contents, book.order, brent, shocked, error)
    }

    /** The second half of `update_market`: the new market goes on screen, then the book is swept. */
    method ShowMarket(market: Market, clock: nat -> Clock) returns (raised: Option<Error>)
      requires book.Valid()
      modifies this`shocked, book`plans, book`contents
      ensures book.Valid()
      ensures var s := MarketSweep(setting.env, old(book.contents), book.order, market, clock);
        View() == old(View()).(shocked := Some(market), plans := s.plans) && raised == s.raised
    {
      shocked := Some(market);
      var fired := book.RunSweep(setting.env, market, clock);
      return if fired.Err? then Some(fired.error) else None;
    }

    /** `update_market`; an exception leaves behind what was written before it. */
    method UpdateMarketState(clock: nat -> Clock) returns (escaped: Option<Error>)
      requires book.Valid()
      modifies this`shocked, book`plans, book`contents
      ensures book.Valid() && Outcome(View(), escaped) == UpdateMarket(setting, old(View()), clock)
    {
      var market := Shock(setting.facts, brent);
      if market.Err? { return Some(market.error); }
      escaped := ShowMarket(market.value, clock);
    }

    /** `move_dial` and `preset`. */
    method SetDial(level: real, clock: nat -> Clock) returns (escaped: Option<Error>)
      requires book.Valid()
      modifies this`brent, this`shocked, book`plans, book`contents
      ensures book.Valid() && Outcome(View(), escaped) == UpdateMarket(setting, old(View()).(brent := level), clock)
      ensures Settled(setting, View()) <==> Settleable(setting, old(View()).(brent := level))
    {
      brent := level;
      UpdateSettles(setting, View(), clock);
      escaped := UpdateMarketState(clock);
    }

    /** The assignments of `reset_demo`. */
    method Reload()
      requires Listed(setting.loaded, setting.loadedOrder)
      modifies this
      ensures book.Valid() && fresh(book)
      ensures View() == Session(setting.loaded, setting.loadedOrder, setting.facts.brentNow, old(shocked), None)
    {
      book := new Book(setting.loadedOrder, setting.loaded);
      brent := setting.facts.brentNow;
      error := None;
    }

    /** `reset_demo` */
    method Reset(clock: nat -> Clock) returns (escaped: Option<Error>)
      requires Listed(setting.loaded, setting.loadedOrder)
      modifies this
      ensures book.Valid() && (Settled(setting, View()) <==> Settleable(setting, Start(setting)))
      ensures var start := Session(setting.loaded, setting.loadedOrder, setting.facts.brentNow, old(shocked), None);
        Outcome(View(), escaped) == UpdateMarket(setting, start, clock)
    {
      Reload();
      UpdateSettles(setting, View(), clock);
      escaped := UpdateMarketState(clock);
    }

    method Show(e: Option<Refusal>)
      requires book.Valid()
      modifies this`error
      ensures book.Valid() && View() == old(View()).(error := e)
    {
      error := e;
    }

    /** The first half of `transition`: the operation, and the message when it is refused. */
    method Perform(id: string, op: Op) returns (refused: Option<Refusal>)
      requires book.Valid() && id in book.plans && !op.OpWatch?
      modifies this`error, book`plans, book`contents
      ensures book.Valid() && refused == error && View() == Performed(setting, old(View()), id, op)
    {
      refused := book.Operate(setting.env, id, op);
      Show(refused);
    }

    /** `transition`: only a refusal is caught. */
    method Transition(id: string, op: Op, clock: nat -> Clock) returns (escaped: Option<Error>)
      requires book.Valid() && !op.OpWatch?
      requires Listed(setting.loaded, setting.loadedOrder)
      modifies this`error, this`shocked, book`plans, book`contents
      ensures book.Valid()
      ensures Outcome(View(), escaped) == OnCallback(setting, old(View()), Desk.Callback.Perform(id, op, clock))
    {
      if id !in book.plans { return Some(KeyError(id)); }
      PerformConcludes(setting, View(), id, op, clock);
      var refused := Perform(id, op);
      if refused.Some? { return None; }
      escaped := UpdateMarketState(clock);
    }
  }
}
