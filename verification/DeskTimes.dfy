/** The times in the logs of a whole desk: whatever is clicked, they stay in order. */
module DeskTimes {
  import opened Wrappers
  import opened ShockEngine
  import opened PlanLifecycle
  import opened PlanTimes
  import opened Sweeping
  import opened Desk

  /** A plan whose log is in order and not ahead of the clock. */
  ghost predicate Timely(env: Env, p: Plan, now: int) {
    Lawful(env, p) && TimeSorted(p.gov.log) && Last(p) <= now
  }

  ghost predicate AllTimely(env: Env, plans: Plans, now: int) {
    forall id :: id in plans ==> Timely(env, plans[id], now)
  }

  /** A step with no time given keeps a plan timely. */
  lemma StepTimely(env: Env, p: Plan, op: Op, now: int)
    requires Timely(env, p, now) && now <= op.clock.first && Ticks(op.clock) && (op.OpArm? ==> op.at == None)
    ensures Timely(env, Step(env, p, op), op.clock.third)
  {
    StepLawful(env, p, op);
    StepAppends(env, p, op);
    StepTimeSorted(env, p, op);
  }

  // ---- One sweep.

  /** The readings a sweep of `n` plans takes never run back. */
  ghost predicate SweepTicks(from: int, clock: nat -> Clock, n: nat) {
    && (forall k: nat :: k < n ==> from <= clock(k).first && Ticks(clock(k)))
    && (forall j: nat, k: nat :: j < k < n ==> clock(j).third <= clock(k).first)
  }

  function Until(from: int, clock: nat -> Clock, n: nat): int {
    if n == 0 then from else clock(n - 1).third
  }

  lemma ReadingsWithin(from: int, clock: nat -> Clock, n: nat, k: nat)
    requires SweepTicks(from, clock, n) && k < n
    ensures from <= clock(k).first && Ticks(clock(k)) && clock(k).third <= Until(from, clock, n)
  {
    if k < n - 1 {
      var last: nat := n - 1;
      assert clock(k).third <= clock(last).first && Ticks(clock(last));
    }
  }

  lemma UntilLater(from: int, clock: nat -> Clock, n: nat)
    requires SweepTicks(from, clock, n)
    ensures from <= Until(from, clock, n)
  {
    if n > 0 { ReadingsWithin(from, clock, n, n - 1); }
  }

  /** A plan in the sweep's result is the plan before, or the plan after its own turn. */
  lemma TurnOrNone(env: Env, plans: Plans, order: seq<string>, market: Market, clock: nat -> Clock, i: nat)
    requires Listed(plans, order) && i < |order|
    ensures var q := MarketSweep(env, plans, order, market, clock).plans[order[i]];
      q == plans[order[i]] || q == Step(env, plans[order[i]], OpWatch(market, clock(i)))
  {
    OwnTurn(Look(market), Turn(env, market, clock), plans, order, i);
    TurnIsStep(env, market, clock, plans[order[i]], i);
  }

  lemma TurnIsStep(env: Env, market: Market, clock: nat -> Clock, p: Plan, i: nat)
    ensures Turn(env, market, clock)(p, i) == Step(env, p, OpWatch(market, clock(i)))
  {}

  lemma SweepTimely(env: Env, plans: Plans, order: seq<string>, market: Market, clock: nat -> Clock, from: int)
    requires Listed(plans, order) && AllTimely(env, plans, from) && SweepTicks(from, clock, |order|)
    ensures AllTimely(env, MarketSweep(env, plans, order, market, clock).plans, Until(from, clock, |order|))
  {
    var after := MarketSweep(env, plans, order, market, clock).plans;
    forall id | id in after ensures Timely(env, after[id], Until(from, clock, |order|)) {
      var i :| 0 <= i < |order| && order[i] == id;
      TurnOrNone(env, plans, order, market, clock, i);
      ReadingsWithin(from, clock, |order|, i);
      UntilLater(from, clock, |order|);
      assert Timely(env, plans[id], from);
      if after[id] != plans[id] { StepTimely(env, plans[id], OpWatch(market, clock(i)), from); }
    }
  }

  lemma UpdateTimely(setting: Setting, s: Session, clock: nat -> Clock, from: int)
    requires Listed(s.plans, s.order) && AllTimely(setting.env, s.plans, from) && SweepTicks(from, clock, |s.order|)
    ensures var t := UpdateMarket(setting, s, clock).session;
      t.order == s.order && AllTimely(setting.env, t.plans, Until(from, clock, |s.order|))
  {
    UntilLater(from, clock, |s.order|);
    if ShockAt(setting.facts, s.brent).Ok? {
      SweepTimely(setting.env, s.plans, s.order, ShockAt(setting.facts, s.brent).value, clock, from);
    }
  }

  // ---- Runs of the app.

  /** The clock after a callback that began at `from`, over a book of `n` plans. */
  function Ended(from: int, cb: Callback, n: nat): int {
    match cb
    case Perform(_, op, clock) => Until(op.clock.third, clock, n)
    case _ => Until(from, cb.sweepClock, n)
  }

  /** Its readings never run back, and it gives no time of its own. */
  ghost predicate LiveCallback(from: int, cb: Callback, n: nat) {
    match cb
    case Perform(_, op, clock) =>
      && from <= op.clock.first && Ticks(op.clock) && (op.OpArm? ==> op.at == None)
      && SweepTicks(op.clock.third, clock, n)
    case _ => SweepTicks(from, cb.sweepClock, n)
  }

  function AppNow(from: int, clock: nat -> Clock, cbs: seq<Callback>, n: nat): int {
    if cbs == [] then Until(from, clock, n)
    else Ended(AppNow(from, clock, cbs[..|cbs| - 1], n), cbs[|cbs| - 1], n)
  }

  /** The clock of a whole run of the app never runs back, and no callback gives a time. */
  ghost predicate LiveApp(from: int, clock: nat -> Clock, cbs: seq<Callback>, n: nat) {
    if cbs == [] then SweepTicks(from, clock, n)
    else
      var init, cb := cbs[..|cbs| - 1], cbs[|cbs| - 1];
      LiveApp(from, clock, init, n) && LiveCallback(AppNow(from, clock, init, n), cb, n)
  }

  lemma PerformedTimely(setting: Setting, s: Session, id: string, op: Op, from: int)
    requires id in s.plans && AllTimely(setting.env, s.plans, from)
    requires from <= op.clock.first && Ticks(op.clock) && (op.OpArm? ==> op.at == None)
    ensures AllTimely(setting.env, Performed(setting, s, id, op).plans, op.clock.third)
  {
    PerformedSteps(setting, s, id, op);
    assert Timely(setting.env, s.plans[id], from);
    StepTimely(setting.env, s.plans[id], op, from);
    var q := Step(setting.env, s.plans[id], op);
    forall other | other in s.plans ensures Timely(setting.env, s.plans[id := q][other], op.clock.third) {
      assert Timely(setting.env, s.plans[other], from);
    }
  }

  lemma Later(env: Env, plans: Plans, now: int, later: int)
    requires AllTimely(env, plans, now) && now <= later
    ensures AllTimely(env, plans, later)
  {
    forall id | id in plans ensures Timely(env, plans[id], later) {
      assert Timely(env, plans[id], now);
    }
  }

  /** A book that is in order at `now`, in the order of the plan files. */
  ghost predicate InOrder(setting: Setting, s: Session, now: int) {
    s.order == setting.loadedOrder && AllTimely(setting.env, s.plans, now)
  }

  /** The second half of an operation: nothing after a refusal, a sweep otherwise. */
  lemma AfterOperation(setting: Setting, t: Session, clock: nat -> Clock, now: int)
    requires Listed(t.plans, t.order) && InOrder(setting, t, now) && SweepTicks(now, clock, |t.order|)
    ensures InOrder(setting, Concluded(setting, t, clock).session, Until(now, clock, |t.order|))
  {
    UntilLater(now, clock, |t.order|);
    Later(setting.env, t.plans, now, Until(now, clock, |t.order|));
    UpdateTimely(setting, t, clock, now);
  }

  lemma OperationTimely(setting: Setting, s: Session, cb: Callback, from: int)
    requires Listed(s.plans, s.order) && Listed(setting.loaded, setting.loadedOrder) && InOrder(setting, s, from)
    requires LiveCallback(from, cb, |s.order|) && cb.Perform? && cb.planId in s.plans
    ensures InOrder(setting, OnCallback(setting, s, cb).session, Ended(from, cb, |s.order|))
  {
    PerformedTimely(setting, s, cb.planId, cb.op, from);
    AfterOperation(setting, Performed(setting, s, cb.planId, cb.op), cb.sweepClock, cb.op.clock.third);
  }

  lemma EndsLater(from: int, cb: Callback, n: nat)
    requires LiveCallback(from, cb, n)
    ensures from <= Ended(from, cb, n)
  {
    if cb.Perform? { UntilLater(cb.op.clock.third, cb.sweepClock, n); } else { UntilLater(from, cb.sweepClock, n); }
  }

  lemma CallbackTimely(setting: Setting, s: Session, cb: Callback, from: int)
    requires Listed(s.plans, s.order) && Listed(setting.loaded, setting.loadedOrder) && InOrder(setting, s, from)
    requires AllTimely(setting.env, setting.loaded, from) && LiveCallback(from, cb, |s.order|)
    ensures InOrder(setting, OnCallback(setting, s, cb).session, Ended(from, cb, |s.order|))
  {
    match cb
    case SetBrent(level, clock) => UpdateTimely(setting, s.(brent := level), clock, from);
    case ResetDemo(clock) => UpdateTimely(setting, Prepared(setting, s, cb).value, clock, from);
    case Perform(id, _, _) =>
      if id in s.plans {
        OperationTimely(setting, s, cb, from);
      } else {
        EndsLater(from, cb, |s.order|);
        Later(setting.env, s.plans, from, Ended(from, cb, |s.order|));
      }
  }

  /** If the loaded logs are in order and not ahead of the clock, then after every sequence of callbacks under a
      clock that never runs back, none of them arming with a time given, every log on the desk is. */
  lemma {:induction false} DeskLogsAreSorted(setting: Setting, clock: nat -> Clock, cbs: seq<Callback>, from: int)
    requires Listed(setting.loaded, setting.loadedOrder) && AllTimely(setting.env, setting.loaded, from)
    requires LiveApp(from, clock, cbs, |setting.loadedOrder|)
    ensures var s, now := RunApp(setting, clock, cbs).session, AppNow(from, clock, cbs, |setting.loadedOrder|);
      InOrder(setting, s, now) && from <= now
  {
    var n := |setting.loadedOrder|;
    if cbs == [] {
      UpdateTimely(setting, Start(setting), clock, from);
      UntilLater(from, clock, n);
    } else {
      var init, cb := cbs[..|cbs| - 1], cbs[|cbs| - 1];
      DeskLogsAreSorted(setting, clock, init, from);
      Later(setting.env, setting.loaded, from, AppNow(from, clock, init, n));
      EndsLater(AppNow(from, clock, init, n), cb, n);
      CallbackTimely(setting, RunApp(setting, clock, init).session, cb, AppNow(from, clock, init, n));
    }
  }
}
