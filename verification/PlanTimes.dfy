/** The times in a plan's log: which runs keep them in order. */
module PlanTimes {
  import opened Wrappers
  import opened ShockEngine
  import opened PlanLifecycle

  ghost predicate TimeSorted(log: seq<Entry>) {
    forall i, j :: 0 <= i < j < |log| ==> log[i].at <= log[j].at
  }

  function Last(p: Plan): int
    requires p.gov.log != []
  {
    p.gov.log[|p.gov.log| - 1].at
  }

  /** The readings within one operation never run back. */
  predicate Ticks(clock: Clock) {
    clock.first <= clock.second <= clock.third
  }

  /** Nor do those of successive operations. */
  ghost predicate ClockRuns(from: int, ops: seq<Op>) {
    && (forall i :: 0 <= i < |ops| ==> from <= ops[i].clock.first && Ticks(ops[i].clock))
    && (forall i, j :: 0 <= i < j < |ops| ==> ops[i].clock.third <= ops[j].clock.first)
  }

  function Now(from: int, ops: seq<Op>): int {
    if ops == [] then from else ops[|ops| - 1].clock.third
  }

  /** The time on the first entry an operation appends. */
  function Stamp(op: Op): int {
    match op
    case OpArm(_, _, _, at, clock) => Or(at, clock.second)
    case OpWatch(_, clock) => clock.second
    case _ => op.clock.first
  }

  /** What an operation may do to a log: nothing, or append one entry, or two when it arms a draft. */
  ghost predicate Appends(before: seq<Entry>, log: seq<Entry>, op: Op, drafted: bool) {
    && before != [] && before <= log
    && (log != before ==>
         && |log| == |before| + (if op.OpArm? then 2 else 1) && log[|before|].at == Stamp(op)
         && (op.OpArm? ==> drafted && log[|before| + 1].at == Or(op.at, op.clock.third)))
    && (op.OpArm? && drafted ==> log != before && |before| == 1)
  }

  lemma ArmAppends(env: Env, p: Plan, op: Op)
    requires Lawful(env, p) && op.OpArm?
    ensures Appends(p.gov.log, Step(env, p, op).gov.log, op, p.state == Drafted)
  {}

  lemma WatchAppends(env: Env, p: Plan, op: Op)
    requires p.gov.log != [] && op.OpWatch?
    ensures Appends(p.gov.log, Step(env, p, op).gov.log, op, p.state == Drafted)
  {}

  lemma DecisionAppends(env: Env, p: Plan, op: Op)
    requires p.gov.log != [] && (op.OpDismiss? || op.OpAct?)
    ensures Appends(p.gov.log, Step(env, p, op).gov.log, op, p.state == Drafted)
  {}

  lemma StepAppends(env: Env, p: Plan, op: Op)
    requires Lawful(env, p)
    ensures Appends(p.gov.log, Step(env, p, op).gov.log, op, p.state == Drafted)
  {
    match op
    case OpArm(_, _, _, _, _) => ArmAppends(env, p, op);
    case OpWatch(_, _) => WatchAppends(env, p, op);
    case _ => DecisionAppends(env, p, op);
  }

  lemma AppendSorted(before: seq<Entry>, log: seq<Entry>, op: Op, drafted: bool)
    requires Appends(before, log, op, drafted) && TimeSorted(before) && Ticks(op.clock)
    ensures TimeSorted(log) <==> log == before || before[|before| - 1].at <= Stamp(op)
  {
    var n := |before|;
    assert forall i :: 0 <= i < n ==> log[i] == before[i];
    if log != before && before[n - 1].at > Stamp(op) {
      assert log[n].at < log[n - 1].at;
    }
  }

  /** A step keeps a log in time order exactly if it appends nothing, or nothing before the last entry. */
  lemma StepTimeSorted(env: Env, p: Plan, op: Op)
    requires Lawful(env, p) && TimeSorted(p.gov.log) && Ticks(op.clock)
    ensures TimeSorted(Step(env, p, op).gov.log) <==> Step(env, p, op).gov.log == p.gov.log || Last(p) <= Stamp(op)
  {
    StepAppends(env, p, op);
    AppendSorted(p.gov.log, Step(env, p, op).gov.log, op, p.state == Drafted);
  }

  predicate ArmsAtGivenTime(p: Plan, op: Op) {
    op.OpArm? && op.at.Some? && p.state == Drafted
  }

  /** The time the plan was armed with, if one was given. */
  function Given(env: Env, p: Plan, ops: seq<Op>): Option<int> {
    if ops == [] then None
    else
      var q, op := Run(env, p, ops[..|ops| - 1]), ops[|ops| - 1];
      if ArmsAtGivenTime(q, op) then op.at else Given(env, p, ops[..|ops| - 1])
  }

  /** The log of a run: in order, and no later than the clock, but for the two entries of a given time. */
  ghost predicate Stamped(log: seq<Entry>, given: Option<int>, from: int, now: int) {
    && log != [] && log[0].at == from
    && match given
       case None => TimeSorted(log) && log[|log| - 1].at <= now
       case Some(a) =>
         && |log| >= 3 && log[1].at == a && log[2].at == a && from <= now
         && (|log| > 3 ==> from <= log[3].at && TimeSorted(log[3..]) && log[|log| - 1].at <= now)
  }

  lemma StampedAppend(before: seq<Entry>, log: seq<Entry>, op: Op, drafted: bool, given: Option<int>, from: int,
                      now: int)
    requires Appends(before, log, op, drafted) && Stamped(before, given, from, now)
    requires from <= now <= op.clock.first && Ticks(op.clock) && (given.Some? ==> !drafted)
    ensures Stamped(log, if op.OpArm? && op.at.Some? && drafted then op.at else given, from, op.clock.third)
  {
    assert forall i :: 0 <= i < |before| ==> log[i] == before[i];
    if given.Some? && |before| > 3 {
      assert log[3..] == before[3..] + log[|before|..];
    }
  }

  lemma StampedNext(env: Env, q: Plan, op: Op, given: Option<int>, from: int, now: int)
    requires Lawful(env, q) && Stamped(q.gov.log, given, from, now) && from <= now <= op.clock.first && Ticks(op.clock)
    requires given.Some? ==> q.state != Drafted
    ensures Stamped(Step(env, q, op).gov.log, if ArmsAtGivenTime(q, op) then op.at else given, from, op.clock.third)
  {
    StepAppends(env, q, op);
    StampedAppend(q.gov.log, Step(env, q, op).gov.log, op, q.state == Drafted, given, from, now);
  }

  lemma {:induction false} RunStamped(env: Env, p: Plan, ops: seq<Op>)
    requires Draft(p) && ClockRuns(p.gov.log[0].at, ops)
    ensures Lawful(env, Run(env, p, ops)) && (Given(env, p, ops).Some? ==> Run(env, p, ops).state != Drafted)
    ensures p.gov.log[0].at <= Now(p.gov.log[0].at, ops)
    ensures Stamped(Run(env, p, ops).gov.log, Given(env, p, ops), p.gov.log[0].at, Now(p.gov.log[0].at, ops))
  {
    RunLawful(env, p, ops);
    if ops == [] {
    } else {
      var init, op := ops[..|ops| - 1], ops[|ops| - 1];
      RunStamped(env, p, init);
      assert ops[|ops| - 1] == op && (init != [] ==> ops[|init| - 1] == init[|init| - 1]);
      StampedNext(env, Run(env, p, init), op, Given(env, p, init), p.gov.log[0].at, Now(p.gov.log[0].at, init));
      if Run(env, p, init).state != Drafted || op.OpArm? { StaysOutOfDraft(env, Run(env, p, init), op); }
    }
  }

  lemma StaysOutOfDraft(env: Env, q: Plan, op: Op)
    requires Lawful(env, q) && (q.state != Drafted || op.OpArm?)
    ensures Step(env, q, op).state != Drafted
  {}

  /** A run's log is in time order exactly if a time given at the arming lies no earlier than the entry
      before it and no later than the entry after it. */
  lemma GivenTimeDecides(env: Env, p: Plan, ops: seq<Op>)
    requires Draft(p) && ClockRuns(p.gov.log[0].at, ops)
    ensures var log := Run(env, p, ops).gov.log;
      TimeSorted(log) <==>
      match Given(env, p, ops)
      case None => true
      case Some(a) => |log| >= 3 && log[0].at <= a && (|log| > 3 ==> a <= log[3].at)
  {
    RunStamped(env, p, ops);
    var log := Run(env, p, ops).gov.log;
    if Given(env, p, ops).Some? && log[0].at <= log[1].at && (|log| > 3 ==> log[1].at <= log[3].at) {
      forall i, j | 0 <= i < j < |log| ensures log[i].at <= log[j].at {
        assert i >= 3 ==> log[3..][i - 3].at <= log[3..][j - 3].at;
        assert j > 3 ==> log[3..][0].at <= log[3..][j - 3].at;
      }
    }
  }

  /** On the live path, where no time is ever given, every log is in time order. */
  lemma LiveLogsAreSorted(env: Env, p: Plan, ops: seq<Op>)
    requires Draft(p) && ClockRuns(p.gov.log[0].at, ops)
    requires forall i :: 0 <= i < |ops| && ops[i].OpArm? ==> ops[i].at == None
    ensures TimeSorted(Run(env, p, ops).gov.log)
  {
    NoneGiven(env, p, ops);
    GivenTimeDecides(env, p, ops);
  }

  lemma {:induction false} NoneGiven(env: Env, p: Plan, ops: seq<Op>)
    requires forall i :: 0 <= i < |ops| && ops[i].OpArm? ==> ops[i].at == None
    ensures Given(env, p, ops) == None
  {
    if ops == [] {
    } else {
      NoneGiven(env, p, ops[..|ops| - 1]);
    }
  }

  // ---- What the manager can check before arming with a time.

  /** Past drafting, in order, and not ahead of the clock. */
  ghost predicate OnTime(env: Env, q: Plan, now: int) {
    Lawful(env, q) && q.state != Drafted && TimeSorted(q.gov.log) && Last(q) <= now
  }

  lemma OnTimeNext(env: Env, q: Plan, op: Op, now: int)
    requires OnTime(env, q, now) && now <= op.clock.first && Ticks(op.clock)
    ensures OnTime(env, Step(env, q, op), op.clock.third)
  {
    StepLawful(env, q, op);
    StepAppends(env, q, op);
    StaysOutOfDraft(env, q, op);
    StepTimeSorted(env, q, op);
  }

  lemma {:induction false} StaysOnTime(env: Env, q: Plan, ops: seq<Op>, from: int)
    requires OnTime(env, q, from) && ClockRuns(from, ops)
    ensures OnTime(env, Run(env, q, ops), Now(from, ops))
  {
    if ops == [] {
    } else {
      var init, op := ops[..|ops| - 1], ops[|ops| - 1];
      StaysOnTime(env, q, init, from);
      assert init != [] ==> ops[|init| - 1] == init[|init| - 1];
      OnTimeNext(env, Run(env, q, init), op, Now(from, init));
    }
  }

  /** A watched plan whose trigger cannot be read never changes again. */
  lemma {:induction false} UnreadableStays(env: Env, q: Plan, ops: seq<Op>)
    requires q.state == Watching && !Readable(q.body.trigger, {BeforeDot(q.body.trigger.variable)})
    ensures Run(env, q, ops) == q
  {
    if ops == [] {
    } else {
      UnreadableStays(env, q, ops[..|ops| - 1]);
      var op := ops[|ops| - 1];
      if op.OpWatch? { EvaluateReads(q.body.trigger, op.market, q.gov.armedLevel); }
    }
  }

  lemma DraftIsLawful(env: Env, p: Plan)
    requires Draft(p)
    ensures Lawful(env, p)
  {
    RunLawful(env, p, []);
  }

  lemma OutOfOrder(before: seq<Entry>, log: seq<Entry>)
    requires |log| == 4 && before == log[..3] && before[2].at > log[3].at
    ensures !TimeSorted(log)
  {
    assert log[2] == before[2];
  }

  /** One watching turn can fire a readable armed plan at any clock reading. */
  lemma FiresAt(env: Env, q: Plan, now: int) returns (op: Op)
    requires Lawful(env, q) && q.state == Watching && Readable(q.body.trigger, {BeforeDot(q.body.trigger.variable)})
    ensures op.OpWatch? && op.clock == Clock(now, now, now)
    ensures var log := Step(env, q, op).gov.log;
      |log| == 4 && log[3].at == now && q.gov.log == log[..3]
  {
    var market := SomeMarketHits(q.body.trigger, q.gov.armedLevel);
    op := OpWatch(market, Clock(now, now, now));
  }

  lemma ArmedLog(env: Env, p: Plan, op: Op)
    requires Lawful(env, p) && ArmsAtGivenTime(p, op)
    ensures var q := Step(env, p, op);
      && Lawful(env, q) && q.state == Watching && q.body == p.body
      && |q.gov.log| == 3 && q.gov.log[2].at == op.at.value && q.gov.log != p.gov.log
  {
    StepLawful(env, p, op);
    StepAppends(env, p, op);
  }

  /** A plan armed with a time after `now` can fire before it. */
  lemma FiresBefore(env: Env, q: Plan, now: int) returns (ops: seq<Op>)
    requires Lawful(env, q) && q.state == Watching && |q.gov.log| == 3 && now < q.gov.log[2].at
    requires Readable(q.body.trigger, {BeforeDot(q.body.trigger.variable)})
    ensures |ops| == 1 && ops[0].OpWatch? && ops[0].clock == Clock(now, now, now)
    ensures ClockRuns(now, ops) && !TimeSorted(Run(env, q, ops).gov.log)
  {
    var op := FiresAt(env, q, now);
    ops := [op];
    OneStep(env, q, op);
    OutOfOrder(q.gov.log, Step(env, q, op).gov.log);
  }

  ghost predicate StaysSorted(env: Env, q: Plan, from: int) {
    forall ops :: ClockRuns(from, ops) ==> TimeSorted(Run(env, q, ops).gov.log)
  }

  /** Arming a draft with a time is safe, in that every further run under the clock leaves the log in
      order, exactly if that time lies between the draft's last entry and now; or, if the trigger can never
      be read, at any time from that entry on. */
  lemma SafeArmingTime(env: Env, p: Plan, op: Op)
    requires Lawful(env, p) && ArmsAtGivenTime(p, op) && Last(p) <= op.clock.first && Ticks(op.clock)
    requires TimeSorted(p.gov.log)
    ensures StaysSorted(env, Step(env, p, op), op.clock.third) <==>
            Last(p) <= op.at.value
            && (op.at.value <= op.clock.third || !Readable(p.body.trigger, {BeforeDot(p.body.trigger.variable)}))
  {
    var q := Step(env, p, op);
    ArmedLog(env, p, op);
    StepTimeSorted(env, p, op);
    assert Run(env, q, []) == q && ClockRuns(op.clock.third, []);
    if Last(p) <= op.at.value {
      WatchedStaysSorted(env, q, op.clock.third);
    }
  }

  lemma WatchedStaysSorted(env: Env, q: Plan, now: int)
    requires Lawful(env, q) && q.state == Watching && |q.gov.log| == 3 && TimeSorted(q.gov.log)
    ensures StaysSorted(env, q, now) <==>
            q.gov.log[2].at <= now || !Readable(q.body.trigger, {BeforeDot(q.body.trigger.variable)})
  {
    if q.gov.log[2].at <= now {
      forall ops | ClockRuns(now, ops) ensures TimeSorted(Run(env, q, ops).gov.log) {
        StaysOnTime(env, q, ops, now);
      }
    } else if Readable(q.body.trigger, {BeforeDot(q.body.trigger.variable)}) {
      var ops := FiresBefore(env, q, now);
    } else {
      forall ops | ClockRuns(now, ops) ensures TimeSorted(Run(env, q, ops).gov.log) {
        UnreadableStays(env, q, ops);
      }
    }
  }

  lemma OneStep(env: Env, q: Plan, op: Op)
    ensures Run(env, q, [op]) == Step(env, q, op)
  {
    assert [op][..0] == [] && Run(env, q, []) == q;
  }

  /** A failing input: a draft armed with a time before it was authored. */
  lemma BackdatingBreaksOrder(env: Env, p: Plan, rm: string, clock: Clock)
    requires Draft(p) && p.gov.log[0].at <= clock.first && Ticks(clock)
    ensures !TimeSorted(Step(env, p, OpArm(rm, None, "", Some(p.gov.log[0].at - 1), clock)).gov.log)
  {
    DraftIsLawful(env, p);
    StepTimeSorted(env, p, OpArm(rm, None, "", Some(p.gov.log[0].at - 1), clock));
  }

  ghost predicate BreaksOrder(env: Env, p: Plan, ops: seq<Op>)
    requires p.gov.log != []
  {
    ClockRuns(p.gov.log[0].at, ops) && !TimeSorted(Run(env, p, ops).gov.log)
  }

  lemma TwoSteps(env: Env, p: Plan, a: Op, b: Op)
    ensures Run(env, p, [a, b]) == Step(env, Step(env, p, a), b)
  {
    assert [a, b][..1] == [a];
    OneStep(env, p, a);
  }

  lemma TwoClocks(from: int, a: Op, b: Op)
    requires from <= a.clock.first && Ticks(a.clock) && Ticks(b.clock) && a.clock.third <= b.clock.first
    ensures ClockRuns(from, [a, b])
  {}

  /** The other failing input: a draft armed at 1 with the time 100, and fired at 2. */
  lemma PostdatingBreaksOrder(env: Env, p: Plan, rm: string) returns (fire: Op)
    requires Draft(p) && p.gov.log[0].at == 0 && Readable(p.body.trigger, {BeforeDot(p.body.trigger.variable)})
    ensures fire.OpWatch? && fire.clock == Clock(2, 2, 2)
    ensures BreaksOrder(env, p, [OpArm(rm, None, "", Some(100), Clock(1, 1, 1)), fire])
  {
    var arm := OpArm(rm, None, "", Some(100), Clock(1, 1, 1));
    DraftIsLawful(env, p);
    ArmedLog(env, p, arm);
    fire := FiresAt(env, Step(env, p, arm), 2);
    TwoClocks(0, arm, fire);
    TwoSteps(env, p, arm, fire);
    OutOfOrder(Step(env, p, arm).gov.log, Step(env, Step(env, p, arm), fire).gov.log);
  }
}
