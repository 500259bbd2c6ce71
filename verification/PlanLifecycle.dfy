/** The plan state machine on values: what each operation writes, and what holds over every run. */
module PlanLifecycle {
  import opened Wrappers
  import opened CanonicalJson
  import opened ShockEngine

  datatype State = Drafted | Armed | Watching | Fired | Actioned | Dismissed

  predicate Allowed(from: State, to: State) {
    match from
    case Drafted => to == Armed || to == Dismissed
    case Armed => to == Watching
    case Watching => to == Fired
    case Fired => to == Actioned || to == Dismissed
    case _ => false
  }

  /** A log entry; `at` is a clock reading, the first entry has no `from`. */
  datatype Entry = Entry(at: int, actor: string, from: Option<State>, to: State, note: string)

  datatype Action = Action(rank: int, action: string, rest: seq<Member>)

  /** The reasoning: everything in the plan but `state` and `governance`. `levelText` is the drafted level
      as it is written in the plan, `trigger.level` the number it stands for. */
  datatype Body = Body(planId: string, trigger: Trigger, levelText: string, triggerRest: seq<Member>,
                       actions: seq<Action>, projected: Json, rest: seq<Member>)

  datatype Governance = Governance(
    armedBy: Option<string>, armedAt: Option<int>, armedLevel: Option<real>, armedSignature: Option<string>,
    firedAt: Option<int>, firedObservation: Option<Observation>,
    resolution: Option<State>, resolutionReason: Option<string>, log: seq<Entry>)

  datatype Plan = Plan(body: Body, state: State, gov: Governance)

  datatype Refusal = NotAllowed(planId: string, from: State, to: State) | NoReason | NoSuchRank(rank: int)

  /** What the platform supplies: SHA-256, what number a numeral stands for, and the %g format. */
  datatype Env = Env(hash: string -> string, number: string -> real, g: real -> string)

  /** A digest is never the empty string. */
  ghost predicate Digests(env: Env) {
    forall s :: env.hash(s) != ""
  }

  /** Two texts that the hash fails to tell apart. */
  predicate Collide(env: Env, s: string, t: string) {
    s != t && env.hash(s) == env.hash(t)
  }

  /** Digests without a single collision are possible, so no claim below is about nothing. */
  lemma CollisionFreePlatform() returns (env: Env)
    ensures Digests(env) && forall s, t :: !Collide(env, s, t)
  {
    env := Env(s => "#" + s, _ => 0.0, _ => "");
    forall s, t ensures !Collide(env, s, t) {
      assert ("#" + s)[1..] == s && ("#" + t)[1..] == t;
    }
  }

  // ---- The signature.

  function ActionJson(a: Action): Json {
    Obj([Member(Lit("rank"), Num(Decimal(a.rank))), Member(Lit("action"), Str(Lit(a.action)))] + a.rest)
  }

  function TriggerJson(t: Trigger, levelText: string, rest: seq<Member>): Json {
    Obj([Member(Lit("variable"), Str(Lit(t.variable))), Member(Lit("operator"), Str(Lit(t.operator))),
         Member(Lit("level"), Num(levelText)), Member(Lit("evaluated_by"), Str(Lit(t.evaluatedBy)))] + rest)
  }

  /** The dictionary that is signed. */
  function BodyJson(b: Body): Json {
    Obj([Member(Lit("plan_id"), Str(Lit(b.planId))),
         Member(Lit("trigger"), TriggerJson(b.trigger, b.levelText, b.triggerRest)),
         Member(Lit("actions"), Arr(seq(|b.actions|, i requires 0 <= i < |b.actions| => ActionJson(b.actions[i])))),
         Member(Lit("projected_consequence"), b.projected)] + b.rest)
  }

  /** The level is the number its text stands for, as in every plan that was read from JSON. */
  predicate LevelAsWritten(env: Env, b: Body) {
    b.trigger.level == env.number(b.levelText)
  }

  function SignedText(b: Body): string { Dumps(BodyJson(b)) }

  function Signature(env: Env, b: Body): string { env.hash(SignedText(b)) }

  datatype Verdict = Unsigned | Signed(ok: bool, expected: string, actual: string)

  function VerifySignature(env: Env, p: Plan): Verdict {
    match p.gov.armedSignature
    case None => Unsigned
    case Some(expected) =>
      if expected == "" then Unsigned
      else var actual := Signature(env, p.body); Signed(actual == expected, expected, actual)
  }

  /** Two bodies carry one signature exactly when they are the same tree, or their texts collide. */
  lemma SignatureIdentifies(env: Env, b: Body, c: Body)
    requires WellFormed(BodyJson(b)) && WellFormed(BodyJson(c))
    ensures Signature(env, b) == Signature(env, c) <==>
            SameTree(BodyJson(b), BodyJson(c)) || Collide(env, SignedText(b), SignedText(c))
  {
    DumpsIdentifies(BodyJson(b), BodyJson(c));
  }

  lemma SameMember(ms: seq<Member>, ns: seq<Member>, i: nat)
    requires i < |ms| && i < |ns| && ms[i].key == ns[i].key && SameTree(Obj(ms), Obj(ns))
    ensures SameTree(ms[i].value, ns[i].value)
  {}

  predicate ActionItems(items: seq<Json>, actions: seq<Action>) {
    |items| == |actions| && forall i :: 0 <= i < |actions| ==> items[i] == ActionJson(actions[i])
  }

  lemma BodyMembers(b: Body)
    ensures var ms := BodyJson(b).members;
      && |ms| >= 4
      && ms[0] == Member(Lit("plan_id"), Str(Lit(b.planId)))
      && ms[1] == Member(Lit("trigger"), TriggerJson(b.trigger, b.levelText, b.triggerRest))
      && ms[2].key == Lit("actions") && ms[2].value.Arr? && ActionItems(ms[2].value.items, b.actions)
  {}

  lemma SameActions(xs: seq<Json>, ys: seq<Json>, b: seq<Action>, c: seq<Action>)
    requires SameTree(Arr(xs), Arr(ys)) && ActionItems(xs, b) && ActionItems(ys, c)
    ensures |b| == |c| && forall i :: 0 <= i < |b| ==> b[i].rank == c[i].rank && b[i].action == c[i].action
  {
    forall i | 0 <= i < |b| ensures b[i].rank == c[i].rank && b[i].action == c[i].action {
      assert SameTree(xs[i], ys[i]);
      SameAction(b[i], c[i]);
    }
  }

  /** So nothing the watcher or the manager acts on can differ under one signature. */
  lemma SignedFields(env: Env, b: Body, c: Body)
    requires SameTree(BodyJson(b), BodyJson(c)) && LevelAsWritten(env, b) && LevelAsWritten(env, c)
    ensures b.planId == c.planId && b.trigger == c.trigger && |b.actions| == |c.actions|
    ensures forall i :: 0 <= i < |b.actions| ==>
      b.actions[i].rank == c.actions[i].rank && b.actions[i].action == c.actions[i].action
  {
    var ms, ns := BodyJson(b).members, BodyJson(c).members;
    BodyMembers(b);
    BodyMembers(c);
    SameString(ms, ns, 0, b.planId, c.planId);
    SameMember(ms, ns, 1);
    SameTrigger(env, b, c);
    SameMember(ms, ns, 2);
    SameActions(ms[2].value.items, ns[2].value.items, b.actions, c.actions);
  }

  lemma SameString(ms: seq<Member>, ns: seq<Member>, i: nat, s: string, t: string)
    requires i < |ms| && i < |ns| && ms[i].key == ns[i].key && SameTree(Obj(ms), Obj(ns))
    requires ms[i].value == Str(Lit(s)) && ns[i].value == Str(Lit(t))
    ensures s == t
  {}

  lemma TriggerMembers(t: Trigger, levelText: string, rest: seq<Member>)
    ensures var ms := TriggerJson(t, levelText, rest).members;
      && |ms| >= 4
      && ms[0] == Member(Lit("variable"), Str(Lit(t.variable)))
      && ms[1] == Member(Lit("operator"), Str(Lit(t.operator)))
      && ms[2] == Member(Lit("level"), Num(levelText))
      && ms[3] == Member(Lit("evaluated_by"), Str(Lit(t.evaluatedBy)))
  {}

  lemma SameMembers(ms: seq<Member>, ns: seq<Member>, b: Body, c: Body)
    requires SameTree(Obj(ms), Obj(ns)) && |ms| >= 4 && |ns| >= 4
    requires forall i :: 0 <= i < 4 ==> ms[i].key == ns[i].key
    requires ms[0].value == Str(Lit(b.trigger.variable)) && ns[0].value == Str(Lit(c.trigger.variable))
    requires ms[1].value == Str(Lit(b.trigger.operator)) && ns[1].value == Str(Lit(c.trigger.operator))
    requires ms[2].value == Num(b.levelText) && ns[2].value == Num(c.levelText)
    requires ms[3].value == Str(Lit(b.trigger.evaluatedBy)) && ns[3].value == Str(Lit(c.trigger.evaluatedBy))
    ensures b.trigger.(level := c.trigger.level) == c.trigger && b.levelText == c.levelText
  {
    SameString(ms, ns, 0, b.trigger.variable, c.trigger.variable);
    SameString(ms, ns, 1, b.trigger.operator, c.trigger.operator);
    SameMember(ms, ns, 2);
    SameString(ms, ns, 3, b.trigger.evaluatedBy, c.trigger.evaluatedBy);
  }

  lemma SameTrigger(env: Env, b: Body, c: Body)
    requires SameTree(TriggerJson(b.trigger, b.levelText, b.triggerRest),
                      TriggerJson(c.trigger, c.levelText, c.triggerRest))
    requires LevelAsWritten(env, b) && LevelAsWritten(env, c)
    ensures b.trigger == c.trigger
  {
    TriggerMembers(b.trigger, b.levelText, b.triggerRest);
    TriggerMembers(c.trigger, c.levelText, c.triggerRest);
    SameMembers(TriggerJson(b.trigger, b.levelText, b.triggerRest).members,
                TriggerJson(c.trigger, c.levelText, c.triggerRest).members, b, c);
  }

  lemma SameAction(a: Action, b: Action)
    requires SameTree(ActionJson(a), ActionJson(b))
    ensures a.rank == b.rank && a.action == b.action
  {
    var ms, ns := ActionJson(a).members, ActionJson(b).members;
    SameMember(ms, ns, 0);
    SameMember(ms, ns, 1);
    DecimalInjective(a.rank, b.rank);
    LitFaithful(a.action, b.action);
  }

  /** Members before others: the same exactly if both parts are. */
  lemma SplitSame(xs: seq<Member>, ys: seq<Member>, ms: seq<Member>, ns: seq<Member>)
    requires |xs| == |ys| && forall i :: 0 <= i < |xs| ==> xs[i].key == ys[i].key
    requires DistinctKeys(xs + ms) && DistinctKeys(ys + ns)
    ensures SameTree(Obj(xs + ms), Obj(ys + ns)) <==>
            (forall i :: 0 <= i < |xs| ==> SameTree(xs[i].value, ys[i].value)) && SameTree(Obj(ms), Obj(ns))
  {
    if SameTree(Obj(xs + ms), Obj(ys + ns)) {
      PartsSame(xs, ys, ms, ns);
    }
    if (forall i :: 0 <= i < |xs| ==> SameTree(xs[i].value, ys[i].value)) && SameTree(Obj(ms), Obj(ns)) {
      PartsJoin(xs, ys, ms, ns);
    }
  }

  /** A key of the members behind is none of the members before, nor of others that begin with the same keys. */
  lemma TailKey(xs: seq<Member>, ys: seq<Member>, ms: seq<Member>, ns: seq<Member>, a: nat)
    requires |xs| == |ys| && forall i :: 0 <= i < |xs| ==> xs[i].key == ys[i].key
    requires DistinctKeys(xs + ms) && a < |ms|
    ensures (xs + ms)[|xs| + a] == ms[a]
    ensures forall b :: 0 <= b < |xs| ==> (ys + ns)[b].key != ms[a].key
  {
    forall b | 0 <= b < |xs| ensures (ys + ns)[b].key != ms[a].key {
      assert (xs + ms)[b].key == (ys + ns)[b].key;
    }
  }

  lemma KeyBehind(xs: seq<Member>, ys: seq<Member>, ms: seq<Member>, ns: seq<Member>, a: nat)
    requires |xs| == |ys| && forall i :: 0 <= i < |xs| ==> xs[i].key == ys[i].key
    requires DistinctKeys(xs + ms) && Keys(xs + ms) == Keys(ys + ns) && a < |ms|
    ensures ms[a].key in Keys(ns)
  {
    var all, other := xs + ms, ys + ns;
    TailKey(xs, ys, ms, ns, a);
    assert ms[a].key in Keys(all);
    var b :| 0 <= b < |other| && other[b].key == ms[a].key;
    assert other[b] == ns[b - |ys|];
  }

  lemma PartsSame(xs: seq<Member>, ys: seq<Member>, ms: seq<Member>, ns: seq<Member>)
    requires |xs| == |ys| && forall i :: 0 <= i < |xs| ==> xs[i].key == ys[i].key
    requires DistinctKeys(xs + ms) && DistinctKeys(ys + ns) && SameTree(Obj(xs + ms), Obj(ys + ns))
    ensures forall i :: 0 <= i < |xs| ==> SameTree(xs[i].value, ys[i].value)
    ensures SameTree(Obj(ms), Obj(ns))
  {
    var all, other := xs + ms, ys + ns;
    forall i | 0 <= i < |xs| ensures SameTree(xs[i].value, ys[i].value) {
      assert all[i] == xs[i] && other[i] == ys[i];
    }
    forall a, b | 0 <= a < |ms| && 0 <= b < |ns| && ms[a].key == ns[b].key ensures SameTree(ms[a].value, ns[b].value) {
      assert all[|xs| + a] == ms[a] && other[|ys| + b] == ns[b];
    }
    forall a | 0 <= a < |ms| ensures ms[a].key in Keys(ns) { KeyBehind(xs, ys, ms, ns, a); }
    forall b | 0 <= b < |ns| ensures ns[b].key in Keys(ms) { KeyBehind(ys, xs, ns, ms, b); }
  }

  lemma KeysJoin(xs: seq<Member>, ms: seq<Member>)
    ensures Keys(xs + ms) == Keys(xs) + Keys(ms)
  {
    forall key | key in Keys(xs) + Keys(ms) ensures key in Keys(xs + ms) {
      if i :| 0 <= i < |xs| && xs[i].key == key {
        assert (xs + ms)[i] == xs[i];
      } else {
        var i :| 0 <= i < |ms| && ms[i].key == key;
        assert (xs + ms)[|xs| + i] == ms[i];
      }
    }
  }

  lemma PartsJoin(xs: seq<Member>, ys: seq<Member>, ms: seq<Member>, ns: seq<Member>)
    requires |xs| == |ys| && forall i :: 0 <= i < |xs| ==> xs[i].key == ys[i].key
    requires DistinctKeys(xs + ms) && DistinctKeys(ys + ns) && SameTree(Obj(ms), Obj(ns))
    requires forall i :: 0 <= i < |xs| ==> SameTree(xs[i].value, ys[i].value)
    ensures SameTree(Obj(xs + ms), Obj(ys + ns))
  {
    var all, other := xs + ms, ys + ns;
    KeysJoin(xs, ms);
    KeysJoin(ys, ns);
    assert Keys(xs) == Keys(ys) by {
      forall i | 0 <= i < |xs| ensures xs[i].key in Keys(ys) && ys[i].key in Keys(xs) {
        assert ys[i].key in Keys(ys) && xs[i].key in Keys(xs);
      }
    }
    forall a, b | 0 <= a < |all| && 0 <= b < |other| && all[a].key == other[b].key
      ensures SameTree(all[a].value, other[b].value)
    {
      if a < |xs| {
        assert other[a].key == all[a].key;
        assert a == b;
      } else {
        TailKey(xs, ys, ms, ns, a - |xs|);
        assert all[a] == ms[a - |xs|] && other[b] == ns[b - |xs|];
      }
    }
  }

  /** The same action: rank, name, and whatever else it says. */
  ghost predicate SamePlannedAction(a: Action, b: Action) {
    a.rank == b.rank && a.action == b.action && SameTree(Obj(a.rest), Obj(b.rest))
  }

  /** The same reasoning: every part of a plan but `state` and `governance`. */
  ghost predicate SameReasoning(b: Body, c: Body) {
    SameNamedParts(b, c) && SameTree(Obj(b.rest), Obj(c.rest))
  }

  ghost predicate SameNamedParts(b: Body, c: Body) {
    && b.planId == c.planId && b.trigger.(level := c.trigger.level) == c.trigger && b.levelText == c.levelText
    && SameTree(Obj(b.triggerRest), Obj(c.triggerRest))
    && |b.actions| == |c.actions|
    && (forall i :: 0 <= i < |b.actions| ==> SamePlannedAction(b.actions[i], c.actions[i]))
    && SameTree(b.projected, c.projected)
  }

  lemma ActionSigned(a: Action, b: Action)
    requires WellFormed(ActionJson(a)) && WellFormed(ActionJson(b))
    ensures SameTree(ActionJson(a), ActionJson(b)) <==> SamePlannedAction(a, b)
  {
    var xs := [Member(Lit("rank"), Num(Decimal(a.rank))), Member(Lit("action"), Str(Lit(a.action)))];
    var ys := [Member(Lit("rank"), Num(Decimal(b.rank))), Member(Lit("action"), Str(Lit(b.action)))];
    SplitSame(xs, ys, a.rest, b.rest);
    LitFaithful(a.action, b.action);
    if Decimal(a.rank) == Decimal(b.rank) { DecimalInjective(a.rank, b.rank); }
    assert SameTree(xs[0].value, ys[0].value) <==> a.rank == b.rank;
    assert SameTree(xs[1].value, ys[1].value) <==> a.action == b.action;
  }

  function TriggerHead(t: Trigger, levelText: string): (xs: seq<Member>)
    ensures |xs| == 4
  {
    [Member(Lit("variable"), Str(Lit(t.variable))), Member(Lit("operator"), Str(Lit(t.operator))),
     Member(Lit("level"), Num(levelText)), Member(Lit("evaluated_by"), Str(Lit(t.evaluatedBy)))]
  }

  lemma TriggerSigned(b: Body, c: Body)
    requires WellFormed(TriggerJson(b.trigger, b.levelText, b.triggerRest))
    requires WellFormed(TriggerJson(c.trigger, c.levelText, c.triggerRest))
    ensures SameTree(TriggerJson(b.trigger, b.levelText, b.triggerRest),
                     TriggerJson(c.trigger, c.levelText, c.triggerRest)) <==>
            && b.trigger.(level := c.trigger.level) == c.trigger && b.levelText == c.levelText
            && SameTree(Obj(b.triggerRest), Obj(c.triggerRest))
  {
    var xs, ys := TriggerHead(b.trigger, b.levelText), TriggerHead(c.trigger, c.levelText);
    SplitSame(xs, ys, b.triggerRest, c.triggerRest);
    LitFaithful(b.trigger.variable, c.trigger.variable);
    LitFaithful(b.trigger.operator, c.trigger.operator);
    LitFaithful(b.trigger.evaluatedBy, c.trigger.evaluatedBy);
    assert SameTree(xs[0].value, ys[0].value) <==> b.trigger.variable == c.trigger.variable;
    assert SameTree(xs[1].value, ys[1].value) <==> b.trigger.operator == c.trigger.operator;
    assert SameTree(xs[2].value, ys[2].value) <==> b.levelText == c.levelText;
    assert SameTree(xs[3].value, ys[3].value) <==> b.trigger.evaluatedBy == c.trigger.evaluatedBy;
  }

  lemma ActionsSigned(xs: seq<Json>, ys: seq<Json>, b: seq<Action>, c: seq<Action>)
    requires ActionItems(xs, b) && ActionItems(ys, c) && WellFormed(Arr(xs)) && WellFormed(Arr(ys))
    ensures SameTree(Arr(xs), Arr(ys)) <==>
            |b| == |c| && forall i :: 0 <= i < |b| ==> SamePlannedAction(b[i], c[i])
  {
    forall i | 0 <= i < |b| && i < |c| ensures SameTree(xs[i], ys[i]) <==> SamePlannedAction(b[i], c[i]) {
      ActionSigned(b[i], c[i]);
    }
  }

  lemma BodyHead(b: Body) returns (xs: seq<Member>)
    ensures |xs| == 4 && BodyJson(b) == Obj(xs + b.rest)
    ensures xs[0].key == Lit("plan_id") && xs[1].key == Lit("trigger")
    ensures xs[2].key == Lit("actions") && xs[3].key == Lit("projected_consequence")
    ensures xs[0].value == Str(Lit(b.planId)) && xs[1].value == TriggerJson(b.trigger, b.levelText, b.triggerRest)
    ensures xs[2].value.Arr? && ActionItems(xs[2].value.items, b.actions) && xs[3].value == b.projected
    ensures WellFormed(BodyJson(b)) ==>
      DistinctKeys(xs + b.rest) && forall i :: 0 <= i < 4 ==> WellFormed(xs[i].value)
  {
    xs := BodyJson(b).members[..4];
    assert BodyJson(b).members == xs + b.rest;
  }

  lemma HeadSigned(b: Body, c: Body, xs: seq<Member>, ys: seq<Member>)
    requires |xs| == |ys| == 4
    requires xs[0].value == Str(Lit(b.planId)) && xs[1].value == TriggerJson(b.trigger, b.levelText, b.triggerRest)
    requires xs[2].value.Arr? && ActionItems(xs[2].value.items, b.actions) && xs[3].value == b.projected
    requires ys[0].value == Str(Lit(c.planId)) && ys[1].value == TriggerJson(c.trigger, c.levelText, c.triggerRest)
    requires ys[2].value.Arr? && ActionItems(ys[2].value.items, c.actions) && ys[3].value == c.projected
    requires forall i :: 0 <= i < 4 ==> WellFormed(xs[i].value) && WellFormed(ys[i].value)
    ensures (forall i :: 0 <= i < 4 ==> SameTree(xs[i].value, ys[i].value)) <==> SameNamedParts(b, c)
  {
    LitFaithful(b.planId, c.planId);
    TriggerSigned(b, c);
    ActionsSigned(xs[2].value.items, ys[2].value.items, b.actions, c.actions);
  }

  /** What is signed is the whole reasoning: two bodies are the same tree exactly if every part of them is. */
  lemma SignedReasoning(b: Body, c: Body)
    requires WellFormed(BodyJson(b)) && WellFormed(BodyJson(c))
    ensures SameTree(BodyJson(b), BodyJson(c)) <==> SameReasoning(b, c)
  {
    var xs := BodyHead(b);
    var ys := BodyHead(c);
    SplitSame(xs, ys, b.rest, c.rest);
    HeadSigned(b, c, xs, ys);
  }

  // ---- Operations.

  predicate IsSpace(c: char) {
    var n := c as int;
    0x09 <= n <= 0x0D || 0x1C <= n <= 0x20 || n == 0x85 || n == 0xA0 || n == 0x1680 || 0x2000 <= n <= 0x200A
    || n == 0x2028 || n == 0x2029 || n == 0x202F || n == 0x205F || n == 0x3000
  }

  /** str.strip() */
  function Strip(s: string): (r: string)
    ensures r == "" <==> forall i :: 0 <= i < |s| ==> IsSpace(s[i])
    ensures r != "" ==> !IsSpace(r[0]) && !IsSpace(r[|r| - 1])
  {
    if s == "" then ""
    else if IsSpace(s[0]) then Strip(s[1..])
    else if IsSpace(s[|s| - 1]) then Strip(s[..|s| - 1])
    else s
  }

  /** What is stripped is white space at either end, and nothing else. */
  lemma {:induction false} StripCuts(s: string) returns (before: string, after: string)
    ensures s == before + Strip(s) + after
    ensures forall i :: 0 <= i < |before| ==> IsSpace(before[i])
    ensures forall i :: 0 <= i < |after| ==> IsSpace(after[i])
    decreases |s|
  {
    if s == "" {
      before, after := "", "";
    } else if IsSpace(s[0]) {
      before, after := StripCuts(s[1..]);
      before := [s[0]] + before;
    } else if IsSpace(s[|s| - 1]) {
      before, after := StripCuts(s[..|s| - 1]);
      after := after + [s[|s| - 1]];
    } else {
      before, after := "", "";
    }
  }

  /** `at or _now()` */
  function Or(at: Option<int>, now: int): int { if at.Some? then at.value else now }

  function Logged(p: Plan, actor: string, to: State, note: string, at: int): Plan {
    p.(gov := p.gov.(log := p.gov.log + [Entry(at, actor, Some(p.state), to, note)]))
  }

  function Transition(p: Plan, to: State, actor: string, note: string, at: int): Result<Plan, Refusal> {
    if Allowed(p.state, to) then Ok(Logged(p, actor, to, note, at).(state := to))
    else Err(NotAllowed(p.body.planId, p.state, to))
  }

  /** The readings of the clock one operation takes, in order. */
  datatype Clock = Clock(first: int, second: int, third: int)

  function Level(p: Plan, level: Option<real>): real {
    if level.Some? then level.value else p.body.trigger.level
  }

  function ArmNote(env: Env, p: Plan, lvl: real, note: string): string {
    var drafted := p.body.trigger.level;
    Strip(note + if lvl == drafted then "" else " (level edited " + env.g(drafted) + " -> " + env.g(lvl) + ")")
  }

  function ArmRecord(env: Env, p: Plan, rm: string, level: Option<real>, at: int): Plan {
    p.(gov := p.gov.(armedBy := Some(rm), armedAt := Some(at), armedLevel := Some(Level(p, level)),
                     armedSignature := Some(Signature(env, p.body))))
  }

  function Arm(env: Env, p: Plan, rm: string, level: Option<real>, note: string, at: Option<int>, clock: Clock)
    : Result<Plan, Refusal>
  {
    var q := ArmRecord(env, p, rm, level, Or(at, clock.first));
    match Transition(q, Armed, rm, ArmNote(env, p, Level(p, level), note), Or(at, clock.second))
    case Err(e) => Err(e)
    case Ok(armed) => Transition(armed, Watching, "system", "trigger registered with the watcher", Or(at, clock.third))
  }

  function Dismiss(p: Plan, rm: string, reason: string, now: int): Result<Plan, Refusal> {
    if Strip(reason) == "" then Err(NoReason)
    else
      Transition(p.(gov := p.gov.(resolution := Some(Dismissed), resolutionReason := Some(Strip(reason)))),
                 Dismissed, rm, Strip(reason), now)
  }

  function Expression(env: Env, o: Observation): string {
    o.variable + " " + o.operator + " " + env.g(o.level)
  }

  function Fire(env: Env, p: Plan, o: Observation, clock: Clock): Result<Plan, Refusal> {
    Transition(p.(gov := p.gov.(firedAt := Some(clock.first), firedObservation := Some(o))),
               Fired, "watcher", Expression(env, o), clock.second)
  }

  /** The first action of the given rank. */
  function Chosen(actions: seq<Action>, rank: int): Option<Action> {
    if actions == [] then None else if actions[0].rank == rank then Some(actions[0]) else Chosen(actions[1..], rank)
  }

  function Shortened(s: string): string { if |s| > 200 then s[..200] else s }

  function Act(p: Plan, rm: string, rank: int, note: string, now: int): Result<Plan, Refusal> {
    match Chosen(p.body.actions, rank)
    case None => Err(NoSuchRank(rank))
    case Some(a) =>
      Transition(p.(gov := p.gov.(resolution := Some(Actioned),
                                  resolutionReason := Some("Action " + Decimal(rank) + ": " + a.action))),
                 Actioned, rm, Shortened(if note != "" then note else a.action), now)
  }

  /** Whether the watcher finds the trigger of a plan true: only WATCHING plans are evaluated. */
  function Watched(p: Plan, market: Market): Result<Option<Observation>, Error> {
    if p.state != Watching then Ok(None)
    else
      match Evaluate(p.body.trigger, market, p.gov.armedLevel)
      case Err(e) => Err(e)
      case Ok(o) => Ok(if o.hit then Some(o) else None)
  }

  /** One plan's turn in a sweep; an evaluation that raises leaves the plan as it was. */
  function Watch(env: Env, p: Plan, market: Market, clock: Clock): Plan {
    match Watched(p, market)
    case Ok(Some(o)) => (match Fire(env, p, o, clock) case Ok(q) => q case Err(_) => p)
    case _ => p
  }

  /** What a fired card shows of the arming next to what was observed. */
  datatype Comparison = Comparison(armedBy: Option<string>, armedAt: Option<int>, armedLevel: Option<real>,
                                   signature: Option<string>, verdict: Verdict,
                                   variable: string, observed: real, firedAt: Option<int>)

  function ArmedVsNow(env: Env, p: Plan): Option<Comparison> {
    if p.state !in {Fired, Actioned, Dismissed} then None
    else
      var g := p.gov;
      match g.firedObservation
      case None => None
      case Some(o) =>
        Some(Comparison(g.armedBy, g.armedAt, g.armedLevel, g.armedSignature, VerifySignature(env, p),
                        o.variable, o.observed, g.firedAt))
  }

  // ---- Runs.

  datatype Op =
    | OpArm(rm: string, level: Option<real>, note: string, at: Option<int>, clock: Clock)
    | OpDismiss(rm: string, reason: string, clock: Clock)
    | OpAct(rm: string, rank: int, note: string, clock: Clock)
    | OpWatch(market: Market, clock: Clock)

  /** What the operation returns; a refused one returns nothing. */
  function Attempt(env: Env, p: Plan, op: Op): Result<Plan, Refusal> {
    match op
    case OpArm(rm, level, note, at, clock) => Arm(env, p, rm, level, note, at, clock)
    case OpDismiss(rm, reason, clock) => Dismiss(p, rm, reason, clock.first)
    case OpAct(rm, rank, note, clock) => Act(p, rm, rank, note, clock.first)
    case OpWatch(market, clock) => Ok(Watch(env, p, market, clock))
  }

  /** The plan the desk holds afterwards: a refusal leaves the old one in place. */
  function Step(env: Env, p: Plan, op: Op): Plan {
    match Attempt(env, p, op) case Ok(q) => q case Err(_) => p
  }

  function Run(env: Env, p: Plan, ops: seq<Op>): Plan {
    if ops == [] then p else Step(env, Run(env, p, ops[..|ops| - 1]), ops[|ops| - 1])
  }

  ghost predicate Draft(p: Plan) {
    && p.state == Drafted
    && |p.gov.log| == 1 && p.gov.log[0].from == None && p.gov.log[0].to == Drafted
    && p.gov == Governance(None, None, None, None, None, None, None, None, p.gov.log)
  }

  /** The states a plan has been through, by its log. */
  function Visited(log: seq<Entry>): (r: seq<State>)
    ensures |r| == |log| && forall i :: 0 <= i < |log| ==> r[i] == log[i].to
  {
    seq(|log|, i requires 0 <= i < |log| => log[i].to)
  }

  ghost predicate Linked(log: seq<Entry>) {
    && log != [] && log[0].from == None
    && forall i :: 1 <= i < |log| ==> log[i].from == Some(log[i - 1].to) && Allowed(log[i - 1].to, log[i].to)
  }

  predicate WasArmed(p: Plan) { Armed in Visited(p.gov.log) }
  predicate WasFired(p: Plan) { Fired in Visited(p.gov.log) }

  /** The observation is of the trigger at the armed level, and by its own numbers the trigger was true. */
  predicate Held(o: Observation, t: Trigger, armedLevel: Option<real>) {
    && o.hit && o.variable == t.variable && o.operator == t.operator && Some(o.level) == armedLevel
    && Compare(t.operator, o.observed, o.level) == Ok(true)
  }

  /** What every reachable plan satisfies. */
  ghost predicate Lawful(env: Env, p: Plan) {
    var g := p.gov;
    var v := Visited(g.log);
    && Linked(g.log)
    && (match p.state
        case Drafted => v == [Drafted]
        case Armed => false
        case Watching => v == [Drafted, Armed, Watching]
        case Fired => v == [Drafted, Armed, Watching, Fired]
        case Actioned => v == [Drafted, Armed, Watching, Fired, Actioned]
        case Dismissed => v == [Drafted, Dismissed] || v == [Drafted, Armed, Watching, Fired, Dismissed])
    && (|v| >= 3 ==>
        && g.armedBy == Some(g.log[1].actor) && g.armedAt.Some? && g.armedLevel.Some?
        && g.armedSignature == Some(Signature(env, p.body)))
    && (|v| < 3 ==> g.armedBy == None && g.armedAt == None && g.armedLevel == None && g.armedSignature == None)
    && (|v| >= 4 ==>
        && g.firedAt.Some? && g.firedObservation.Some? && g.log[3].actor == "watcher"
        && Held(g.firedObservation.value, p.body.trigger, g.armedLevel))
    && (|v| < 4 ==> g.firedAt == None && g.firedObservation == None)
    && g.resolution == (if p.state == Actioned || p.state == Dismissed then Some(p.state) else None)
  }

  lemma AppendVisited(log: seq<Entry>, e: Entry)
    ensures Visited(log + [e]) == Visited(log) + [e.to]
    ensures Linked(log) && e.from == Some(log[|log| - 1].to) && Allowed(log[|log| - 1].to, e.to) ==> Linked(log + [e])
  {}

  lemma ArmLawful(env: Env, p: Plan, op: Op)
    requires Lawful(env, p) && op.OpArm?
    ensures Lawful(env, Step(env, p, op))
  {
    if Attempt(env, p, op).Ok? {
      assert p.state == Drafted;
      var q := ArmRecord(env, p, op.rm, op.level, Or(op.at, op.clock.first));
      var note := ArmNote(env, p, Level(p, op.level), op.note);
      var mid := Transition(q, Armed, op.rm, note, Or(op.at, op.clock.second)).value;
      AppendVisited(q.gov.log, mid.gov.log[|mid.gov.log| - 1]);
      var end := Step(env, p, op);
      AppendVisited(mid.gov.log, end.gov.log[|end.gov.log| - 1]);
      assert Visited(end.gov.log) == [Drafted, Armed, Watching];
    }
  }

  lemma DismissLawful(env: Env, p: Plan, op: Op)
    requires Lawful(env, p) && op.OpDismiss?
    ensures Lawful(env, Step(env, p, op))
  {
    var q := Step(env, p, op);
    if q != p { AppendVisited(p.gov.log, q.gov.log[|p.gov.log|]); }
  }

  lemma ActLawful(env: Env, p: Plan, op: Op)
    requires Lawful(env, p) && op.OpAct?
    ensures Lawful(env, Step(env, p, op))
  {
    var q := Step(env, p, op);
    if q != p { AppendVisited(p.gov.log, q.gov.log[|p.gov.log|]); }
  }

  lemma WatchLawful(env: Env, p: Plan, op: Op)
    requires Lawful(env, p) && op.OpWatch?
    ensures Lawful(env, Step(env, p, op))
  {
    var q := Step(env, p, op);
    if q != p { AppendVisited(p.gov.log, q.gov.log[|p.gov.log|]); }
  }

  lemma StepLawful(env: Env, p: Plan, op: Op)
    requires Lawful(env, p)
    ensures Lawful(env, Step(env, p, op))
  {
    match op
    case OpArm(_, _, _, _, _) => ArmLawful(env, p, op);
    case OpDismiss(_, _, _) => DismissLawful(env, p, op);
    case OpAct(_, _, _, _) => ActLawful(env, p, op);
    case OpWatch(_, _) => WatchLawful(env, p, op);
  }

  /** Every run from a draft stays lawful. */
  lemma {:induction false} RunLawful(env: Env, p: Plan, ops: seq<Op>)
    requires Draft(p)
    ensures Lawful(env, Run(env, p, ops))
  {
    if ops == [] {
      assert Visited(p.gov.log) == [Drafted];
    } else {
      RunLawful(env, p, ops[..|ops| - 1]);
      StepLawful(env, Run(env, p, ops[..|ops| - 1]), ops[|ops| - 1]);
    }
  }

  /** What the log says of a lawful plan, without listing its shapes. */
  lemma LogTellsTheStory(env: Env, p: Plan)
    requires Lawful(env, p)
    ensures |p.gov.log| <= 5 && p.gov.log[|p.gov.log| - 1].to == p.state && p.state != Armed
    ensures WasArmed(p) <==> p.gov.armedSignature.Some?
    ensures WasFired(p) <==> p.gov.firedObservation.Some?
    ensures p.state == Actioned ==>
      exists i, j :: 0 <= i < j < |p.gov.log| - 1
        && p.gov.log[i].to == Armed && Some(p.gov.log[i].actor) == p.gov.armedBy
        && p.gov.log[j].to == Fired && p.gov.log[j].actor == "watcher"
        && Held(p.gov.firedObservation.value, p.body.trigger, p.gov.armedLevel)
  {}

  /** The comparison is there exactly for plans that were armed and fired, and then it shows the arming:
      who armed and logged it, a signature that still verifies, and an observation of the armed trigger. */
  lemma ComparisonShowsArming(env: Env, p: Plan)
    requires Digests(env) && Lawful(env, p)
    ensures ArmedVsNow(env, p).Some? <==> WasArmed(p) && WasFired(p)
    ensures ArmedVsNow(env, p).Some? ==>
      var c := ArmedVsNow(env, p).value;
      && |p.gov.log| > 3 && p.gov.log[1].to == Armed && c.armedBy == Some(p.gov.log[1].actor)
      && c.armedAt == p.gov.armedAt && c.armedAt.Some? && c.armedLevel == p.gov.armedLevel && c.armedLevel.Some?
      && p.gov.firedObservation.Some? && c.observed == p.gov.firedObservation.value.observed
      && c.firedAt == p.gov.firedAt
      && Compare(p.body.trigger.operator, c.observed, c.armedLevel.value) == Ok(true)
      && c.verdict.Signed? && c.verdict.ok && c.signature == Some(c.verdict.expected)
      && c.variable == p.body.trigger.variable && c.firedAt.Some?
  {}

  /** The log only grows, the reasoning never changes, and an arming record is never rewritten. */
  ghost predicate Extends(p: Plan, q: Plan) {
    && p.body == q.body && p.gov.log <= q.gov.log
    && (p.gov.armedSignature.Some? ==>
         && q.gov.armedBy == p.gov.armedBy && q.gov.armedAt == p.gov.armedAt
         && q.gov.armedLevel == p.gov.armedLevel && q.gov.armedSignature == p.gov.armedSignature)
    && (p.gov.firedObservation.Some? ==>
         q.gov.firedObservation == p.gov.firedObservation && q.gov.firedAt == p.gov.firedAt)
  }

  lemma StepExtends(env: Env, p: Plan, op: Op)
    requires Lawful(env, p)
    ensures Extends(p, Step(env, p, op))
  {}

  lemma {:induction false} RunExtends(env: Env, p: Plan, ops: seq<Op>)
    requires Lawful(env, p)
    ensures Lawful(env, Run(env, p, ops)) && Extends(p, Run(env, p, ops))
  {
    if ops == [] {
    } else {
      RunExtends(env, p, ops[..|ops| - 1]);
      StepLawful(env, Run(env, p, ops[..|ops| - 1]), ops[|ops| - 1]);
      StepExtends(env, Run(env, p, ops[..|ops| - 1]), ops[|ops| - 1]);
    }
  }

  /** Once armed, the record verifies through any further run; and after a rewrite of the body
      it verifies exactly if the rewrite left the same tree, or a text that collides with the signed one. */
  lemma ArmingRecordHolds(env: Env, p: Plan, ops: seq<Op>, rewritten: Body)
    requires Digests(env) && Lawful(env, p) && WasArmed(p)
    requires WellFormed(BodyJson(p.body)) && WellFormed(BodyJson(rewritten))
    ensures var q := Run(env, p, ops);
      && VerifySignature(env, q).Signed? && VerifySignature(env, q).ok
      && VerifySignature(env, q.(body := rewritten)).Signed?
      && VerifySignature(env, q.(body := rewritten)).expected == Signature(env, p.body)
      && VerifySignature(env, q.(body := rewritten)).actual == Signature(env, rewritten)
      && (VerifySignature(env, q.(body := rewritten)).ok <==>
          SameTree(BodyJson(rewritten), BodyJson(p.body)) || Collide(env, SignedText(rewritten), SignedText(p.body)))
  {
    RunExtends(env, p, ops);
    LogTellsTheStory(env, p);
    SignatureIdentifies(env, rewritten, p.body);
  }

  // ---- What each operation writes.

  /** The time given, or else the clock's. */
  predicate TimeOf(t: int, given: Option<int>, now: int) {
    (given.Some? ==> t == given.value) && (given.None? ==> t == now)
  }

  /** Arming signs the level given, or else the drafted one, in the name of the manager who armed, and the two
      entries it logs are hers and the system's. */
  lemma ArmedAsSigned(env: Env, p: Plan, op: Op)
    requires Lawful(env, p) && p.state == Drafted && op.OpArm?
    ensures var q := Step(env, p, op);
      && q.state == Watching && q.body == p.body && |q.gov.log| == 3 && q.gov.log[..1] == p.gov.log
      && (op.level.Some? ==> q.gov.armedLevel == op.level)
      && (op.level.None? ==> q.gov.armedLevel == Some(p.body.trigger.level))
      && q.gov.armedBy == Some(op.rm) && q.gov.armedAt.Some? && TimeOf(q.gov.armedAt.value, op.at, op.clock.first)
      && q.gov.log[1].actor == op.rm && q.gov.log[1].to == Armed && TimeOf(q.gov.log[1].at, op.at, op.clock.second)
      && q.gov.log[2].actor == "system" && q.gov.log[2].to == Watching && TimeOf(q.gov.log[2].at, op.at, op.clock.third)
  {
    StepLawful(env, p, op);
  }

  /** The note of an arming ends in the edit of the level exactly if there was one. */
  lemma ArmingNoted(env: Env, p: Plan, op: Op)
    requires Lawful(env, p) && p.state == Drafted && op.OpArm?
    ensures var q, drafted := Step(env, p, op), p.body.trigger.level;
      && |q.gov.log| == 3
      && q.gov.log[1].note ==
         if op.level.None? || op.level.value == drafted then Strip(op.note)
         else Strip(op.note + " (level edited " + env.g(drafted) + " -> " + env.g(op.level.value) + ")")
  {
    assert op.note + "" == op.note;
    assert op.note + (" (level edited " + env.g(p.body.trigger.level) + " -> "
                      + env.g(Level(p, op.level)) + ")")
        == op.note + " (level edited " + env.g(p.body.trigger.level) + " -> " + env.g(Level(p, op.level)) + ")";
  }

  /** The observed value of a readable trigger stands to a level as its operator says. */
  predicate TriggerHolds(t: Trigger, market: Market, level: real) {
    && Readable(t, market.facilities.Keys) && Resolve(t.variable, market).Ok?
    && Holds(t.operator, Resolve(t.variable, market).value, level)
  }

  /** A plan armed at a level, and whatever has happened since: it fires exactly when its trigger holds at the level
      signed, whatever level was drafted; and if it has fired, the value observed then stood so to that level. */
  lemma ArmedLevelDecides(env: Env, p: Plan, arm: Op, ops: seq<Op>, market: Market, clock: Clock)
    requires Lawful(env, p) && p.state == Drafted && arm.OpArm?
    ensures var q := Run(env, Step(env, p, arm), ops);
      var x := if arm.level.Some? then arm.level.value else p.body.trigger.level;
      && (Step(env, q, OpWatch(market, clock)) != q <==> q.state == Watching && TriggerHolds(p.body.trigger, market, x))
      && (Step(env, q, OpWatch(market, clock)) != q ==> Step(env, q, OpWatch(market, clock)).state == Fired)
      && (WasFired(q) ==>
           && q.gov.firedObservation.Some? && q.gov.firedObservation.value.level == x
           && Holds(p.body.trigger.operator, q.gov.firedObservation.value.observed, x))
  {
    var armed := Step(env, p, arm);
    ArmedAsSigned(env, p, arm);
    StepLawful(env, p, arm);
    RunExtends(env, armed, ops);
    LogTellsTheStory(env, armed);
    WatchedHolds(env, Run(env, armed, ops), armed.gov.armedLevel.value, market, clock);
  }

  lemma WatchedHolds(env: Env, q: Plan, x: real, market: Market, clock: Clock)
    requires Lawful(env, q) && q.gov.armedLevel == Some(x)
    ensures var w := Step(env, q, OpWatch(market, clock));
      && (w != q <==> q.state == Watching && TriggerHolds(q.body.trigger, market, x))
      && (w != q ==> w.state == Fired)
    ensures WasFired(q) ==>
      && q.gov.firedObservation.Some? && q.gov.firedObservation.value.level == x
      && Holds(q.body.trigger.operator, q.gov.firedObservation.value.observed, x)
  {
    var t := q.body.trigger;
    OperationsGuarded(env, q, OpWatch(market, clock));
    EvaluateReads(t, market, q.gov.armedLevel);
    if Readable(t, market.facilities.Keys) { HitMeansHolds(t, market, q.gov.armedLevel); }
  }

  /** Firing records the observation, when it was made, and its comparison as the watcher's note. */
  lemma FiredAsObserved(env: Env, p: Plan, o: Observation, market: Market, clock: Clock)
    requires Lawful(env, p) && Watched(p, market) == Ok(Some(o))
    ensures var q := Step(env, p, OpWatch(market, clock));
      && q.state == Fired && q.gov.firedObservation == Some(o) && q.gov.firedAt == Some(clock.first)
      && q.gov.log == p.gov.log + [Entry(clock.second, "watcher", Some(Watching), Fired,
                                         o.variable + " " + o.operator + " " + env.g(o.level))]
  {}

  /** Dismissing records the reason without the white space around it, as resolution and as note. */
  lemma DismissedWithReason(env: Env, p: Plan, op: Op)
    requires op.OpDismiss? && Attempt(env, p, op).Ok?
    ensures var q := Step(env, p, op);
      && q.state == Dismissed && Strip(op.reason) != "" && q.gov.resolutionReason == Some(Strip(op.reason))
      && q.gov.log == p.gov.log + [Entry(op.clock.first, op.rm, Some(p.state), Dismissed, Strip(op.reason))]
  {}

  /** The first action of a rank. */
  ghost predicate FirstOfRank(actions: seq<Action>, rank: int, i: nat) {
    i < |actions| && actions[i].rank == rank && forall j :: 0 <= j < i ==> actions[j].rank != rank
  }

  lemma {:induction false} ChosenIsFirst(actions: seq<Action>, rank: int) returns (i: nat)
    requires Chosen(actions, rank).Some?
    ensures FirstOfRank(actions, rank, i) && Chosen(actions, rank).value == actions[i]
  {
    if actions[0].rank == rank {
      i := 0;
    } else {
      i := ChosenIsFirst(actions[1..], rank);
      i := i + 1;
    }
  }

  /** Acting carries out the first action of the rank asked for: the resolution names it, and the note is the
      manager's, or else the action's name, cut to 200 characters. */
  lemma ActedAsChosen(env: Env, p: Plan, op: Op) returns (i: nat)
    requires op.OpAct? && Attempt(env, p, op).Ok?
    ensures FirstOfRank(p.body.actions, op.rank, i)
    ensures var q, name := Step(env, p, op), p.body.actions[i].action;
      && q.state == Actioned && q.gov.resolution == Some(Actioned)
      && q.gov.resolutionReason == Some("Action " + Decimal(op.rank) + ": " + name)
      && |q.gov.log| == |p.gov.log| + 1 && p.gov.log <= q.gov.log
      && var e, note := q.gov.log[|p.gov.log|], if op.note != "" then op.note else name;
         e.actor == op.rm && e.at == op.clock.first && e.note <= note && (e.note == note || |e.note| == 200 < |note|)
  {
    i := ChosenIsFirst(p.body.actions, op.rank);
  }

  // ---- When each operation goes through.

  /** Refusals, exactly; and a refused operation leaves the plan alone. */
  lemma OperationsGuarded(env: Env, p: Plan, op: Op)
    requires Lawful(env, p)
    ensures match op
      case OpArm(_, _, _, _, _) => Attempt(env, p, op).Ok? <==> p.state == Drafted
      case OpDismiss(_, reason, _) =>
        Attempt(env, p, op).Ok? <==>
        (p.state == Drafted || p.state == Fired) && exists i :: 0 <= i < |reason| && !IsSpace(reason[i])
      case OpAct(_, rank, _, _) =>
        Attempt(env, p, op).Ok? <==> p.state == Fired && exists a :: a in p.body.actions && a.rank == rank
      case OpWatch(market, _) =>
        var o := Evaluate(p.body.trigger, market, p.gov.armedLevel);
        Step(env, p, op) != p <==> p.state == Watching && o.Ok? && o.value.hit
    ensures Attempt(env, p, op).Err? ==> Step(env, p, op) == p
  {
    if op.OpAct? { ChosenExists(p.body.actions, op.rank); }
  }

  lemma {:induction false} ChosenExists(actions: seq<Action>, rank: int)
    ensures Chosen(actions, rank).Some? <==> exists a :: a in actions && a.rank == rank
    ensures Chosen(actions, rank).Some? ==> Chosen(actions, rank).value in actions
  {
    if actions == [] {
    } else {
      ChosenExists(actions[1..], rank);
      assert actions == [actions[0]] + actions[1..];
    }
  }
}
