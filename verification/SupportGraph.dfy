/** The support graph: nodes, routers, the reflection loop and the approval gate. */
module SupportGraph {
  import opened Wrappers
  import opened Tickets
  import opened TicketMapping

  datatype Settings = Settings(requireApprovalFor: set<string>, maxReflectionLoops: nat)

  datatype Node =
    | Sanitize | Classify | Retrieve | MakePlan | ExecuteReadTools | Draft | Reflect | Approval | ApplyAction | End

  /** Whatever the models and stores may answer; each node reads its own part. */
  datatype Answer = Answer(category: string, plan: ActionPlan, draft: string, passed: bool)

  /** The update of a node that neither pauses nor acts. */
  function Updated(node: Node, v: Values, a: Answer): Values {
    match node
    case Sanitize => v.(reflections := 0)
    case Classify => v.(category := Some(a.category))
    case MakePlan => v.(plan := Some(a.plan))
    case Draft => v.(draft := Some(a.draft))
    case Reflect => v.(passed := Some(a.passed), reflections := v.reflections + 1)
    case _ => v
  }

  /** Edges and the router after reflection. */
  function Next(settings: Settings, node: Node, v: Values): Node {
    match node
    case Sanitize => Classify
    case Classify => Retrieve
    case Retrieve => MakePlan
    case MakePlan => ExecuteReadTools
    case ExecuteReadTools => Draft
    case Draft => Reflect
    case Reflect => if v.passed == Some(false) && v.reflections <= settings.maxReflectionLoops then Draft else Approval
    case Approval => if v.approval.Some? && v.approval.value.approve then ApplyAction else End
    case ApplyAction => End
    case End => End
  }

  function ActionArguments(v: Values): Arguments
    requires v.plan.Some?
  {
    Arguments(v.orderId, v.customerId, v.plan.value.amount)
  }

  /** What the reviewer is shown. */
  function Shown(v: Values): PendingAction
    requires v.plan.Some?
  {
    PendingAction(Name(v.plan.value.action), ActionArguments(v), v.plan.value.rationale)
  }

  predicate NeedsApproval(settings: Settings, v: Values)
    requires v.plan.Some?
  {
    Name(v.plan.value.action) in settings.requireApprovalFor
  }

  /** `review.get("comment") or "No reason supplied"` */
  function Reason(d: Decision): string {
    if d.comment.Some? && d.comment.value != "" then d.comment.value else "No reason supplied"
  }

  function RejectionText(v: Values, d: Decision): string
    requires v.plan.Some?
  {
    "The proposed " + Name(v.plan.value.action) + " was not approved: " + Reason(d)
  }

  datatype Gate = Interrupt(pending: PendingAction) | Update(values: Values)

  /** The approval node, run from its start each time; `review` is there once the run was resumed. */
  function ApprovalNode(settings: Settings, v: Values, review: Option<Decision>): Gate
    requires v.plan.Some? && v.draft.Some?
  {
    if !NeedsApproval(settings, v) then Update(v.(status := Some(Completed), finalAnswer := v.draft))
    else
      match review
      case None => Interrupt(Shown(v))
      case Some(d) =>
        if !d.approve then
          Update(v.(approval := review, status := Some(Rejected), finalAnswer := Some(RejectionText(v, d))))
        else Update(v.(approval := review))
  }

  /** `apply_action` after the registry answered. */
  function Applied(v: Values, output: Record): Values
    requires v.draft.Some?
  {
    v.(actionResult := Some(output), status := Some(Completed), finalAnswer := Some(APPROVED + v.draft.value))
  }

  // ---- Termination and time budgets, for every oracle.

  function Rank(node: Node): nat {
    match node
    case Sanitize => 9 case Classify => 8 case Retrieve => 7 case MakePlan => 6 case ExecuteReadTools => 5
    case Draft => 4 case Reflect => 3 case Approval => 2 case ApplyAction => 1 case End => 0
  }

  /** Reflections still possible. */
  function Left(settings: Settings, v: Values): nat {
    if v.reflections <= settings.maxReflectionLoops then settings.maxReflectionLoops + 1 - v.reflections else 0
  }

  /** The nodes run up to the gate; `answers(k)` is the k-th answer. That this recursion is accepted
      is the proof that the graph terminates whatever the models say. */
  function ToGate(settings: Settings, node: Node, v: Values, answers: nat -> Answer, k: nat): seq<Node>
    requires node != Sanitize && Rank(node) >= Rank(Approval)
    decreases Left(settings, v), Rank(node)
  {
    if node == Approval then []
    else
      var w := Updated(node, v, answers(k));
      [node] + ToGate(settings, Next(settings, node, w), w, answers, k + 1)
  }

  /** All nodes of a run in which the side effect is applied. */
  function FullRun(settings: Settings, v: Values, answers: nat -> Answer): seq<Node> {
    [Sanitize] + ToGate(settings, Classify, Updated(Sanitize, v, answers(0)), answers, 1) + [Approval, ApplyAction]
  }

  function Count(nodes: seq<Node>, n: Node): nat {
    if nodes == [] then 0 else (if nodes[0] == n then 1 else 0) + Count(nodes[1..], n)
  }

  lemma {:induction false} CountAppend(a: seq<Node>, b: seq<Node>, n: Node)
    ensures Count(a + b, n) == Count(a, n) + Count(b, n)
  {
    if a == [] {
      assert a + b == b;
    } else {
      assert (a + b)[1..] == a[1..] + b && (a + b)[0] == a[0];
      CountAppend(a[1..], b, n);
    }
  }

  const MAX_ATTEMPTS := 3

  /** start_to_close_timeout in seconds; workflow nodes are not timed. */
  function StartToClose(n: Node): nat {
    match n
    case Classify => 120 case MakePlan => 120 case Draft => 120 case Reflect => 120
    case Retrieve => 30 case ExecuteReadTools => 30
    case ApplyAction => 60
    case _ => 0
  }

  function Budget(nodes: seq<Node>): nat {
    if nodes == [] then 0 else MAX_ATTEMPTS * StartToClose(nodes[0]) + Budget(nodes[1..])
  }

  lemma {:induction false} BudgetAppend(a: seq<Node>, b: seq<Node>)
    ensures Budget(a + b) == Budget(a) + Budget(b)
  {
    if a == [] {
      assert a + b == b;
    } else {
      assert (a + b)[1..] == a[1..] + b && (a + b)[0] == a[0];
      BudgetAppend(a[1..], b);
    }
  }

  /** Whether the `j`-th critique passes, in a run that drafts first on answer `k`: a round takes two answers. */
  predicate PassedAt(answers: nat -> Answer, k: nat, j: nat) {
    j >= 1 && answers(k + 2 * j - 1).passed
  }

  /** The rounds from answer `k` on end with the first critique that passes, or with the `most`-th. */
  ghost predicate EndsAtFirstPass(answers: nat -> Answer, k: nat, n: nat, most: nat) {
    && 1 <= n <= most && (forall j: nat :: 1 <= j < n ==> !PassedAt(answers, k, j))
    && (n < most ==> PassedAt(answers, k, n))
  }

  lemma NextRoundEnds(answers: nat -> Answer, k: nat, n: nat, most: nat)
    requires EndsAtFirstPass(answers, k + 2, n, most) && !PassedAt(answers, k, 1)
    ensures EndsAtFirstPass(answers, k, n + 1, most + 1)
  {
    forall j: nat | 1 <= j < n + 1 ensures !PassedAt(answers, k, j) {
      if j > 1 {
        assert !PassedAt(answers, k + 2, j - 1);
        assert k + 2 * j - 1 == (k + 2) + 2 * (j - 1) - 1;
      }
    }
    if n < most { assert k + 2 * (n + 1) - 1 == (k + 2) + 2 * n - 1; }
  }

  /** A draft and its critique, and what comes after them. */
  lemma OneRound(settings: Settings, v: Values, answers: nat -> Answer, k: nat) returns (r: Values, rest: seq<Node>)
    ensures r.reflections == v.reflections + 1 && r.passed == Some(PassedAt(answers, k, 1))
    ensures rest == (if Next(settings, Reflect, r) == Draft then ToGate(settings, Draft, r, answers, k + 2) else [])
    ensures ToGate(settings, Draft, v, answers, k) == [Draft, Reflect] + rest
  {
    var d := Updated(Draft, v, answers(k));
    r := Updated(Reflect, d, answers(k + 1));
    rest := ToGate(settings, Next(settings, Reflect, r), r, answers, k + 2);
    assert ToGate(settings, Reflect, d, answers, k + 1) == [Reflect] + rest;
    assert [Draft] + ([Reflect] + rest) == [Draft, Reflect] + rest;
  }

  lemma RoundCounts(rest: seq<Node>)
    ensures var nodes := [Draft, Reflect] + rest;
      && Count(nodes, Draft) == 1 + Count(rest, Draft) && Count(nodes, Reflect) == 1 + Count(rest, Reflect)
      && Budget(nodes) == 720 + Budget(rest)
  {
    var nodes := [Draft, Reflect] + rest;
    assert nodes[1..] == [Reflect] + rest && nodes[1..][1..] == rest;
  }

  /** From the first draft on: so many rounds of draft and reflect, then the gate. */
  lemma {:induction false} Rounds(settings: Settings, v: Values, answers: nat -> Answer, k: nat)
    requires v.reflections <= settings.maxReflectionLoops
    ensures var nodes := ToGate(settings, Draft, v, answers, k);
      && Count(nodes, Draft) == Count(nodes, Reflect) && Budget(nodes) == 720 * Count(nodes, Draft)
      && EndsAtFirstPass(answers, k, Count(nodes, Draft), Left(settings, v))
    decreases Left(settings, v)
  {
    var r, rest := OneRound(settings, v, answers, k);
    RoundCounts(rest);
    if Next(settings, Reflect, r) == Draft {
      Rounds(settings, r, answers, k + 2);
      NextRoundEnds(answers, k, Count(rest, Draft), Left(settings, r));
    }
  }

  lemma ToDraft(settings: Settings, v: Values, answers: nat -> Answer)
    ensures var v4 := Updated(MakePlan, Updated(Classify, v, answers(1)), answers(3));
      ToGate(settings, Classify, v, answers, 1)
      == [Classify, Retrieve, MakePlan, ExecuteReadTools] + ToGate(settings, Draft, v4, answers, 5)
  {
    var v2 := Updated(Classify, v, answers(1));
    var v4 := Updated(MakePlan, v2, answers(3));
    assert ToGate(settings, MakePlan, v2, answers, 3)
        == [MakePlan] + ([ExecuteReadTools] + ToGate(settings, Draft, v4, answers, 5));
    assert ToGate(settings, Retrieve, v2, answers, 2) == [Retrieve] + ToGate(settings, MakePlan, v2, answers, 3);
    assert ToGate(settings, Classify, v, answers, 1) == [Classify] + ToGate(settings, Retrieve, v2, answers, 2);
  }

  lemma Prefix(tail: seq<Node>)
    ensures var nodes := [Sanitize, Classify, Retrieve, MakePlan, ExecuteReadTools] + tail;
      Count(nodes, Draft) == Count(tail, Draft) && Count(nodes, Reflect) == Count(tail, Reflect)
      && Budget(nodes) == 900 + Budget(tail)
  {
    var head := [Sanitize, Classify, Retrieve, MakePlan, ExecuteReadTools];
    CountAppend(head, tail, Draft);
    CountAppend(head, tail, Reflect);
    BudgetAppend(head, tail);
    assert head[1..] == [Classify, Retrieve, MakePlan, ExecuteReadTools];
    assert head[1..][1..] == [Retrieve, MakePlan, ExecuteReadTools];
    assert head[1..][1..][1..] == [MakePlan, ExecuteReadTools] && head[1..][1..][1..][1..] == [ExecuteReadTools];
  }

  lemma Suffix(rounds: seq<Node>)
    ensures var tail := rounds + [Approval, ApplyAction];
      Count(tail, Draft) == Count(rounds, Draft) && Count(tail, Reflect) == Count(rounds, Reflect)
      && Budget(tail) == Budget(rounds) + 180
  {
    var end := [Approval, ApplyAction];
    assert end[1..] == [ApplyAction] && end[1..][1..] == [];
    BudgetAppend(rounds, end);
    CountAppend(rounds, end, Draft);
    CountAppend(rounds, end, Reflect);
  }

  lemma Around(rounds: seq<Node>)
    ensures var head := [Sanitize, Classify, Retrieve, MakePlan, ExecuteReadTools];
      var nodes := head + (rounds + [Approval, ApplyAction]);
      Count(nodes, Draft) == Count(rounds, Draft) && Count(nodes, Reflect) == Count(rounds, Reflect)
      && Budget(nodes) == 1080 + Budget(rounds)
  {
    Prefix(rounds + [Approval, ApplyAction]);
    Suffix(rounds);
  }

  /** A full run is five nodes, the rounds, the gate and the action. */
  lemma FullRunParts(settings: Settings, v: Values, answers: nat -> Answer) returns (w: Values, rounds: seq<Node>)
    ensures w.reflections == 0 && rounds == ToGate(settings, Draft, w, answers, 5)
    ensures FullRun(settings, v, answers)
         == [Sanitize, Classify, Retrieve, MakePlan, ExecuteReadTools] + (rounds + [Approval, ApplyAction])
  {
    var v1 := Updated(Sanitize, v, answers(0));
    var v4 := Updated(MakePlan, Updated(Classify, v1, answers(1)), answers(3));
    ToDraft(settings, v1, answers);
    w, rounds := v4, ToGate(settings, Draft, v4, answers, 5);
  }

  /** Draft and reflect run equally often: up to the first critique that passes, but at most L + 1 times. A run that
      uses up every attempt of every node it visits takes 1080 + 720 n seconds for its n rounds. */
  lemma FullRunBounds(settings: Settings, v: Values, answers: nat -> Answer)
    ensures var nodes := FullRun(settings, v, answers);
      var n := Count(nodes, Draft);
      && n == Count(nodes, Reflect) && 1 <= n <= settings.maxReflectionLoops + 1
      && EndsAtFirstPass(answers, 5, n, settings.maxReflectionLoops + 1)
      && Budget(nodes) == 1080 + 720 * n <= 1800 + 720 * settings.maxReflectionLoops
      && ((forall i :: !answers(i).passed) ==> n == settings.maxReflectionLoops + 1)
  {
    var w, rounds := FullRunParts(settings, v, answers);
    Rounds(settings, w, answers, 5);
    Around(rounds);
    assert (forall i :: !answers(i).passed) ==> !PassedAt(answers, 5, Count(rounds, Draft));
  }

  /** The gateway's execution timeout in seconds, 0 for none: the approval window plus an hour. */
  function ExecutionTimeout(approvalTimeoutHours: int): int {
    if approvalTimeoutHours == 0 then 0 else approvalTimeoutHours * 3600 + 3600
  }

  /** The extra hour covers the agent's own work, attempts exhausted, exactly for up to two reflection loops. */
  lemma HeadroomFits(settings: Settings, v: Values, hours: int)
    requires hours != 0
    ensures (forall answers: nat -> Answer ::
              hours * 3600 + Budget(FullRun(settings, v, answers)) <= ExecutionTimeout(hours))
            <==> settings.maxReflectionLoops <= 2
  {
    if settings.maxReflectionLoops <= 2 {
      forall answers: nat -> Answer
        ensures hours * 3600 + Budget(FullRun(settings, v, answers)) <= ExecutionTimeout(hours)
      {
        FullRunBounds(settings, v, answers);
      }
    } else {
      var never := (k: nat) => Answer("", ActionPlan(NoAction, "", None), "", false);
      FullRunBounds(settings, v, never);
      assert hours * 3600 + Budget(FullRun(settings, v, never)) > ExecutionTimeout(hours);
    }
  }
}
