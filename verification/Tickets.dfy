/** Shapes shared by the support graph and the workflow: requests, plans, decisions, the public state. */
module Tickets {
  import opened Wrappers

  datatype ActionKind = LookupOrder | Refund | AccountCredit | CancelOrder | NoAction

  function Name(a: ActionKind): string {
    match a
    case LookupOrder => "lookup_order"
    case Refund => "refund"
    case AccountCredit => "account_credit"
    case CancelOrder => "cancel_order"
    case NoAction => "none"
  }

  /** The action of that name, as a plan is read back. */
  function Named(name: string): Option<ActionKind> {
    if name == "lookup_order" then Some(LookupOrder)
    else if name == "refund" then Some(Refund)
    else if name == "account_credit" then Some(AccountCredit)
    else if name == "cancel_order" then Some(CancelOrder)
    else if name == "none" then Some(NoAction)
    else None
  }

  lemma NamedIsName(a: ActionKind, name: string)
    ensures Named(name) == Some(a) <==> name == Name(a)
  {}

  datatype ActionPlan = ActionPlan(action: ActionKind, rationale: string, amount: Option<real>)

  datatype Decision = Decision(approve: bool, reviewer: string, comment: Option<string>)

  datatype Arguments = Arguments(orderId: Option<string>, customerId: string, amount: Option<real>)

  datatype PendingAction = PendingAction(action: string, arguments: Arguments, reason: string)

  /** What the registry stores for one completed action. */
  datatype Record = Record(idempotencyKey: string, action: string, arguments: Arguments, result: string)

  datatype Status = Running | WaitingApproval | Completed | Rejected

  /** The graph state, as far as control and outcome depend on it. */
  datatype Values = Values(
    ticketId: string, customerId: string, orderId: Option<string>,
    category: Option<string>, plan: Option<ActionPlan>, draft: Option<string>, passed: Option<bool>, reflections: nat,
    status: Option<Status>, finalAnswer: Option<string>, approval: Option<Decision>, actionResult: Option<Record>)

  /** The state the gateway shows. */
  datatype RunState = RunState(
    ticketId: string, status: Status, answer: Option<string>, category: Option<string>,
    pending: Option<PendingAction>, citations: seq<string>, createdAt: Option<int>)
}
