/** The registry that carries out approved actions, once per key in a worker process. */
module ActionRegistry {
  import opened Tickets

  type Registry = map<string, Record>

  /** The idempotency key `ticket:action`. */
  function Key(ticketId: string, action: string): string { ticketId + ":" + action }

  function NewRecord(ticketId: string, action: string, arguments: Arguments): Record {
    Record(Key(ticketId, action), action, arguments, "accepted")
  }

  /** The registry after a call, and the output of the call. */
  function Execute(completed: Registry, ticketId: string, action: string, arguments: Arguments): (r: (Registry, Record))
    ensures Key(ticketId, action) in r.0 && r.1 == r.0[Key(ticketId, action)]
  {
    var key := Key(ticketId, action);
    if key in completed then (completed, completed[key])
    else (completed[key := NewRecord(ticketId, action, arguments)], NewRecord(ticketId, action, arguments))
  }

  class ToolRegistry {
    var completedActions: Registry

    constructor ()
      ensures completedActions == map[]
    {
      completedActions := map[];
    }

    /** No await stands between the check and the write, so a call is one step. */
    method ExecuteAction(ticketId: string, action: string, arguments: Arguments) returns (output: Record)
      modifies this
      ensures (completedActions, output) == Execute(old(completedActions), ticketId, action, arguments)
      ensures old(completedActions).Keys <= completedActions.Keys
      ensures forall k :: k in old(completedActions) ==> completedActions[k] == old(completedActions)[k]
      ensures var key := ticketId + ":" + action;
        && completedActions.Keys == old(completedActions).Keys + {key} && output == completedActions[key]
        && (key !in old(completedActions) ==> output == Record(key, action, arguments, "accepted"))
    {
      var key := Key(ticketId, action);
      if key !in completedActions {
        completedActions := completedActions[key := NewRecord(ticketId, action, arguments)];
      }
      output := completedActions[key];
    }
  }

  datatype Call = Call(ticketId: string, action: string, arguments: Arguments)

  /** The registry after a sequence of calls. */
  function After(completed: Registry, calls: seq<Call>): Registry {
    if calls == [] then completed
    else
      var last := calls[|calls| - 1];
      Execute(After(completed, calls[..|calls| - 1]), last.ticketId, last.action, last.arguments).0
  }

  lemma {:induction false} AfterKeeps(completed: Registry, calls: seq<Call>, key: string)
    requires key in completed
    ensures key in After(completed, calls) && After(completed, calls)[key] == completed[key]
  {
    if calls == [] {
    } else {
      AfterKeeps(completed, calls[..|calls| - 1], key);
    }
  }

  /** Whatever calls come between, a later call for the same key returns what the first one recorded,
      whatever its own arguments, and changes nothing. */
  lemma RepeatsReturnTheFirst(completed: Registry, calls: seq<Call>, ticketId: string, action: string,
                              a: Arguments, b: Arguments)
    ensures var (registry, output) := Execute(completed, ticketId, action, a);
      var later := After(registry, calls);
      Execute(later, ticketId, action, b) == (later, output)
  {
    AfterKeeps(Execute(completed, ticketId, action, a).0, calls, Key(ticketId, action));
  }

  /** The last colon of a key ends the ticket id. */
  lemma LastColon(t: string, a: string)
    requires ':' !in a
    ensures Key(t, a)[|t|] == ':' && forall i :: |t| < i < |Key(t, a)| ==> Key(t, a)[i] != ':'
  {}

  /** Keys never collide, whatever the ticket ids, because no action name holds a colon. */
  lemma KeyInjective(t: string, a: string, u: string, b: string)
    requires ':' !in a && ':' !in b && Key(t, a) == Key(u, b)
    ensures t == u && a == b
  {
    LastColon(t, a);
    LastColon(u, b);
    var k := Key(t, a);
    assert t == k[..|t|] && u == k[..|u|] && a == k[|t| + 1..] && b == k[|u| + 1..];
  }

  lemma NamesHaveNoColon(a: ActionKind)
    ensures ':' !in Name(a)
  {}
}
