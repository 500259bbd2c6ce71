/** The watching sweep, over any kind of plan. The evaluation is injected, as in the store:
    `look` says whether a plan's trigger is found true, `turn` is the plan after it fired. */
module Sweeping {
  import opened Wrappers

  datatype Sweep<P, E> = Sweep(plans: map<string, P>, fired: seq<string>, raised: Option<E>)

  /** A dictionary and its keys in insertion order. */
  ghost predicate Listed<P>(plans: map<string, P>, order: seq<string>) {
    && (forall id :: id in plans <==> id in order)
    && (forall i, j :: 0 <= i < j < |order| ==> order[i] != order[j])
  }

  function SweepOne<P, E>(look: P -> Result<bool, E>, turn: (P, nat) -> P, s: Sweep<P, E>, id: string,
                          k: nat): Sweep<P, E>
    requires id in s.plans
  {
    match look(s.plans[id])
    case Err(e) => s.(raised := Some(e))
    case Ok(hit) => if hit then Sweep(s.plans[id := turn(s.plans[id], k)], s.fired + [id], None) else s
  }

  /** The sweep after its first `k` plans; one that raised stays where it was. */
  function SweepTo<P, E>(look: P -> Result<bool, E>, turn: (P, nat) -> P, plans: map<string, P>, order: seq<string>,
                         k: nat)
    : (s: Sweep<P, E>)
    requires k <= |order| && forall id :: id in order ==> id in plans
    ensures s.plans.Keys == plans.Keys
  {
    if k == 0 then Sweep(plans, [], None)
    else
      var s := SweepTo(look, turn, plans, order, k - 1);
      if s.raised.Some? then s else SweepOne(look, turn, s, order[k - 1], k - 1)
  }

  /** The ids, in order, of the first `k` plans whose trigger is found true. */
  function Hits<P, E>(look: P -> Result<bool, E>, plans: map<string, P>, order: seq<string>, k: nat): seq<string>
    requires k <= |order| && forall id :: id in order ==> id in plans
  {
    if k == 0 then []
    else
      var before := Hits(look, plans, order, k - 1);
      if look(plans[order[k - 1]]) == Ok(true) then before + [order[k - 1]] else before
  }

  function After<P, E>(look: P -> Result<bool, E>, turn: (P, nat) -> P, p: P, k: nat): P {
    if look(p) == Ok(true) then turn(p, k) else p
  }

  /** The first `k` plans of `order`, each after its turn if it hit; the others as they were. */
  ghost predicate TurnsTaken<P, E>(look: P -> Result<bool, E>, turn: (P, nat) -> P,
                                   plans: map<string, P>, order: seq<string>, k: nat, now: map<string, P>)
    requires k <= |order| && (forall id :: id in order ==> id in plans) && now.Keys == plans.Keys
  {
    && (forall i :: 0 <= i < k ==>
         look(plans[order[i]]).Ok? && now[order[i]] == After(look, turn, plans[order[i]], i))
    && (forall i :: k <= i < |order| ==> now[order[i]] == plans[order[i]])
  }

  /** What a sweep has done after `k` plans: every turn so far, or every turn before the first plan
      that could not be looked at, whose exception it raised. */
  ghost predicate Described<P, E>(look: P -> Result<bool, E>, turn: (P, nat) -> P,
                                  plans: map<string, P>, order: seq<string>, k: nat, s: Sweep<P, E>)
    requires k <= |order| && (forall id :: id in order ==> id in plans) && s.plans.Keys == plans.Keys
  {
    match s.raised
    case None => TurnsTaken(look, turn, plans, order, k, s.plans) && s.fired == Hits(look, plans, order, k)
    case Some(e) => exists i :: 0 <= i < k && StoppedAt(look, turn, plans, order, i, s, e)
  }

  ghost predicate StoppedAt<P, E>(look: P -> Result<bool, E>, turn: (P, nat) -> P,
                                  plans: map<string, P>, order: seq<string>, i: nat, s: Sweep<P, E>, e: E)
    requires i < |order| && (forall id :: id in order ==> id in plans) && s.plans.Keys == plans.Keys
  {
    && look(plans[order[i]]) == Err(e)
    && TurnsTaken(look, turn, plans, order, i, s.plans) && s.fired == Hits(look, plans, order, i)
  }

  lemma DescribeOne<P, E>(look: P -> Result<bool, E>, turn: (P, nat) -> P,
                          plans: map<string, P>, order: seq<string>, k: nat, s: Sweep<P, E>)
    requires Listed(plans, order) && k < |order| && s.plans.Keys == plans.Keys && s.raised == None
    requires Described(look, turn, plans, order, k, s)
    ensures Described(look, turn, plans, order, k + 1, SweepOne(look, turn, s, order[k], k))
  {
    var t := SweepOne(look, turn, s, order[k], k);
    assert s.plans[order[k]] == plans[order[k]];
    assert forall i :: 0 <= i < |order| && i != k ==> order[i] != order[k];
    if t.raised.Some? {
      assert StoppedAt(look, turn, plans, order, k, t, t.raised.value);
    }
  }

  lemma DescribeRaised<P, E>(look: P -> Result<bool, E>, turn: (P, nat) -> P,
                             plans: map<string, P>, order: seq<string>, k: nat, s: Sweep<P, E>)
    requires (forall id :: id in order ==> id in plans) && k < |order| && s.plans.Keys == plans.Keys && s.raised.Some?
    requires Described(look, turn, plans, order, k, s)
    ensures Described(look, turn, plans, order, k + 1, s)
  {
    var i :| 0 <= i < k && StoppedAt(look, turn, plans, order, i, s, s.raised.value);
  }

  lemma DescribeNone<P, E>(look: P -> Result<bool, E>, turn: (P, nat) -> P, plans: map<string, P>, order: seq<string>)
    requires Listed(plans, order)
    ensures Described(look, turn, plans, order, 0, SweepTo(look, turn, plans, order, 0))
  {}

  lemma DescribeNext<P, E>(look: P -> Result<bool, E>, turn: (P, nat) -> P, plans: map<string, P>, order: seq<string>,
                           k: nat)
    requires Listed(plans, order) && k < |order|
    requires Described(look, turn, plans, order, k, SweepTo(look, turn, plans, order, k))
    ensures Described(look, turn, plans, order, k + 1, SweepTo(look, turn, plans, order, k + 1))
  {
    var s, t := SweepTo(look, turn, plans, order, k), SweepTo(look, turn, plans, order, k + 1);
    if s.raised == None {
      assert t == SweepOne(look, turn, s, order[k], k);
      DescribeOne(look, turn, plans, order, k, s);
    } else {
      assert t == s;
      DescribeRaised(look, turn, plans, order, k, s);
    }
  }

  /** A sweep that does not raise fires exactly the plans that hit, in order, and touches no other;
      one that raises has stopped at the first plan that cannot be evaluated. */
  lemma SweepFiresHits<P, E>(look: P -> Result<bool, E>, turn: (P, nat) -> P,
                             plans: map<string, P>, order: seq<string>, k: nat)
    requires Listed(plans, order) && k <= |order|
    ensures Described(look, turn, plans, order, k, SweepTo(look, turn, plans, order, k))
  {
    DescribeNone(look, turn, plans, order);
    for i := 0 to k
      invariant Described(look, turn, plans, order, i, SweepTo(look, turn, plans, order, i))
    {
      DescribeNext(look, turn, plans, order, i);
    }
  }

  /** An invariant of single plans that firing keeps is kept by a sweep. */
  lemma {:induction false} SweepKeeps<P(!new), E>(look: P -> Result<bool, E>, turn: (P, nat) -> P, inv: P -> bool,
                               plans: map<string, P>, order: seq<string>, k: nat)
    requires k <= |order| && forall id :: id in order ==> id in plans
    requires forall p: P, i: nat :: inv(p) ==> inv(turn(p, i))
    requires forall id :: id in plans ==> inv(plans[id])
    ensures forall id :: id in plans ==> inv(SweepTo(look, turn, plans, order, k).plans[id])
  {
    if k == 0 {
    } else {
      SweepKeeps(look, turn, inv, plans, order, k - 1);
    }
  }

  lemma {:induction false} RaisedStays<P, E>(look: P -> Result<bool, E>, turn: (P, nat) -> P,
                          plans: map<string, P>, order: seq<string>, k: nat, n: nat)
    requires k <= n <= |order| && forall id :: id in order ==> id in plans
    requires SweepTo(look, turn, plans, order, k).raised.Some?
    ensures SweepTo(look, turn, plans, order, n) == SweepTo(look, turn, plans, order, k)
  {
    if k == n {
    } else {
      RaisedStays(look, turn, plans, order, k, n - 1);
    }
  }

  /** The next turn of a sweep that has not raised. */
  lemma NextTurn<P, E>(look: P -> Result<bool, E>, turn: (P, nat) -> P, plans: map<string, P>, order: seq<string>,
                       k: nat, now: map<string, P>, fired: seq<string>)
    requires k < |order| && forall id :: id in order ==> id in plans
    requires SweepTo(look, turn, plans, order, k) == Sweep(now, fired, None)
    ensures order[k] in now
    ensures match look(now[order[k]])
      case Err(e) => SweepTo(look, turn, plans, order, |order|) == Sweep(now, fired, Some(e))
      case Ok(true) =>
        SweepTo(look, turn, plans, order, k + 1)
        == Sweep(now[order[k] := turn(now[order[k]], k)], fired + [order[k]], None)
      case Ok(false) => SweepTo(look, turn, plans, order, k + 1) == Sweep(now, fired, None)
  {
    assert order[k] in plans;
    if look(now[order[k]]).Err? { RaisedStays(look, turn, plans, order, k + 1, |order|); }
  }

  ghost predicate NothingPending<P, E>(look: P -> Result<bool, E>, plans: map<string, P>) {
    forall id :: id in plans ==> look(plans[id]) == Ok(false)
  }

  /** If firing puts a plan out of the watcher's sight, a completed sweep leaves nothing pending,
      and a second one fires nothing and changes nothing. */
  lemma SecondSweepIdle<P(!new), E>(look: P -> Result<bool, E>, turn: (P, nat) -> P, later: (P, nat) -> P,
                              plans: map<string, P>, order: seq<string>)
    requires Listed(plans, order)
    requires forall p, k :: look(p) == Ok(true) ==> look(turn(p, k)) == Ok(false)
    ensures var s := SweepTo(look, turn, plans, order, |order|);
      s.raised == None ==>
        NothingPending(look, s.plans) && SweepTo(look, later, s.plans, order, |order|) == Sweep(s.plans, [], None)
  {
    var s := SweepTo(look, turn, plans, order, |order|);
    SweepFiresHits(look, turn, plans, order, |order|);
    if s.raised == None {
      forall id | id in s.plans ensures look(s.plans[id]) == Ok(false) {
        var i :| 0 <= i < |order| && order[i] == id;
        var p := plans[order[i]];
        assert look(p).Ok? && s.plans[id] == After(look, turn, p, i);
        if look(p) == Ok(true) {
          assert look(turn(p, i)) == Ok(false);
        } else {
          assert !look(p).value;
        }
      }
      IdleSweep(look, later, s.plans, order, |order|);
    }
  }

  lemma {:induction false} IdleSweep<P, E>(look: P -> Result<bool, E>, turn: (P, nat) -> P,
                                           plans: map<string, P>, order: seq<string>, k: nat)
    requires k <= |order| && (forall id :: id in order ==> id in plans) && NothingPending(look, plans)
    ensures SweepTo(look, turn, plans, order, k) == Sweep(plans, [], None)
  {
    if k == 0 {
    } else {
      IdleSweep(look, turn, plans, order, k - 1);
      assert order[k - 1] in plans;
    }
  }

  // ---- What a sweep leaves, exceptions included.

  ghost predicate NoneTrue<P, E>(look: P -> Result<bool, E>, plans: map<string, P>) {
    forall id :: id in plans ==> look(plans[id]) != Ok(true)
  }

  /** No plan that hits stands after one that cannot be looked at. */
  ghost predicate HitsComeFirst<P, E>(look: P -> Result<bool, E>, plans: map<string, P>, order: seq<string>)
    requires forall id :: id in order ==> id in plans
  {
    forall i, j :: 0 <= i < j < |order| && look(plans[order[i]]).Err? ==> look(plans[order[j]]) != Ok(true)
  }

  lemma NoneTrueByPlace<P, E>(look: P -> Result<bool, E>, plans: map<string, P>, order: seq<string>)
    requires Listed(plans, order)
    ensures NoneTrue(look, plans) <==> forall i :: 0 <= i < |order| ==> look(plans[order[i]]) != Ok(true)
  {
    if forall i :: 0 <= i < |order| ==> look(plans[order[i]]) != Ok(true) {
      forall id | id in plans ensures look(plans[id]) != Ok(true) {
        var i :| 0 <= i < |order| && order[i] == id;
      }
    }
    assert forall i :: 0 <= i < |order| ==> order[i] in plans;
  }

  lemma StoppedLeaves<P, E>(look: P -> Result<bool, E>, turn: (P, nat) -> P, plans: map<string, P>, order: seq<string>,
                            i: nat, s: Sweep<P, E>, e: E)
    requires Listed(plans, order) && i < |order| && s.plans.Keys == plans.Keys
    requires StoppedAt(look, turn, plans, order, i, s, e)
    requires forall p: P, k: nat :: look(p) == Ok(true) ==> look(turn(p, k)) == Ok(false)
    ensures (forall j :: 0 <= j < |order| ==> look(s.plans[order[j]]) != Ok(true)) <==>
            HitsComeFirst(look, plans, order)
  {
    forall j | 0 <= j < i ensures look(s.plans[order[j]]) != Ok(true) {
      assert s.plans[order[j]] == After(look, turn, plans[order[j]], j);
    }
    if forall j :: 0 <= j < |order| ==> look(s.plans[order[j]]) != Ok(true) {
      forall a, b | 0 <= a < b < |order| && look(plans[order[a]]).Err? ensures look(plans[order[b]]) != Ok(true) {
        assert a >= i && s.plans[order[b]] == plans[order[b]];
      }
    }
  }

  /** A sweep leaves no plan true exactly if every plan that hits comes before the first that cannot be
      looked at; and it raises exactly if there is such a plan. */
  lemma SweepLeavesNoneTrue<P(!new), E>(look: P -> Result<bool, E>, turn: (P, nat) -> P,
                                        plans: map<string, P>, order: seq<string>)
    requires Listed(plans, order)
    requires forall p: P, k: nat :: look(p) == Ok(true) ==> look(turn(p, k)) == Ok(false)
    ensures var s := SweepTo(look, turn, plans, order, |order|);
      && (NoneTrue(look, s.plans) <==> HitsComeFirst(look, plans, order))
      && (s.raised == None <==> forall i :: 0 <= i < |order| ==> look(plans[order[i]]).Ok?)
  {
    var s := SweepTo(look, turn, plans, order, |order|);
    SweepFiresHits(look, turn, plans, order, |order|);
    NoneTrueByPlace(look, s.plans, order);
    if s.raised == None {
      forall j | 0 <= j < |order| ensures look(s.plans[order[j]]) != Ok(true) {
        assert s.plans[order[j]] == After(look, turn, plans[order[j]], j);
      }
    } else {
      var i :| 0 <= i < |order| && StoppedAt(look, turn, plans, order, i, s, s.raised.value);
      StoppedLeaves(look, turn, plans, order, i, s, s.raised.value);
    }
  }

  lemma TurnTaken<P, E>(look: P -> Result<bool, E>, turn: (P, nat) -> P, plans: map<string, P>, order: seq<string>,
                        k: nat, now: map<string, P>, i: nat)
    requires k <= |order| && (forall id :: id in order ==> id in plans) && now.Keys == plans.Keys && i < |order|
    requires TurnsTaken(look, turn, plans, order, k, now)
    ensures order[i] in plans
    ensures now[order[i]] == plans[order[i]] || now[order[i]] == turn(plans[order[i]], i)
  {
    assert i < k ==> now[order[i]] == After(look, turn, plans[order[i]], i);
  }

  /** Whatever a sweep did, a plan is as it was or had exactly its own turn. */
  lemma OwnTurn<P, E>(look: P -> Result<bool, E>, turn: (P, nat) -> P, plans: map<string, P>, order: seq<string>,
                      i: nat)
    requires Listed(plans, order) && i < |order|
    ensures var now := SweepTo(look, turn, plans, order, |order|).plans;
      now[order[i]] == plans[order[i]] || now[order[i]] == turn(plans[order[i]], i)
  {
    var s := SweepTo(look, turn, plans, order, |order|);
    SweepFiresHits(look, turn, plans, order, |order|);
    if s.raised.Some? {
      var j: nat :| j < |order| && StoppedAt(look, turn, plans, order, j, s, s.raised.value);
      TurnTaken(look, turn, plans, order, j, s.plans, i);
    } else {
      TurnTaken(look, turn, plans, order, |order|, s.plans, i);
    }
  }
}
