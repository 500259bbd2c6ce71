/** Revaluing the book at a Brent level, and evaluating plan triggers against the result.
    Floats are modelled by reals; a Python exception is an Err. */
module ShockEngine {
  import opened Wrappers
  import opened MoveBook

  datatype Error = ZeroDivision | KeyError(key: string) | AssertionError

  datatype Facility = Facility(clientId: string, drawn: real, lendingValue: real, c: real, triggerLtv: real)

  datatype Facts = Facts(brentNow: real, facilities: map<string, Facility>,
                         households: map<string, real>, positions: seq<Position>)

  datatype FacilityState = FacilityState(clientId: string, drawn: real, lendingValue: real, ltv: real,
                                         triggerLtv: real, breached: bool, headroom: real, cureCash: real)

  datatype ClientState = ClientState(deltaUsd: real, moves: seq<Move>, householdUsd: real, deltaPct: real)

  datatype Market = Market(brent: real, mult: real, facilities: map<string, FacilityState>,
                           clients: map<string, ClientState>)

  // ---- Facilities.

  function LendingAt(f: Facility, m: real): real { f.lendingValue + f.c * m }

  function FacilityAt(f: Facility, m: real): FacilityState
    requires LendingAt(f, m) != 0.0
  {
    var lv := LendingAt(f, m);
    var ltv := 100.0 * f.drawn / lv;
    var short := f.drawn - 0.01 * f.triggerLtv * lv;
    FacilityState(f.clientId, f.drawn, lv, ltv, f.triggerLtv, ltv >= f.triggerLtv,
                  0.01 * f.triggerLtv * lv - f.drawn, if short > 0.0 then short else 0.0)
  }

  lemma RatioAgainstLevel(num: real, den: real, level: real)
    requires den > 0.0
    ensures num / den >= level <==> num >= level * den
    ensures num / den > level <==> num > level * den
  {}

  lemma NegativeRatio(num: real, den: real)
    requires num > 0.0 && den < 0.0
    ensures num / den < 0.0
  {}

  /** `breached` and the sign of the headroom agree exactly while the lending value is positive:
      below zero the headroom is always short and the flag never set. */
  lemma BreachedExactlyWhenShort(f: Facility, m: real)
    requires f.drawn > 0.0 && f.triggerLtv > 0.0 && LendingAt(f, m) != 0.0
    ensures var s := FacilityAt(f, m); s.breached <==> s.headroom <= 0.0 && s.lendingValue > 0.0
    ensures LendingAt(f, m) < 0.0 ==> FacilityAt(f, m).headroom < 0.0
  {}

  /** Paying exactly the cure lands on the trigger, where the facility still reads as breached. */
  lemma CureLandsOnTrigger(f: Facility, m: real)
    requires f.triggerLtv > 0.0 && LendingAt(f, m) > 0.0 && FacilityAt(f, m).breached
    ensures var cured := FacilityAt(f.(drawn := f.drawn - FacilityAt(f, m).cureCash), m);
      cured.ltv == f.triggerLtv && cured.headroom == 0.0 && cured.breached
  {}

  /** Adding the headroom to the loan lands on the trigger, and a further loan breaches exactly from there on. */
  lemma HeadroomIsRoom(f: Facility, m: real, more: real)
    requires f.triggerLtv > 0.0 && LendingAt(f, m) > 0.0
    ensures var room := FacilityAt(f, m).headroom;
      && FacilityAt(f.(drawn := f.drawn + room), m).ltv == f.triggerLtv
      && (FacilityAt(f.(drawn := f.drawn + more), m).breached <==> more >= room)
  {
    RoomInLoan(f.drawn, f.triggerLtv, LendingAt(f, m), FacilityAt(f, m).headroom, more);
  }

  lemma RoomInLoan(drawn: real, trigger: real, lv: real, room: real, more: real)
    requires lv > 0.0 && room == 0.01 * trigger * lv - drawn
    ensures 100.0 * (drawn + room) / lv == trigger
    ensures 100.0 * (drawn + more) / lv >= trigger <==> more >= room
  {
    var limit := trigger * lv;
    assert 100.0 * (drawn + room) == limit;
    RatioAgainstLevel(100.0 * (drawn + more), lv, trigger);
  }

  /** The cure is the least repayment after which the LTV is no longer above the trigger: nothing for a facility
      that is not breached, and otherwise exactly what is missing. */
  lemma CureIsLeast(f: Facility, m: real, paid: real)
    requires f.triggerLtv > 0.0 && LendingAt(f, m) > 0.0 && paid >= 0.0
    ensures var s := FacilityAt(f, m);
      && s.cureCash >= 0.0 && (!s.breached ==> s.cureCash == 0.0)
      && (FacilityAt(f.(drawn := f.drawn - paid), m).ltv <= f.triggerLtv <==> paid >= s.cureCash)
  {
    var lv, left := LendingAt(f, m), f.drawn - paid;
    RatioAgainstLevel(100.0 * f.drawn, lv, f.triggerLtv);
    RatioAgainstLevel(100.0 * left, lv, f.triggerLtv);
    assert FacilityAt(f.(drawn := left), m).ltv == 100.0 * left / lv;
  }

  // ---- Clients.

  function Statement(delta: real, moves: seq<Move>, wealth: real): ClientState
    requires wealth != 0.0
  {
    ClientState(delta, moves, wealth, 100.0 * delta / wealth)
  }

  function ClientFrom(own: seq<Move>, wealth: real): ClientState
    requires wealth != 0.0
  {
    Statement(Total(own), SortMoves(own), wealth)
  }

  /** The exception raised while finishing the first clients of `order`, if any. */
  function ClientFailure(facts: Facts, order: seq<string>): Option<Error> {
    if order == [] then None
    else
      var cid := order[|order| - 1];
      match ClientFailure(facts, order[..|order| - 1])
      case Some(e) => Some(e)
      case None => Unfinishable(facts, cid)
  }

  /** What looking up a client's wealth and dividing by it raises. */
  function Unfinishable(facts: Facts, cid: string): Option<Error> {
    if cid !in facts.households then Some(KeyError(cid))
    else if facts.households[cid] == 0.0 then Some(ZeroDivision) else None
  }

  lemma {:induction false} NoFailure(facts: Facts, order: seq<string>)
    ensures ClientFailure(facts, order) == None <==>
            forall cid :: cid in order ==> cid in facts.households && facts.households[cid] != 0.0
  {
    if order == [] {
    } else {
      NoFailure(facts, order[..|order| - 1]);
      assert order == order[..|order| - 1] + [order[|order| - 1]];
    }
  }

  // ---- The whole shock.

  predicate FacilitiesPriced(facts: Facts, m: real) {
    forall fid :: fid in facts.facilities ==> LendingAt(facts.facilities[fid], m) != 0.0
  }

  function FacilitiesAt(facts: Facts, m: real): map<string, FacilityState>
    requires FacilitiesPriced(facts, m)
  {
    map fid | fid in facts.facilities :: FacilityAt(facts.facilities[fid], m)
  }

  function ClientsAt(facts: Facts, book: seq<Move>): map<string, ClientState>
    requires ClientFailure(facts, Seen(book)) == None
  {
    NoFailure(facts, Seen(book));
    map cid | cid in Seen(book) :: ClientFrom(OwnMoves(book, cid), facts.households[cid])
  }

  function ShockAt(facts: Facts, level: real): Result<Market, Error> {
    if facts.brentNow == 0.0 then Err(ZeroDivision)
    else
      var m := level / facts.brentNow - 1.0;
      if !FacilitiesPriced(facts, m) then Err(ZeroDivision)
      else
        var book := BookMoves(facts.positions, m);
        match ClientFailure(facts, Seen(book))
        case Some(e) => Err(e)
        case None => Ok(Market(level, m, FacilitiesAt(facts, m), ClientsAt(facts, book)))
  }

  /** What a market shows of a client is drawn from that client's own moves. */
  lemma ShockedClient(facts: Facts, level: real, market: Market, cid: string)
    requires ShockAt(facts, level) == Ok(market) && cid in market.clients
    ensures cid in facts.households && facts.households[cid] != 0.0
    ensures market.clients[cid] ==
      ClientFrom(OwnMoves(BookMoves(facts.positions, market.mult), cid), facts.households[cid])
  {
    NoFailure(facts, Seen(BookMoves(facts.positions, market.mult)));
  }

  /** The loop over `facts["facilities"]`. */
  method RevalueFacilities(facts: Facts, m: real) returns (r: Option<map<string, FacilityState>>)
    ensures r.Some? <==> FacilitiesPriced(facts, m)
    ensures r.Some? ==> r.value == FacilitiesAt(facts, m)
  {
    var facilities: map<string, FacilityState> := map[];
    var todo := facts.facilities.Keys;
    while todo != {}
      invariant todo <= facts.facilities.Keys
      invariant facilities.Keys == facts.facilities.Keys - todo
      invariant forall fid :: fid in facilities ==>
        LendingAt(facts.facilities[fid], m) != 0.0 && facilities[fid] == FacilityAt(facts.facilities[fid], m)
      decreases todo
    {
      var fid :| fid in todo;
      if LendingAt(facts.facilities[fid], m) == 0.0 { return None; }
      facilities := facilities[fid := FacilityAt(facts.facilities[fid], m)];
      todo := todo - {fid};
    }
    return Some(facilities);
  }

  /** Wealth, percentage and the sort for one client. */
  method FinishClient(facts: Facts, book: seq<Move>, cid: string, c: Running) returns (r: Result<ClientState, Error>)
    requires c == Running(Total(OwnMoves(book, cid)), OwnMoves(book, cid))
    ensures r.Ok? ==> FinishedAs(facts, book, cid, r.value)
    ensures r.Err? ==> Unfinishable(facts, cid) == Some(r.error)
    ensures r.Ok? <==> Unfinishable(facts, cid) == None
  {
    if cid !in facts.households { return Err(KeyError(cid)); }
    var wealth := facts.households[cid];
    if wealth == 0.0 { return Err(ZeroDivision); }
    return Ok(Statement(c.delta, SortMoves(c.moves), wealth));
  }

  predicate FinishedAs(facts: Facts, book: seq<Move>, cid: string, s: ClientState) {
    && cid in facts.households && facts.households[cid] != 0.0
    && s == ClientFrom(OwnMoves(book, cid), facts.households[cid])
  }

  /** The last loop, client by client. */
  method FinishClients(facts: Facts, book: seq<Move>, order: seq<string>, running: map<string, Running>)
    returns (r: Result<map<string, ClientState>, Error>)
    requires Grouped(book, order, running)
    ensures match ClientFailure(facts, order)
      case Some(e) => r == Err(e)
      case None => r.Ok? && Finished(facts, book, order, r.value)
  {
    var clients: map<string, ClientState> := map[];
    ghost var done: seq<string> := [];
    for i := 0 to |order|
      invariant done == order[..i] && ClientFailure(facts, done) == None
      invariant Finished(facts, book, done, clients)
    {
      var cid := order[i];
      assert cid in running && Shares(book, running, cid);
      var c := FinishClient(facts, book, cid, running[cid]);
      FailureNext(facts, done, cid);
      if c.Err? {
        FailureStays(facts, done + [cid], order);
        return Err(c.error);
      }
      FinishOne(facts, book, done, clients, cid, c.value);
      clients, done := clients[cid := c.value], done + [cid];
    }
    assert done == order;
    return Ok(clients);
  }

  lemma FinishOne(facts: Facts, book: seq<Move>, order: seq<string>, clients: map<string, ClientState>,
                  cid: string, s: ClientState)
    requires Finished(facts, book, order, clients) && FinishedAs(facts, book, cid, s)
    ensures Finished(facts, book, order + [cid], clients[cid := s])
  {}

  ghost predicate Finished(facts: Facts, book: seq<Move>, order: seq<string>, clients: map<string, ClientState>) {
    && (forall cid :: cid in clients <==> cid in order)
    && (forall cid :: cid in clients ==> FinishedAs(facts, book, cid, clients[cid]))
  }

  /** Clients finished without failure are the clients of the specification. */
  lemma FinishedAll(facts: Facts, book: seq<Move>, clients: map<string, ClientState>)
    requires ClientFailure(facts, Seen(book)) == None && Finished(facts, book, Seen(book), clients)
    ensures clients == ClientsAt(facts, book)
  {}

  /** The second half of `shock`: the positions, grouped and finished. */
  method ShockClients(facts: Facts, m: real) returns (r: Result<map<string, ClientState>, Error>)
    ensures var book := BookMoves(facts.positions, m);
      match ClientFailure(facts, Seen(book))
      case Some(e) => r == Err(e)
      case None => r.Ok? && Finished(facts, book, Seen(book), r.value)
  {
    var book := BookMoves(facts.positions, m);
    var order, running := GroupMoves(book);
    r := FinishClients(facts, book, order, running);
  }

  method Shock(facts: Facts, level: real) returns (r: Result<Market, Error>)
    ensures r == ShockAt(facts, level)
    ensures r.Ok? ==> r.value.brent == level && Shows(facts, r.value)
  {
    if facts.brentNow == 0.0 { return Err(ZeroDivision); }
    var m := level / facts.brentNow - 1.0;
    var facilities := RevalueFacilities(facts, m);
    if facilities == None { return Err(ZeroDivision); }
    var clients := ShockClients(facts, m);
    if clients.Err? { return Err(clients.error); }
    FinishedAll(facts, BookMoves(facts.positions, m), clients.value);
    ShockShows(facts, level, Market(level, m, facilities.value, clients.value));
    return Ok(Market(level, m, facilities.value, clients.value));
  }

  lemma FailureNext(facts: Facts, done: seq<string>, cid: string)
    requires ClientFailure(facts, done) == None
    ensures ClientFailure(facts, done + [cid]) == Unfinishable(facts, cid)
  {}

  /** The first failure is the one that shows. */
  lemma {:induction false} FailureStays(facts: Facts, done: seq<string>, order: seq<string>)
    requires done <= order && ClientFailure(facts, done).Some?
    ensures ClientFailure(facts, order) == ClientFailure(facts, done)
  {
    if done == order {
    } else {
      FailureStays(facts, done, order[..|order| - 1]);
    }
  }

  /** What a shocked client shows: `own` are its moves in book order. */
  lemma ClientStatement(own: seq<Move>, wealth: real, d: real)
    requires wealth != 0.0
    ensures var shown := ClientFrom(own, wealth);
      && Ascending(shown.moves) && multiset(shown.moves) == multiset(own)
      && WithDelta(shown.moves, d) == WithDelta(own, d)
      && shown.deltaUsd == Total(shown.moves)
  {
    SortMovesIsStableSort(own, d);
  }

  /** The client of the position cannot be finished, and that of no position before it. */
  ghost predicate FailsFirst(facts: Facts, ps: seq<Position>, i: nat, e: Error) {
    && i < |ps| && Unfinishable(facts, ps[i].clientId) == Some(e)
    && forall j :: 0 <= j < i ==> Unfinishable(facts, ps[j].clientId) == None
  }

  lemma SomeFailsFirst(facts: Facts, book: seq<Move>, ps: seq<Position>) returns (i: nat)
    requires PositionsOf(book) == ps && ClientFailure(facts, Seen(book)).Some?
    ensures FailsFirst(facts, ps, i, ClientFailure(facts, Seen(book)).value)
  {
    var init, n := book[..|book| - 1], |book| - 1;
    assert PositionsOf(init) == ps[..n];
    SeenIs(init);
    NoFailure(facts, Seen(init));
    if ClientFailure(facts, Seen(init)).Some? {
      FailureStays(facts, Seen(init), Seen(book));
      i := SomeFailsFirst(facts, init, ps[..n]);
    } else {
      FailureNext(facts, Seen(init), book[n].position.clientId);
      i := n;
      forall j | 0 <= j < n ensures Unfinishable(facts, ps[j].clientId) == None {
        assert init[j].position == ps[j];
      }
    }
  }

  /** What a shock raises: a division by zero for today's price or a lending value; else the exception of the first
      position in the book whose client is unknown or without wealth. */
  lemma ShockRaises(facts: Facts, level: real)
    ensures ShockAt(facts, level).Err? ==>
      var e := ShockAt(facts, level).error;
      if facts.brentNow == 0.0 || !FacilitiesPriced(facts, level / facts.brentNow - 1.0) then e == ZeroDivision
      else
        exists i: nat :: FailsFirst(facts, facts.positions, i, e)
          && e == if facts.positions[i].clientId in facts.households then ZeroDivision
                  else KeyError(facts.positions[i].clientId)
  {
    if ShockAt(facts, level).Err? && facts.brentNow != 0.0
       && FacilitiesPriced(facts, level / facts.brentNow - 1.0) {
      var book := BookMoves(facts.positions, level / facts.brentNow - 1.0);
      BookMoved(facts.positions, level / facts.brentNow - 1.0);
      assert PositionsOf(book) == facts.positions;
      var i := SomeFailsFirst(facts, book, facts.positions);
    }
  }

  // ---- What a shocked market shows, in terms of the facts alone.

  /** Every figure of a client: its positions, each moved by value times beta times the relative move of Brent,
      and their sum. */
  ghost predicate ShowsClient(facts: Facts, cid: string, shown: ClientState, m: real) {
    && multiset(PositionsOf(shown.moves)) == multiset(OwnPositions(facts.positions, cid))
    && (forall i :: 0 <= i < |shown.moves| ==> Moved(shown.moves[i], m))
    && Ascending(shown.moves) && shown.deltaUsd == Times(Exposure(facts.positions, cid), m)
    && cid in facts.households && shown.householdUsd == facts.households[cid]
    && IsPercent(shown.deltaPct, shown.deltaUsd, shown.householdUsd)
  }

  lemma StatementFigures(own: seq<Move>, wealth: real)
    requires wealth != 0.0
    ensures var shown := ClientFrom(own, wealth);
      && shown.deltaUsd == Total(own) && shown.householdUsd == wealth && shown.moves == SortMoves(own)
      && IsPercent(shown.deltaPct, Total(own), wealth)
  {}

  lemma StatementShows(facts: Facts, cid: string, own: seq<Move>, m: real)
    requires cid in facts.households && facts.households[cid] != 0.0
    requires PositionsOf(own) == OwnPositions(facts.positions, cid)
    requires Total(own) == Times(Exposure(facts.positions, cid), m)
    requires forall i :: 0 <= i < |own| ==> Moved(own[i], m)
    ensures ShowsClient(facts, cid, ClientFrom(own, facts.households[cid]), m)
  {
    SortMovesMoved(own, m);
    SortMovesPositions(own);
    SortMovesAscends(own);
    StatementFigures(own, facts.households[cid]);
  }

  lemma ClientFromShows(facts: Facts, cid: string, m: real)
    requires cid in facts.households && facts.households[cid] != 0.0
    ensures ShowsClient(facts, cid, ClientFrom(OwnMoves(BookMoves(facts.positions, m), cid), facts.households[cid]), m)
  {
    var own := MovesOf(facts.positions, cid, m);
    StatementShows(facts, cid, own, m);
  }

  predicate ShowsFacility(f: Facility, s: FacilityState, m: real) {
    && s.clientId == f.clientId && s.drawn == f.drawn && s.triggerLtv == f.triggerLtv
    && s.lendingValue == f.lendingValue + f.c * m && s.ltv * s.lendingValue == 100.0 * f.drawn
  }

  lemma FacilityAtShows(f: Facility, m: real)
    requires LendingAt(f, m) != 0.0
    ensures ShowsFacility(f, FacilityAt(f, m), m)
  {}

  lemma ClientsShown(facts: Facts, level: real, market: Market, cid: string)
    requires ShockAt(facts, level) == Ok(market)
    ensures cid in market.clients <==> HasPosition(facts.positions, cid)
  {
    var book := BookMoves(facts.positions, market.mult);
    SeenIs(book);
    BookMoved(facts.positions, market.mult);
    assert forall i :: 0 <= i < |book| ==> book[i].position == facts.positions[i];
  }

  predicate HasPosition(ps: seq<Position>, cid: string) {
    exists i :: 0 <= i < |ps| && ps[i].clientId == cid
  }

  /** Every client with a position and every facility, at the relative move of Brent from today's price. */
  ghost predicate Shows(facts: Facts, market: Market) {
    && facts.brentNow != 0.0 && market.mult == market.brent / facts.brentNow - 1.0
    && (forall cid :: cid in market.clients <==> HasPosition(facts.positions, cid))
    && (forall cid :: cid in market.clients ==> ShowsClient(facts, cid, market.clients[cid], market.mult))
    && market.facilities.Keys == facts.facilities.Keys
    && forall fid :: fid in facts.facilities ==>
         ShowsFacility(facts.facilities[fid], market.facilities[fid], market.mult)
  }

  lemma ShockShows(facts: Facts, level: real, market: Market)
    requires ShockAt(facts, level) == Ok(market)
    ensures market.brent == level && Shows(facts, market)
  {
    forall cid
      ensures cid in market.clients <==> HasPosition(facts.positions, cid)
      ensures cid in market.clients ==> ShowsClient(facts, cid, market.clients[cid], market.mult)
    {
      ClientsShown(facts, level, market, cid);
      if cid in market.clients {
        ShockedClient(facts, level, market, cid);
        ClientFromShows(facts, cid, market.mult);
      }
    }
    forall fid | fid in facts.facilities
      ensures ShowsFacility(facts.facilities[fid], market.facilities[fid], market.mult)
    {
      assert LendingAt(facts.facilities[fid], market.mult) != 0.0;
      FacilityAtShows(facts.facilities[fid], market.mult);
    }
  }

  predicate Still(x: Move) {
    x.usdDelta == 0.0 && x.pct == 0.0 && x.shockedUsd == x.position.marketValueUsd
  }

  lemma MoveStill(x: Move)
    requires Moved(x, 0.0)
    ensures Still(x)
  {}

  ghost predicate AllStill(shown: ClientState) {
    shown.deltaUsd == 0.0 && shown.deltaPct == 0.0 && forall i :: 0 <= i < |shown.moves| ==> Still(shown.moves[i])
  }

  lemma ClientStill(facts: Facts, cid: string, shown: ClientState, m: real)
    requires ShowsClient(facts, cid, shown, m) && shown.householdUsd != 0.0 && m == 0.0
    ensures AllStill(shown)
  {
    forall i | 0 <= i < |shown.moves| ensures Still(shown.moves[i]) { MoveStill(shown.moves[i]); }
  }

  lemma NoRelativeMove(b0: real)
    requires b0 != 0.0
    ensures b0 / b0 - 1.0 == 0.0
  {}

  /** At today's price nothing moves. */
  lemma TodayNothingMoves(facts: Facts, market: Market, cid: string)
    requires ShockAt(facts, facts.brentNow) == Ok(market) && cid in market.clients
    ensures AllStill(market.clients[cid])
  {
    ShockShows(facts, facts.brentNow, market);
    ShockedClient(facts, facts.brentNow, market, cid);
    NoRelativeMove(facts.brentNow);
    ClientStill(facts, cid, market.clients[cid], market.mult);
  }

  // ---- Triggers.

  datatype Trigger = Trigger(variable: string, operator: string, level: real, evaluatedBy: string)

  datatype Observation = Observation(hit: bool, observed: real, level: real, variable: string, operator: string)

  predicate EndsWith(s: string, suffix: string) {
    |s| >= |suffix| && s[|s| - |suffix|..] == suffix
  }

  /** s.split(".")[0] */
  function BeforeDot(s: string): string {
    if s == [] || s[0] == '.' then [] else [s[0]] + BeforeDot(s[1..])
  }

  function Resolve(variable: string, market: Market): Result<real, Error> {
    var fid := BeforeDot(variable);
    if variable == "BRENT" then Ok(market.brent)
    else if EndsWith(variable, ".LTV") then
      if fid in market.facilities then Ok(market.facilities[fid].ltv) else Err(KeyError(fid))
    else if EndsWith(variable, ".HEADROOM") then
      if fid in market.facilities then Ok(market.facilities[fid].headroom) else Err(KeyError(fid))
    else Err(KeyError(variable))
  }

  function Compare(operator: string, a: real, b: real): Result<bool, Error> {
    if operator == "<" then Ok(a < b)
    else if operator == "<=" then Ok(a <= b)
    else if operator == ">" then Ok(a > b)
    else if operator == ">=" then Ok(a >= b)
    else Err(KeyError(operator))
  }

  predicate KnownOperator(operator: string) {
    operator == "<" || operator == "<=" || operator == ">" || operator == ">="
  }

  predicate KnownVariable(variable: string, facilities: set<string>) {
    variable == "BRENT"
    || ((EndsWith(variable, ".LTV") || EndsWith(variable, ".HEADROOM")) && BeforeDot(variable) in facilities)
  }

  /** What a trigger must say for the watcher to read it over these facilities. */
  predicate Readable(t: Trigger, facilities: set<string>) {
    t.evaluatedBy == "deterministic" && KnownVariable(t.variable, facilities) && KnownOperator(t.operator)
  }

  /** `level`, when given, overrides the drafted level with the one that was armed. */
  function Evaluate(t: Trigger, market: Market, level: Option<real>): Result<Observation, Error> {
    if t.evaluatedBy != "deterministic" then Err(AssertionError)
    else
      var lvl := if level.Some? then level.value else t.level;
      match Resolve(t.variable, market)
      case Err(e) => Err(e)
      case Ok(observed) =>
        match Compare(t.operator, observed, lvl)
        case Err(e) => Err(e)
        case Ok(hit) => Ok(Observation(hit, observed, lvl, t.variable, t.operator))
  }

  /** Evaluating a trigger raises exactly when it is not readable, and finds it true exactly by its comparison. */
  lemma EvaluateReads(t: Trigger, market: Market, level: Option<real>)
    ensures Evaluate(t, market, level).Ok? <==> Readable(t, market.facilities.Keys)
    ensures Evaluate(t, market, level).Ok? ==>
      var o := Evaluate(t, market, level).value;
      && Resolve(t.variable, market) == Ok(o.observed) && o.level == (if level.Some? then level.value else t.level)
      && Compare(t.operator, o.observed, o.level) == Ok(o.hit)
  {}

  /** What the comparison of an operator means. */
  predicate Holds(operator: string, a: real, b: real) {
    || (operator == "<" && a < b) || (operator == "<=" && a <= b)
    || (operator == ">" && a > b) || (operator == ">=" && a >= b)
  }

  /** A readable trigger is found true exactly if the observed value stands to the level as its operator says. */
  lemma HitMeansHolds(t: Trigger, market: Market, level: Option<real>)
    requires Readable(t, market.facilities.Keys)
    ensures var o := Evaluate(t, market, level);
      && o.Ok? && o.value.variable == t.variable && o.value.operator == t.operator
      && (o.value.hit <==> Holds(t.operator, o.value.observed, if level.Some? then level.value else t.level))
  {}

  lemma {:induction false} BeforeDotOf(fid: string, suffix: string)
    requires '.' !in fid
    ensures BeforeDot(fid + "." + suffix) == fid
  {
    var s := fid + "." + suffix;
    if fid == [] {
    } else {
      assert s[0] == fid[0] && s[1..] == fid[1..] + "." + suffix;
      BeforeDotOf(fid[1..], suffix);
    }
  }

  lemma Suffixed(fid: string, suffix: string)
    requires '.' !in fid
    ensures var v := fid + "." + suffix; EndsWith(v, "." + suffix) && v != "BRENT" && BeforeDot(v) == fid
    ensures suffix == "HEADROOM" ==> !EndsWith(fid + "." + suffix, ".LTV")
  {
    var v := fid + "." + suffix;
    assert v[|v| - |"." + suffix|..] == "." + suffix;
    assert v[|fid|] == '.' && '.' !in "BRENT";
    BeforeDotOf(fid, suffix);
    if suffix == "HEADROOM" { assert v[|v| - 1] == 'M' && v[|v| - 4..][3] == 'M'; }
  }

  /** What a trigger watches: Brent itself, or the LTV or the headroom of the facility its variable names. */
  lemma ResolveReads(market: Market, fid: string)
    requires '.' !in fid
    ensures Resolve("BRENT", market) == Ok(market.brent)
    ensures fid in market.facilities ==>
      && Resolve(fid + ".LTV", market) == Ok(market.facilities[fid].ltv)
      && Resolve(fid + ".HEADROOM", market) == Ok(market.facilities[fid].headroom)
    ensures fid !in market.facilities ==>
      Resolve(fid + ".LTV", market) == Resolve(fid + ".HEADROOM", market) == Err(KeyError(fid))
  {
    Suffixed(fid, "LTV");
    Suffixed(fid, "HEADROOM");
    assert fid + "." + "LTV" == fid + ".LTV" && fid + "." + "HEADROOM" == fid + ".HEADROOM";
    assert "." + "LTV" == ".LTV" && "." + "HEADROOM" == ".HEADROOM";
  }

  /** A shock at a price goes through exactly if nothing it divides by is zero and every client is known. */
  predicate Priceable(facts: Facts, level: real) {
    && facts.brentNow != 0.0 && FacilitiesPriced(facts, level / facts.brentNow - 1.0)
    && forall i :: 0 <= i < |facts.positions| ==>
         var cid := facts.positions[i].clientId; cid in facts.households && facts.households[cid] != 0.0
  }

  lemma BookGuard(facts: Facts, book: seq<Move>, ps: seq<Position>)
    requires |book| == |ps| && forall i :: 0 <= i < |ps| ==> book[i].position == ps[i]
    ensures ClientFailure(facts, Seen(book)) == None <==>
            forall i :: 0 <= i < |ps| ==> var cid := ps[i].clientId;
              cid in facts.households && facts.households[cid] != 0.0
  {
    NoFailure(facts, Seen(book));
    SeenIs(book);
  }

  lemma ShockGuards(facts: Facts, level: real)
    ensures ShockAt(facts, level).Ok? <==> Priceable(facts, level)
    ensures ShockAt(facts, level).Ok? ==> ShockAt(facts, level).value.facilities.Keys == facts.facilities.Keys
  {
    if facts.brentNow != 0.0 {
      var m := level / facts.brentNow - 1.0;
      BookMoved(facts.positions, m);
      BookGuard(facts, BookMoves(facts.positions, m), facts.positions);
    }
  }

  /** Some market makes a readable trigger true. */
  lemma SomeMarketHits(t: Trigger, level: Option<real>) returns (market: Market)
    requires Readable(t, {BeforeDot(t.variable)})
    ensures Evaluate(t, market, level).Ok? && Evaluate(t, market, level).value.hit
  {
    var lvl := if level.Some? then level.value else t.level;
    var x := if t.operator == "<" then lvl - 1.0 else if t.operator == ">" then lvl + 1.0 else lvl;
    market := Market(x, 0.0, map[BeforeDot(t.variable) := FacilityState("", 0.0, 0.0, x, 0.0, false, x, 0.0)], map[]);
  }
}
