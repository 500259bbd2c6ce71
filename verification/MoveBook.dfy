/** Position moves: grouping them by client and sorting them by size. */
module MoveBook {

  datatype Position = Position(clientId: string, instrumentId: string, portfolioId: string,
                               beta: real, marketValueUsd: real)

  datatype Move = Move(position: Position, pct: real, usdDelta: real, shockedUsd: real)

  function MoveOf(p: Position, m: real): Move {
    Move(p, 100.0 * p.beta * m, p.marketValueUsd * p.beta * m, p.marketValueUsd * (1.0 + p.beta * m))
  }

  /** Every move of the book, whoever owns it. */
  function BookMoves(ps: seq<Position>, m: real): (r: seq<Move>)
    ensures |r| == |ps| && forall i :: 0 <= i < |ps| ==> r[i] == MoveOf(ps[i], m)
  {
    seq(|ps|, i requires 0 <= i < |ps| => MoveOf(ps[i], m))
  }

  // ---- What a move is, without saying how it is computed.

  /** At the multiplier `m` a position moves by its value times its beta times `m`. */
  predicate Moved(x: Move, m: real) {
    && x.usdDelta == Times(Stake(x.position), m)
    && x.shockedUsd == x.position.marketValueUsd + x.usdDelta
    && x.pct == Times(100.0 * x.position.beta, m)
  }

  /** What a position would gain if the factor doubled. */
  function Stake(p: Position): real { p.marketValueUsd * p.beta }

  function Times(a: real, m: real): real { a * m }

  predicate IsPercent(pct: real, part: real, whole: real) { pct * whole == 100.0 * part }

  /** So the percentage shown is the move as a part of the value. */
  lemma MovedPercent(x: Move, m: real)
    requires Moved(x, m)
    ensures IsPercent(x.pct, x.usdDelta, x.position.marketValueUsd)
  {}

  lemma BookMoved(ps: seq<Position>, m: real)
    ensures forall i :: 0 <= i < |ps| ==> BookMoves(ps, m)[i].position == ps[i] && Moved(BookMoves(ps, m)[i], m)
  {
    forall i | 0 <= i < |ps| ensures Moved(BookMoves(ps, m)[i], m) { MovedBy(ps[i], m); }
  }

  lemma MovedBy(p: Position, m: real)
    ensures Moved(MoveOf(p, m), m)
  {}

  function PositionsOf(moves: seq<Move>): (r: seq<Position>)
    ensures |r| == |moves| && forall i :: 0 <= i < |moves| ==> r[i] == moves[i].position
  {
    seq(|moves|, i requires 0 <= i < |moves| => moves[i].position)
  }

  /** The positions of one client, in book order. */
  function OwnPositions(ps: seq<Position>, cid: string): seq<Position> {
    if ps == [] then []
    else
      var before, last := OwnPositions(ps[..|ps| - 1], cid), ps[|ps| - 1];
      if last.clientId == cid then before + [last] else before
  }

  /** What a client would gain if the factor doubled. */
  function Exposure(ps: seq<Position>, cid: string): real {
    if ps == [] then 0.0
    else
      var last := ps[|ps| - 1];
      Exposure(ps[..|ps| - 1], cid) + if last.clientId == cid then Stake(last) else 0.0
  }

  /** The moves of one client, in book order. */
  function OwnMoves(book: seq<Move>, cid: string): seq<Move> {
    if book == [] then []
    else
      var before, last := OwnMoves(book[..|book| - 1], cid), book[|book| - 1];
      if last.position.clientId == cid then before + [last] else before
  }

  function Total(moves: seq<Move>): real {
    if moves == [] then 0.0 else Total(moves[..|moves| - 1]) + moves[|moves| - 1].usdDelta
  }

  lemma TotalOfOneMore(moves: seq<Move>, x: Move)
    ensures Total(moves + [x]) == Total(moves) + x.usdDelta
  {}

  lemma BookOneMore(ps: seq<Position>, m: real)
    requires ps != []
    ensures BookMoves(ps, m) == BookMoves(ps[..|ps| - 1], m) + [BookMoves(ps, m)[|ps| - 1]]
  {}

  lemma {:induction false} OwnMoved(book: seq<Move>, cid: string, m: real)
    requires forall i :: 0 <= i < |book| ==> Moved(book[i], m)
    ensures forall i :: 0 <= i < |OwnMoves(book, cid)| ==> Moved(OwnMoves(book, cid)[i], m)
  {
    if book == [] {
    } else {
      OwnMoved(book[..|book| - 1], cid, m);
    }
  }

  /** A client's moves are of its positions, in their order. */
  lemma {:induction false} OwnMovesPositions(ps: seq<Position>, cid: string, m: real)
    ensures PositionsOf(OwnMoves(BookMoves(ps, m), cid)) == OwnPositions(ps, cid)
  {
    if ps == [] {
    } else {
      var init, x := ps[..|ps| - 1], BookMoves(ps, m)[|ps| - 1];
      OwnMovesPositions(init, cid, m);
      BookOneMore(ps, m);
      OwnOneMore(BookMoves(init, m), x, cid);
    }
  }

  lemma TotalNext(own: seq<Move>, x: Move, exposure: real, stake: real, m: real)
    requires Total(own) == Times(exposure, m) && x.usdDelta == Times(stake, m)
    ensures Total(own + [x]) == Times(exposure + stake, m)
  {
    TotalOfOneMore(own, x);
  }

  /** If every move is its position's stake times the multiplier, so is every client's total. */
  lemma {:induction false} OwnTotalScales(book: seq<Move>, ps: seq<Position>, cid: string, m: real)
    requires |book| == |ps|
    requires forall i :: 0 <= i < |book| ==> book[i].position == ps[i] && book[i].usdDelta == Times(Stake(ps[i]), m)
    ensures Total(OwnMoves(book, cid)) == Times(Exposure(ps, cid), m)
  {
    if book == [] {
    } else {
      var n := |book| - 1;
      OwnTotalScales(book[..n], ps[..n], cid, m);
      if ps[n].clientId == cid {
        TotalNext(OwnMoves(book[..n], cid), book[n], Exposure(ps[..n], cid), Stake(ps[n]), m);
      }
    }
  }

  /** They add up to the client's exposure times the multiplier. */
  lemma OwnMovesTotal(ps: seq<Position>, cid: string, m: real)
    ensures Total(OwnMoves(BookMoves(ps, m), cid)) == Times(Exposure(ps, cid), m)
  {
    BookMoved(ps, m);
    OwnTotalScales(BookMoves(ps, m), ps, cid, m);
  }

  /** All of that for one client of a moved book. */
  lemma MovesOf(ps: seq<Position>, cid: string, m: real) returns (own: seq<Move>)
    ensures own == OwnMoves(BookMoves(ps, m), cid)
    ensures PositionsOf(own) == OwnPositions(ps, cid) && Total(own) == Times(Exposure(ps, cid), m)
    ensures forall i :: 0 <= i < |own| ==> Moved(own[i], m)
  {
    own := OwnMoves(BookMoves(ps, m), cid);
    BookMoved(ps, m);
    OwnMoved(BookMoves(ps, m), cid, m);
    OwnMovesPositions(ps, cid, m);
    OwnMovesTotal(ps, cid, m);
  }

  function AddClient(order: seq<string>, cid: string): seq<string> {
    if cid in order then order else order + [cid]
  }

  /** Clients in the order the book first mentions them. */
  function Seen(book: seq<Move>): seq<string> {
    if book == [] then [] else AddClient(Seen(book[..|book| - 1]), book[|book| - 1].position.clientId)
  }

  lemma {:induction false} SeenIs(book: seq<Move>)
    ensures forall cid :: cid in Seen(book) <==> exists i :: 0 <= i < |book| && book[i].position.clientId == cid
  {
    if book == [] {
    } else {
      SeenIs(book[..|book| - 1]);
      assert forall i :: 0 <= i < |book| - 1 ==> book[..|book| - 1][i] == book[i];
    }
  }

  /** The book mentions `a` before it first mentions `b`. */
  ghost predicate MentionedBefore(book: seq<Move>, a: string, b: string) {
    exists i :: 0 <= i < |book| && book[i].position.clientId == a
      && forall k :: 0 <= k <= i ==> book[k].position.clientId != b
  }

  lemma MentionedStays(book: seq<Move>, x: Move, a: string, b: string)
    requires MentionedBefore(book, a, b)
    ensures MentionedBefore(book + [x], a, b)
  {
    var i :| 0 <= i < |book| && book[i].position.clientId == a
             && forall k :: 0 <= k <= i ==> book[k].position.clientId != b;
    assert (book + [x])[i] == book[i] && forall k :: 0 <= k <= i ==> (book + [x])[k] == book[k];
  }

  lemma MentionedFirst(book: seq<Move>, x: Move, a: string)
    requires a in Seen(book) && x.position.clientId !in Seen(book)
    ensures MentionedBefore(book + [x], a, x.position.clientId)
  {
    SeenIs(book);
    var i :| 0 <= i < |book| && book[i].position.clientId == a;
    assert (book + [x])[i] == book[i];
    forall k | 0 <= k <= i ensures (book + [x])[k].position.clientId != x.position.clientId {
      assert (book + [x])[k] == book[k];
    }
  }

  /** Clients are listed in the order the book first mentions them. */
  lemma {:induction false} SeenOrder(book: seq<Move>)
    ensures forall i, j :: 0 <= i < j < |Seen(book)| ==> MentionedBefore(book, Seen(book)[i], Seen(book)[j])
  {
    if book == [] {
    } else {
      var init, x, before := book[..|book| - 1], book[|book| - 1], Seen(book[..|book| - 1]);
      SeenOrder(init);
      assert book == init + [x];
      forall i, j | 0 <= i < j < |Seen(book)| ensures MentionedBefore(book, Seen(book)[i], Seen(book)[j]) {
        if j < |before| {
          MentionedStays(init, x, before[i], before[j]);
        } else {
          MentionedFirst(init, x, before[i]);
        }
      }
    }
  }

  // ---- The grouping loop.

  datatype Running = Running(delta: real, moves: seq<Move>)

  /** What the loop has built for one client. */
  predicate Shares(book: seq<Move>, running: map<string, Running>, cid: string) {
    if cid in running then running[cid] == Running(Total(OwnMoves(book, cid)), OwnMoves(book, cid))
    else OwnMoves(book, cid) == []
  }

  /** What the loop has built after some positions. */
  ghost predicate Grouped(book: seq<Move>, order: seq<string>, running: map<string, Running>) {
    && order == Seen(book)
    && (forall cid :: cid in running <==> cid in order)
    && (forall cid :: Shares(book, running, cid))
  }

  /** `setdefault`, then `+=` and `append`. */
  function AddMove(running: map<string, Running>, x: Move): map<string, Running> {
    var cid := x.position.clientId;
    var c := if cid in running then running[cid] else Running(0.0, []);
    running[cid := Running(c.delta + x.usdDelta, c.moves + [x])]
  }

  method GroupMoves(book: seq<Move>) returns (order: seq<string>, running: map<string, Running>)
    ensures Grouped(book, order, running)
  {
    order, running := [], map[];
    for i := 0 to |book|
      invariant Grouped(book[..i], order, running)
    {
      GroupOne(book[..i], book[i], order, running);
      assert book[..i + 1] == book[..i] + [book[i]];
      order, running := AddClient(order, book[i].position.clientId), AddMove(running, book[i]);
    }
    assert book[..|book|] == book;
  }

  lemma OwnOneMore(book: seq<Move>, x: Move, cid: string)
    ensures OwnMoves(book + [x], cid)
         == if x.position.clientId == cid then OwnMoves(book, cid) + [x] else OwnMoves(book, cid)
  {}

  lemma ShareOne(book: seq<Move>, x: Move, running: map<string, Running>, cid: string)
    requires Shares(book, running, cid)
    ensures Shares(book + [x], AddMove(running, x), cid)
  {
    OwnOneMore(book, x, cid);
    if cid == x.position.clientId { TotalOfOneMore(OwnMoves(book, cid), x); }
  }

  lemma GroupOne(book: seq<Move>, x: Move, order: seq<string>, running: map<string, Running>)
    requires Grouped(book, order, running)
    ensures Grouped(book + [x], AddClient(order, x.position.clientId), AddMove(running, x))
  {
    assert (book + [x])[..|book|] == book;
    forall cid ensures Shares(book + [x], AddMove(running, x), cid) {
      assert Shares(book, running, cid);
      ShareOne(book, x, running, cid);
    }
  }

  // ---- The sort: list.sort(key=usd_delta), a stable insertion.

  function InsertMove(moves: seq<Move>, x: Move): seq<Move> {
    if moves == [] || moves[|moves| - 1].usdDelta <= x.usdDelta then moves + [x]
    else InsertMove(moves[..|moves| - 1], x) + [moves[|moves| - 1]]
  }

  function SortMoves(moves: seq<Move>): seq<Move> {
    if moves == [] then [] else InsertMove(SortMoves(moves[..|moves| - 1]), moves[|moves| - 1])
  }

  ghost predicate Ascending(moves: seq<Move>) {
    forall i, j :: 0 <= i < j < |moves| ==> moves[i].usdDelta <= moves[j].usdDelta
  }

  /** The moves with one given delta, in order. */
  function WithDelta(moves: seq<Move>, d: real): seq<Move> {
    if moves == [] then []
    else
      var before, last := WithDelta(moves[..|moves| - 1], d), moves[|moves| - 1];
      if last.usdDelta == d then before + [last] else before
  }

  lemma {:induction false} InsertMovePermutes(moves: seq<Move>, x: Move)
    ensures multiset(InsertMove(moves, x)) == multiset(moves) + multiset{x}
  {
    if moves == [] || moves[|moves| - 1].usdDelta <= x.usdDelta {
    } else {
      InsertMovePermutes(moves[..|moves| - 1], x);
      assert moves == moves[..|moves| - 1] + [moves[|moves| - 1]];
    }
  }

  lemma {:induction false} InsertMoveTotal(moves: seq<Move>, x: Move)
    ensures Total(InsertMove(moves, x)) == Total(moves) + x.usdDelta
  {
    if moves == [] || moves[|moves| - 1].usdDelta <= x.usdDelta {
      TotalOfOneMore(moves, x);
    } else {
      InsertMoveTotal(moves[..|moves| - 1], x);
      TotalOfOneMore(InsertMove(moves[..|moves| - 1], x), moves[|moves| - 1]);
    }
  }

  lemma {:induction false} InsertMoveBelow(moves: seq<Move>, x: Move, top: real)
    requires x.usdDelta <= top && forall i :: 0 <= i < |moves| ==> moves[i].usdDelta <= top
    ensures forall i :: 0 <= i < |InsertMove(moves, x)| ==> InsertMove(moves, x)[i].usdDelta <= top
  {
    if moves == [] || moves[|moves| - 1].usdDelta <= x.usdDelta {
    } else {
      InsertMoveBelow(moves[..|moves| - 1], x, top);
    }
  }

  lemma {:induction false} InsertMoveAscends(moves: seq<Move>, x: Move)
    requires Ascending(moves)
    ensures Ascending(InsertMove(moves, x))
  {
    if moves == [] || moves[|moves| - 1].usdDelta <= x.usdDelta {
    } else {
      InsertMoveAscends(moves[..|moves| - 1], x);
      InsertMoveBelow(moves[..|moves| - 1], x, moves[|moves| - 1].usdDelta);
    }
  }

  lemma {:induction false} InsertMoveStable(moves: seq<Move>, x: Move, d: real)
    requires Ascending(moves)
    ensures WithDelta(InsertMove(moves, x), d) == WithDelta(moves + [x], d)
  {
    if moves == [] || moves[|moves| - 1].usdDelta <= x.usdDelta {
    } else {
      assert (moves + [x])[..|moves|] == moves;
      var init, last := moves[..|moves| - 1], moves[|moves| - 1];
      assert (init + [x])[..|init|] == init;
      InsertMoveStable(init, x, d);
      var r := InsertMove(init, x);
      assert (r + [last])[..|r|] == r;
    }
  }

  lemma {:induction false} SortMovesAscends(moves: seq<Move>)
    ensures Ascending(SortMoves(moves))
  {
    if moves == [] {
    } else {
      SortMovesAscends(moves[..|moves| - 1]);
      InsertMoveAscends(SortMoves(moves[..|moves| - 1]), moves[|moves| - 1]);
    }
  }

  lemma {:induction false} SortMovesPermutes(moves: seq<Move>)
    ensures multiset(SortMoves(moves)) == multiset(moves)
  {
    if moves == [] {
    } else {
      var init, last := moves[..|moves| - 1], moves[|moves| - 1];
      var sorted := SortMoves(init);
      SortMovesPermutes(init);
      InsertMovePermutes(sorted, last);
      assert SortMoves(moves) == InsertMove(sorted, last) && moves == init + [last];
    }
  }

  lemma {:induction false} InsertMovePositions(moves: seq<Move>, x: Move)
    ensures multiset(PositionsOf(InsertMove(moves, x))) == multiset(PositionsOf(moves)) + multiset{x.position}
  {
    if moves == [] || moves[|moves| - 1].usdDelta <= x.usdDelta {
      assert PositionsOf(moves + [x]) == PositionsOf(moves) + [x.position];
    } else {
      var init, last := moves[..|moves| - 1], moves[|moves| - 1];
      InsertMovePositions(init, x);
      assert PositionsOf(moves) == PositionsOf(init) + [last.position];
      assert PositionsOf(InsertMove(init, x) + [last]) == PositionsOf(InsertMove(init, x)) + [last.position];
    }
  }

  lemma {:induction false} SortMovesPositions(moves: seq<Move>)
    ensures multiset(PositionsOf(SortMoves(moves))) == multiset(PositionsOf(moves))
  {
    if moves == [] {
    } else {
      var init, last := moves[..|moves| - 1], moves[|moves| - 1];
      SortMovesPositions(init);
      InsertMovePositions(SortMoves(init), last);
      assert PositionsOf(moves) == PositionsOf(init) + [last.position];
    }
  }

  lemma SortMovesMoved(moves: seq<Move>, m: real)
    requires forall i :: 0 <= i < |moves| ==> Moved(moves[i], m)
    ensures forall i :: 0 <= i < |SortMoves(moves)| ==> Moved(SortMoves(moves)[i], m)
  {
    SortMovesPermutes(moves);
    forall i | 0 <= i < |SortMoves(moves)| ensures Moved(SortMoves(moves)[i], m) {
      assert SortMoves(moves)[i] in multiset(moves);
    }
  }

  lemma {:induction false} SortMovesTotal(moves: seq<Move>)
    ensures Total(SortMoves(moves)) == Total(moves)
  {
    if moves == [] {
    } else {
      SortMovesTotal(moves[..|moves| - 1]);
      InsertMoveTotal(SortMoves(moves[..|moves| - 1]), moves[|moves| - 1]);
    }
  }

  lemma {:induction false} SortMovesStable(moves: seq<Move>, d: real)
    ensures WithDelta(SortMoves(moves), d) == WithDelta(moves, d)
  {
    if moves == [] {
    } else {
      var init, last := moves[..|moves| - 1], moves[|moves| - 1];
      var sorted := SortMoves(init);
      SortMovesStable(init, d);
      SortMovesAscends(init);
      InsertMoveStable(sorted, last, d);
      assert (sorted + [last])[..|sorted|] == sorted;
    }
  }

  /** SortMoves is the stable ascending sort: same moves, in order, equal deltas in their old order. */
  lemma SortMovesIsStableSort(moves: seq<Move>, d: real)
    ensures multiset(SortMoves(moves)) == multiset(moves)
    ensures Ascending(SortMoves(moves))
    ensures Total(SortMoves(moves)) == Total(moves)
    ensures WithDelta(SortMoves(moves), d) == WithDelta(moves, d)
  {
    SortMovesPermutes(moves);
    SortMovesTotal(moves);
    SortMovesAscends(moves);
    SortMovesStable(moves, d);
  }

  // ---- Conservation over the book.

  function UnionOver(book: seq<Move>, order: seq<string>): multiset<Move> {
    if order == [] then multiset{}
    else UnionOver(book, order[..|order| - 1]) + multiset(OwnMoves(book, order[|order| - 1]))
  }

  function TotalOver(book: seq<Move>, order: seq<string>): real {
    if order == [] then 0.0
    else TotalOver(book, order[..|order| - 1]) + Total(OwnMoves(book, order[|order| - 1]))
  }

  ghost predicate Distinct(order: seq<string>) {
    forall i, j :: 0 <= i < j < |order| ==> order[i] != order[j]
  }

  /** One more move changes no share but its owner's. */
  lemma {:induction false} OthersKeep(book: seq<Move>, x: Move, order: seq<string>)
    requires x.position.clientId !in order
    ensures UnionOver(book + [x], order) == UnionOver(book, order)
    ensures TotalOver(book + [x], order) == TotalOver(book, order)
  {
    if order == [] {
    } else {
      OthersKeep(book, x, order[..|order| - 1]);
      OwnOneMore(book, x, order[|order| - 1]);
    }
  }

  lemma {:induction false} OwnerGains(book: seq<Move>, x: Move, order: seq<string>)
    requires Distinct(order) && x.position.clientId in order
    ensures UnionOver(book + [x], order) == UnionOver(book, order) + multiset{x}
    ensures TotalOver(book + [x], order) == TotalOver(book, order) + x.usdDelta
  {
    var init, cid := order[..|order| - 1], order[|order| - 1];
    OwnOneMore(book, x, cid);
    if x.position.clientId == cid {
      OthersKeep(book, x, init);
      TotalOfOneMore(OwnMoves(book, cid), x);
    } else {
      OwnerGains(book, x, init);
    }
  }

  lemma {:induction false} SeenDistinct(book: seq<Move>)
    ensures Distinct(Seen(book))
    ensures forall cid :: cid !in Seen(book) ==> OwnMoves(book, cid) == []
  {
    if book == [] {
    } else {
      SeenDistinct(book[..|book| - 1]);
    }
  }

  /** A client's first move opens a share that holds just that move. */
  lemma NewShare(book: seq<Move>, x: Move, order: seq<string>)
    requires x.position.clientId !in order && OwnMoves(book, x.position.clientId) == []
    ensures UnionOver(book + [x], order + [x.position.clientId]) == UnionOver(book, order) + multiset{x}
    ensures TotalOver(book + [x], order + [x.position.clientId]) == TotalOver(book, order) + x.usdDelta
  {
    var cid := x.position.clientId;
    OthersKeep(book, x, order);
    OwnOneMore(book, x, cid);
    TotalOfOneMore([], x);
    assert (order + [cid])[..|order|] == order && [] + [x] == [x];
  }

  lemma ConserveOne(book: seq<Move>, x: Move, order: seq<string>)
    requires Distinct(order)
    requires x.position.clientId !in order ==> OwnMoves(book, x.position.clientId) == []
    ensures UnionOver(book + [x], AddClient(order, x.position.clientId)) == UnionOver(book, order) + multiset{x}
    ensures TotalOver(book + [x], AddClient(order, x.position.clientId)) == TotalOver(book, order) + x.usdDelta
  {
    if x.position.clientId in order { OwnerGains(book, x, order); } else { NewShare(book, x, order); }
  }

  /** Each move lands with exactly one client, and the clients' deltas add up to the book's. */
  ghost predicate Conserved(book: seq<Move>) {
    UnionOver(book, Seen(book)) == multiset(book) && TotalOver(book, Seen(book)) == Total(book)
  }

  lemma ConserveNext(book: seq<Move>, x: Move)
    requires Conserved(book)
    ensures Conserved(book + [x])
  {
    SeenDistinct(book);
    ConserveOne(book, x, Seen(book));
    TotalOfOneMore(book, x);
    assert (book + [x])[..|book|] == book;
  }

  /** Every book is: grouping by client loses nothing, doubles nothing and adds up. */
  lemma BookConserved(book: seq<Move>)
    ensures Conserved(book)
  {
    var done: seq<Move> := [];
    for i := 0 to |book|
      invariant done == book[..i] && Conserved(done)
    {
      ConserveNext(done, book[i]);
      done := done + [book[i]];
    }
    assert done == book;
  }
}
