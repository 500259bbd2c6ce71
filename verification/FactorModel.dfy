/** The verification pass: betas by least squares, the Brent level that triggers a facility,
    and the offline shock the app's engine is checked against. */
module FactorModel {
  import opened Wrappers
  import opened MoveBook
  import opened ShockEngine

  // ---- Least squares through the origin.

  datatype Beta = Beta(beta: real, r2: Option<real>)

  function Dot(x: seq<real>, y: seq<real>): real
    requires |x| == |y|
  {
    if x == [] then 0.0 else Dot(x[..|x| - 1], y[..|x| - 1]) + x[|x| - 1] * y[|x| - 1]
  }

  function Sum(y: seq<real>): real {
    if y == [] then 0.0 else Sum(y[..|y| - 1]) + y[|y| - 1]
  }

  /** Squared residual of the line y = b x, for one pair and for all. */
  function Miss(x: real, y: real, b: real): (r: real)
    ensures r >= 0.0
  {
    Square(y - b * x)
  }

  function SSE(x: seq<real>, y: seq<real>, b: real): real
    requires |x| == |y|
  {
    if x == [] then 0.0
    else
      SSE(x[..|x| - 1], y[..|x| - 1], b) + Miss(x[|x| - 1], y[|x| - 1], b)
  }

  /** Squared deviation from a constant. */
  function Spread(y: seq<real>, mean: real): real {
    if y == [] then 0.0
    else Spread(y[..|y| - 1], mean) + Square(y[|y| - 1] - mean)
  }

  /** Price relatives less one; None where a price is zero. */
  function Returns(p: seq<real>): (r: Option<seq<real>>)
    ensures r.Some? && p != [] ==> |r.value| == |p| - 1
    ensures r.None? <==> exists i :: 0 <= i < |p| - 1 && p[i] == 0.0
  {
    if |p| <= 1 then Some([])
    else
      match Returns(p[..|p| - 1])
      case None => None
      case Some(ys) => if p[|p| - 2] == 0.0 then None else Some(ys + [p[|p| - 1] / p[|p| - 2] - 1.0])
  }

  function BetaOf(x: seq<real>, y: seq<real>): real
    requires |x| == |y| && Dot(x, x) != 0.0
  {
    Dot(x, y) / Dot(x, x)
  }

  /** 1 - ss_res / ss_tot, not a number when the returns do not vary. */
  function R2(x: seq<real>, y: seq<real>, b: real): Option<real>
    requires |x| == |y| && |y| > 0
  {
    Explained(SSE(x, y, b), Spread(y, Mean(y)))
  }

  function Mean(y: seq<real>): real
    requires |y| > 0
  {
    Sum(y) / |y| as real
  }

  function Explained(res: real, tot: real): Option<real> {
    if tot != 0.0 then Some(1.0 - res / tot) else None
  }

  function Fit(x: seq<real>, y: seq<real>): Option<Beta>
    requires |x| == |y|
  {
    if Dot(x, x) == 0.0 || |y| == 0 then None else Some(Beta(BetaOf(x, y), R2(x, y, BetaOf(x, y))))
  }

  /** `beta_to_brent` once the prices are read: no instrument and no factor move both give no beta. */
  function BetaToBrent(prices: Option<seq<real>>, x: seq<real>): Result<Option<Beta>, Error>
    requires prices.Some? ==> |prices.value| == |x| + 1
  {
    if prices.None? then Ok(None)
    else
      match Returns(prices.value)
      case None => Err(ZeroDivision)
      case Some(y) => Ok(Fit(x, y))
  }

  /** Sign rules, with the product named so that it stays one term for the solver. */
  lemma Positive(a: real, b: real, p: real)
    requires a > 0.0 && b > 0.0 && p == a * b
    ensures p > 0.0
  {}

  lemma SquareSign(a: real, s: real)
    requires s == a * a
    ensures s >= 0.0
    ensures a != 0.0 ==> s > 0.0
    ensures a == 0.0 ==> s == 0.0
  {
    if a > 0.0 { Positive(a, a, s); }
    if a < 0.0 { Positive(-a, -a, s); }
  }

  function Square(a: real): (r: real)
    ensures r >= 0.0
    ensures a != 0.0 ==> r > 0.0
    ensures a == 0.0 ==> r == 0.0
  {
    var s := a * a;
    SquareSign(a, s);
    s
  }

  lemma SquareIs(a: real)
    ensures Square(a) == a * a
  {}

  lemma {:induction false} DotNonNegative(x: seq<real>)
    ensures Dot(x, x) >= 0.0
    ensures Dot(x, x) == 0.0 <==> forall i :: 0 <= i < |x| ==> x[i] == 0.0
  {
    if x == [] {
    } else {
      var init, last := x[..|x| - 1], x[|x| - 1];
      DotNonNegative(init);
      SquareIs(last);
      assert Dot(x, x) == Dot(init, init) + Square(last);
      assert x[|x| - 1] == last && forall i :: 0 <= i < |init| ==> x[i] == init[i];
    }
  }

  lemma {:induction false} SseNonNegative(x: seq<real>, y: seq<real>, b: real)
    requires |x| == |y|
    ensures SSE(x, y, b) >= 0.0
  {
    if x == [] {
    } else {
      SseNonNegative(x[..|x| - 1], y[..|y| - 1], b);
    }
  }

  lemma {:induction false} SpreadNonNegative(y: seq<real>, mean: real)
    ensures Spread(y, mean) >= 0.0
  {
    if y == [] {
    } else {
      SpreadNonNegative(y[..|y| - 1], mean);
    }
  }

  function Parabola(b: real, xx: real, xy: real, yy: real): real {
    yy - 2.0 * b * xy + b * b * xx
  }

  /** One more pair of observations, the sums named before and after. */
  lemma ParabolaGrows(sse: real, more: real, b: real, u: real, v: real, xx: real, xy: real, yy: real,
                      pp: real, pq: real, qq: real)
    requires sse == Parabola(b, xx, xy, yy) && more == sse + Miss(u, v, b)
    requires pp == xx + u * u && pq == xy + u * v && qq == yy + v * v
    ensures more == Parabola(b, pp, pq, qq)
  {}

  lemma LastSquare(x: seq<real>, y: seq<real>, b: real)
    requires |x| == |y| > 0
    ensures var n := |x| - 1; SSE(x, y, b) == SSE(x[..n], y[..n], b) + Miss(x[n], y[n], b)
  {}

  lemma LastProduct(x: seq<real>, y: seq<real>)
    requires |x| == |y| > 0
    ensures var n := |x| - 1; Dot(x, y) == Dot(x[..n], y[..n]) + x[n] * y[n]
  {}

  lemma {:induction false} SseExpands(x: seq<real>, y: seq<real>, b: real)
    requires |x| == |y|
    ensures SSE(x, y, b) == Parabola(b, Dot(x, x), Dot(x, y), Dot(y, y))
  {
    if x == [] {
    } else {
      var n := |x| - 1;
      SseExpands(x[..n], y[..n], b);
      LastSquare(x, y, b);
      LastProduct(x, x);
      LastProduct(x, y);
      LastProduct(y, y);
      ParabolaGrows(SSE(x[..n], y[..n], b), SSE(x, y, b), b, x[n], y[n],
                    Dot(x[..n], x[..n]), Dot(x[..n], y[..n]), Dot(y[..n], y[..n]),
                    Dot(x, x), Dot(x, y), Dot(y, y));
    }
  }

  /** The fitted beta is the unique minimiser, by exactly the squared distance times sum(x^2). */
  lemma FitMinimises(x: seq<real>, y: seq<real>, other: real)
    requires |x| == |y| && Dot(x, x) != 0.0
    ensures var b := BetaOf(x, y);
      && SSE(x, y, other) == SSE(x, y, b) + Square(other - b) * Dot(x, x)
      && SSE(x, y, b) <= SSE(x, y, other)
      && (SSE(x, y, b) == SSE(x, y, other) ==> other == b)
  {
    DotNonNegative(x);
    Quotient(Dot(x, y), Dot(x, x));
    MinimumAt(x, y, BetaOf(x, y), other);
  }

  lemma MinimumAt(x: seq<real>, y: seq<real>, b: real, other: real)
    requires |x| == |y| && Dot(x, x) > 0.0 && b * Dot(x, x) == Dot(x, y)
    ensures SSE(x, y, other) == SSE(x, y, b) + Square(other - b) * Dot(x, x)
    ensures SSE(x, y, b) <= SSE(x, y, other)
    ensures SSE(x, y, b) == SSE(x, y, other) ==> other == b
  {
    SseExpands(x, y, b);
    SseExpands(x, y, other);
    Vertex(b, other, Dot(x, x), Dot(x, y), Dot(y, y));
  }

  lemma Vertex(b: real, c: real, xx: real, xy: real, yy: real)
    requires xx > 0.0 && b * xx == xy
    ensures Parabola(c, xx, xy, yy) == Parabola(b, xx, xy, yy) + Square(c - b) * xx
    ensures Parabola(b, xx, xy, yy) <= Parabola(c, xx, xy, yy)
    ensures Parabola(b, xx, xy, yy) == Parabola(c, xx, xy, yy) ==> c == b
  {}

  /** A fit exists exactly when some factor return is nonzero, and its r2 never exceeds one. */
  lemma FitDefined(x: seq<real>, y: seq<real>)
    requires |x| == |y|
    ensures Fit(x, y).Some? <==> exists i :: 0 <= i < |x| && x[i] != 0.0
    ensures Fit(x, y).Some? ==> Fit(x, y).value.beta == BetaOf(x, y)
    ensures Fit(x, y).Some? && Fit(x, y).value.r2.Some? ==> Fit(x, y).value.r2.value <= 1.0
  {
    DotNonNegative(x);
    if Fit(x, y).Some? { R2AtMostOne(x, y, BetaOf(x, y)); }
  }

  // ---- The returns behind a fit, and how much of them it explains.

  /** `y` are the relative changes of the prices, one step after the other. */
  predicate AreReturns(p: seq<real>, y: seq<real>) {
    |p| == |y| + 1 && forall i :: 0 <= i < |y| ==> IsReturn(p[i], p[i + 1], y[i])
  }

  predicate IsReturn(p: real, q: real, y: real) { y * p == q - p }

  lemma OneReturn(p: real, q: real, y: real)
    requires p != 0.0 && y == q / p - 1.0
    ensures IsReturn(p, q, y)
  {}

  lemma LastReturn(p: seq<real>)
    requires |p| > 1 && Returns(p).Some?
    ensures var n := |p| - 1;
      && p[n - 1] != 0.0 && Returns(p[..n]).Some?
      && Returns(p).value == Returns(p[..n]).value + [p[n] / p[n - 1] - 1.0]
  {}

  lemma ReturnsNext(p: seq<real>, init: seq<real>, y: seq<real>, last: real)
    requires |p| > 1 && init == p[..|p| - 1] && AreReturns(init, y) && IsReturn(init[|init| - 1], p[|p| - 1], last)
    ensures AreReturns(p, y + [last])
  {
    forall i | 0 <= i < |y| ensures IsReturn(p[i], p[i + 1], (y + [last])[i]) {
      assert p[i] == init[i] && p[i + 1] == init[i + 1];
    }
  }

  lemma {:induction false} ReturnsAre(p: seq<real>)
    requires p != [] && Returns(p).Some?
    ensures AreReturns(p, Returns(p).value)
  {
    if |p| == 1 {
    } else {
      var n := |p| - 1;
      LastReturn(p);
      ReturnsAre(p[..n]);
      OneReturn(p[n - 1], p[n], p[n] / p[n - 1] - 1.0);
      ReturnsNext(p, p[..n], Returns(p[..n]).value, p[n] / p[n - 1] - 1.0);
    }
  }

  function Ones(n: nat): (x: seq<real>)
    ensures |x| == n && forall i :: 0 <= i < n ==> x[i] == 1.0
  {
    seq(n, _ => 1.0)
  }

  /** A constant is a line over the constant factor 1. */
  lemma {:induction false} SpreadIsSse(y: seq<real>, c: real)
    ensures Dot(Ones(|y|), Ones(|y|)) == |y| as real && Dot(Ones(|y|), y) == Sum(y)
    ensures Spread(y, c) == SSE(Ones(|y|), y, c)
  {
    if y == [] {
    } else {
      var n := |y| - 1;
      SpreadIsSse(y[..n], c);
      assert Ones(|y|)[..n] == Ones(n);
    }
  }

  /** The mean is the constant with the least spread, and the only one. */
  lemma MeanMinimises(y: seq<real>, other: real)
    requires y != []
    ensures Spread(y, Mean(y)) <= Spread(y, other) && (Spread(y, Mean(y)) == Spread(y, other) ==> other == Mean(y))
  {
    var x := Ones(|y|);
    SpreadIsSse(y, Mean(y));
    SpreadIsSse(y, other);
    FitMinimises(x, y, other);
  }

  lemma {:induction false} SpreadVanishes(y: seq<real>, c: real)
    ensures Spread(y, c) >= 0.0 && (Spread(y, c) == 0.0 <==> forall i :: 0 <= i < |y| ==> y[i] == c)
  {
    if y == [] {
    } else {
      var n := |y| - 1;
      SpreadVanishes(y[..n], c);
      assert forall i :: 0 <= i < n ==> y[..n][i] == y[i];
    }
  }

  /** The line y = b x passes through every observation. */
  predicate OnLine(x: seq<real>, y: seq<real>, b: real)
    requires |x| == |y|
  {
    forall i :: 0 <= i < |x| ==> Miss(x[i], y[i], b) == 0.0
  }

  lemma {:induction false} SumVanishes(r: seq<real>)
    requires forall i :: 0 <= i < |r| ==> r[i] >= 0.0
    ensures Sum(r) >= 0.0 && (Sum(r) == 0.0 <==> forall i :: 0 <= i < |r| ==> r[i] == 0.0)
  {
    if r == [] {
    } else {
      var n := |r| - 1;
      SumVanishes(r[..n]);
      assert r[n] >= 0.0 && forall i :: 0 <= i < n ==> r[..n][i] == r[i];
    }
  }

  lemma {:induction false} SseIsSum(x: seq<real>, y: seq<real>, b: real, r: seq<real>)
    requires |x| == |y| == |r| && forall i :: 0 <= i < |x| ==> r[i] == Miss(x[i], y[i], b)
    ensures SSE(x, y, b) == Sum(r)
  {
    if x == [] {
    } else {
      var n := |x| - 1;
      SseIsSum(x[..n], y[..n], b, r[..n]);
      LastSquare(x, y, b);
    }
  }

  lemma SseVanishes(x: seq<real>, y: seq<real>, b: real)
    requires |x| == |y|
    ensures SSE(x, y, b) >= 0.0 && (SSE(x, y, b) == 0.0 <==> OnLine(x, y, b))
  {
    var r := seq(|x|, i requires 0 <= i < |x| => Miss(x[i], y[i], b));
    SseIsSum(x, y, b, r);
    SumVanishes(r);
  }

  predicate Constant(y: seq<real>) {
    forall i :: 0 <= i < |y| ==> y[i] == y[0]
  }

  lemma MeanOfConstant(y: seq<real>)
    requires y != []
    ensures Constant(y) <==> Spread(y, Mean(y)) == 0.0
  {
    SpreadVanishes(y, y[0]);
    SpreadVanishes(y, Mean(y));
    MeanMinimises(y, y[0]);
  }

  /** What r2 says: not a number exactly if the returns do not vary; otherwise 1 less it is the share that the
      line leaves of the spread about the mean, which is the least about any constant. So it is 1 exactly for
      an exact line, 0 exactly for a line that leaves it all, and never above 1. */
  lemma R2Explains(x: seq<real>, y: seq<real>, b: real, constant: real)
    requires |x| == |y| && y != []
    ensures Spread(y, Mean(y)) <= Spread(y, constant)
    ensures R2(x, y, b).None? <==> Constant(y)
    ensures R2(x, y, b).Some? ==>
      var r2 := R2(x, y, b).value;
      && LeavesShare(SSE(x, y, b), r2, Spread(y, Mean(y))) && r2 <= 1.0
      && (r2 == 1.0 <==> OnLine(x, y, b)) && (r2 == 0.0 <==> SSE(x, y, b) == Spread(y, Mean(y)))
  {
    MeanMinimises(y, constant);
    MeanOfConstant(y);
    SseVanishes(x, y, b);
    SpreadVanishes(y, Mean(y));
    Share(SSE(x, y, b), Spread(y, Mean(y)));
  }

  predicate LeavesShare(res: real, r2: real, tot: real) { res == (1.0 - r2) * tot }

  lemma Share(res: real, tot: real)
    requires res >= 0.0 && tot >= 0.0
    ensures Explained(res, tot).None? <==> tot == 0.0
    ensures Explained(res, tot).Some? ==>
      var r2 := Explained(res, tot).value;
      LeavesShare(res, r2, tot) && r2 <= 1.0 && (r2 == 1.0 <==> res == 0.0) && (r2 == 0.0 <==> res == tot)
  {
    if tot > 0.0 {
      Quotient(res, tot);
      RatioNonNegative(res, tot);
    }
  }

  lemma Cancel(p: real, y: real, z: real)
    requires p != 0.0 && y * p == z * p
    ensures y == z
  {}

  lemma SameReturn(p: real, q: real, y: real, z: real)
    requires p != 0.0 && IsReturn(p, q, y) && IsReturn(p, q, z)
    ensures y == z
  {
    Cancel(p, y, z);
  }

  /** Prices that are not zero have one sequence of returns. */
  lemma ReturnsUnique(p: seq<real>, y: seq<real>, z: seq<real>)
    requires AreReturns(p, y) && AreReturns(p, z) && forall i :: 0 <= i < |y| ==> p[i] != 0.0
    ensures y == z
  {
    forall i | 0 <= i < |y| ensures y[i] == z[i] { SameReturn(p[i], p[i + 1], y[i], z[i]); }
  }

  /** `beta_to_brent` raises exactly for a zero price before the last, gives no beta exactly when the factor
      never moved, and otherwise the unique least-squares beta of the relative price changes `y`. */
  lemma BetaToBrentFits(p: seq<real>, x: seq<real>, y: seq<real>, other: real)
    requires |p| == |x| + 1
    ensures match BetaToBrent(Some(p), x)
      case Err(e) => e == ZeroDivision && exists i :: 0 <= i < |x| && p[i] == 0.0
      case Ok(None) => (forall i :: 0 <= i < |x| ==> p[i] != 0.0 && x[i] == 0.0)
      case Ok(Some(b)) =>
        && (forall i :: 0 <= i < |x| ==> p[i] != 0.0) && (exists i :: 0 <= i < |x| && x[i] != 0.0)
        && (AreReturns(p, y) ==> FitsBest(x, y, b, other))
  {
    if Returns(p).Some? {
      var z := Returns(p).value;
      ReturnsAre(p);
      FitDefined(x, z);
      if Fit(x, z).Some? && AreReturns(p, y) {
        ReturnsUnique(p, y, z);
        FitMinimises(x, z, other);
      }
    }
  }

  /** No line fits better, only this one so well, and r2 is that of this line. */
  predicate FitsBest(x: seq<real>, y: seq<real>, b: Beta, other: real) {
    && |y| == |x| > 0
    && SSE(x, y, b.beta) <= SSE(x, y, other) && (SSE(x, y, b.beta) == SSE(x, y, other) ==> other == b.beta)
    && b.r2 == R2(x, y, b.beta) && (b.r2.Some? ==> b.r2.value <= 1.0)
  }

  /** A price that follows the factor at beta c has a return on the line through c. */
  lemma SlopeOfReturn(p: real, q: real, x: real, y: real, c: real)
    requires p != 0.0 && IsReturn(p, q, y) && Follows(p, q, x, c)
    ensures Miss(x, y, c) == 0.0
  {
    var z := c * x;
    assert p * (1.0 + z) == p + z * p;
    Cancel(p, y, z);
  }

  predicate Follows(p: real, q: real, x: real, c: real) { q == p * (1.0 + c * x) }

  /** Prices that follow the factor exactly, at some beta, give that beta back, with an r2 of 1 if any. */
  lemma ExactPricesGiveTheirBeta(p: seq<real>, x: seq<real>, c: real)
    requires |p| == |x| + 1 && (forall i :: 0 <= i < |x| ==> p[i] != 0.0) && exists i :: 0 <= i < |x| && x[i] != 0.0
    requires forall i :: 0 <= i < |x| ==> Follows(p[i], p[i + 1], x[i], c)
    ensures var b := BetaToBrent(Some(p), x);
      b.Ok? && b.value.Some? && b.value.value.beta == c && (b.value.value.r2.Some? ==> b.value.value.r2.value == 1.0)
  {
    var y := Returns(p).value;
    ReturnsAre(p);
    BetaToBrentFits(p, x, y, c);
    forall i | 0 <= i < |x| ensures Miss(x[i], y[i], c) == 0.0 { SlopeOfReturn(p[i], p[i + 1], x[i], y[i], c); }
    LineFits(x, y, BetaToBrent(Some(p), x).value.value, c);
  }

  lemma LineFits(x: seq<real>, y: seq<real>, b: Beta, c: real)
    requires |x| == |y| > 0 && OnLine(x, y, c) && SSE(x, y, b.beta) <= SSE(x, y, c)
    requires SSE(x, y, b.beta) == SSE(x, y, c) ==> c == b.beta
    requires b.r2 == R2(x, y, b.beta)
    ensures b.beta == c && (b.r2.Some? ==> b.r2.value == 1.0)
  {
    SseVanishes(x, y, c);
    SseVanishes(x, y, b.beta);
    R2Explains(x, y, c, 0.0);
  }

  lemma R2AtMostOne(x: seq<real>, y: seq<real>, b: real)
    requires |x| == |y| && |y| > 0
    ensures R2(x, y, b).Some? ==> R2(x, y, b).value <= 1.0
  {
    SseNonNegative(x, y, b);
    SpreadNonNegative(y, Mean(y));
    Share(SSE(x, y, b), Spread(y, Mean(y)));
  }

  lemma Quotient(a: real, b: real)
    requires b != 0.0
    ensures a / b * b == a
  {}

  lemma RatioNonNegative(a: real, b: real)
    requires a >= 0.0 && b > 0.0
    ensures a / b >= 0.0
  {}

  // ---- The Brent level at which a facility reaches its margin call.

  datatype Leg = Leg(lendingValue: real, beta: real)

  datatype Solved = Solved(facility: Facility, lendingValueAtTrigger: real, brentTrigger: Option<real>,
                           collateralMoveRequired: real)

  function LendingSum(legs: seq<Leg>): real {
    if legs == [] then 0.0 else LendingSum(legs[..|legs| - 1]) + legs[|legs| - 1].lendingValue
  }

  function Slope(legs: seq<Leg>): real {
    if legs == [] then 0.0
    else Slope(legs[..|legs| - 1]) + legs[|legs| - 1].lendingValue * legs[|legs| - 1].beta
  }

  /** Every leg revalued at its own beta, then summed. */
  function Revalued(legs: seq<Leg>, m: real): real {
    if legs == [] then 0.0
    else Revalued(legs[..|legs| - 1], m) + legs[|legs| - 1].lendingValue * (1.0 + legs[|legs| - 1].beta * m)
  }

  /** The closed form B0 * (1 + (LV_target - LV0) / C). */
  function LevelFor(f: Facility, b0: real, ltvPct: real): real
    requires f.c != 0.0 && ltvPct != 0.0
  {
    b0 * (1.0 + (f.drawn / (ltvPct / 100.0) - f.lendingValue) / f.c)
  }

  method BrentTrigger(clientId: string, drawn: real, marginCallPct: real, legs: seq<Leg>, b0: real)
    returns (r: Result<Solved, Error>)
    ensures r.Err? <==> marginCallPct == 0.0 || LendingSum(legs) == 0.0
    ensures r.Ok? ==>
      var s, f := r.value, r.value.facility;
      && f == Facility(clientId, drawn, LendingSum(legs), Slope(legs), marginCallPct)
      && s.brentTrigger == (if f.c != 0.0 then Some(LevelFor(f, b0, marginCallPct)) else None)
      && s.lendingValueAtTrigger * marginCallPct == 100.0 * drawn
      && (1.0 + s.collateralMoveRequired) * f.lendingValue == s.lendingValueAtTrigger
  {
    var lv0, c := 0.0, 0.0;
    for i := 0 to |legs|
      invariant lv0 == LendingSum(legs[..i]) && c == Slope(legs[..i])
    {
      assert legs[..i + 1][..i] == legs[..i];
      lv0 := lv0 + legs[i].lendingValue;
      c := c + legs[i].lendingValue * legs[i].beta;
    }
    assert legs[..|legs|] == legs;
    var trig := marginCallPct / 100.0;
    if trig == 0.0 { return Err(ZeroDivision); }
    var target := drawn / trig;
    if lv0 == 0.0 { return Err(ZeroDivision); }
    var f := Facility(clientId, drawn, lv0, c, marginCallPct);
    var level := if c != 0.0 then Some(LevelFor(f, b0, marginCallPct)) else None;
    var move := target / lv0 - 1.0;
    assert target * trig == drawn;
    assert target * marginCallPct == 100.0 * drawn;
    assert (1.0 + move) * lv0 == target;
    return Ok(Solved(f, target, level, move));
  }

  /** The precomputed form LV0 + C*m is the sum of the legs, each moved at its own beta. */
  lemma {:induction false} PrecomputedIsExact(legs: seq<Leg>, m: real)
    ensures Revalued(legs, m) == LendingSum(legs) + Slope(legs) * m
  {
    if legs == [] {
    } else {
      var init, last := legs[..|legs| - 1], legs[|legs| - 1];
      PrecomputedIsExact(init, m);
      var v, b, s := last.lendingValue, last.beta, Slope(init);
      assert v * (1.0 + b * m) == v + v * b * m;
      assert (s + v * b) * m == s * m + v * b * m;
    }
  }

  function Mult(b0: real, level: real): real
    requires b0 != 0.0
  {
    level / b0 - 1.0
  }

  /** At the solved level the lending value is the target; elsewhere it misses it on the side C decides. */
  lemma LendingAtLevel(f: Facility, b0: real, pct: real, level: real)
    requires f.c != 0.0 && pct > 0.0 && b0 > 0.0
    ensures var target := f.drawn / (pct / 100.0);
      var star, lv := LevelFor(f, b0, pct), LendingAt(f, Mult(b0, level));
      && (lv == target <==> level == star)
      && (lv < target <==> if f.c > 0.0 then level < star else level > star)
  {}

  lemma Signs(a: real, b: real)
    requires a != 0.0
    ensures a * b == 0.0 <==> b == 0.0
    ensures a > 0.0 ==> (a * b < 0.0 <==> b < 0.0)
    ensures a < 0.0 ==> (a * b < 0.0 <==> b > 0.0)
  {}

  /** Reaching an LTV, in lending-value terms. */
  lemma LtvAgainstLevel(f: Facility, m: real, pct: real)
    requires pct > 0.0 && LendingAt(f, m) > 0.0
    ensures var target, s := f.drawn / (pct / 100.0), FacilityAt(f, m);
      && (s.ltv >= pct <==> LendingAt(f, m) <= target)
      && (s.ltv > pct <==> LendingAt(f, m) < target)
  {
    var lv, target := LendingAt(f, m), f.drawn / (pct / 100.0);
    RatioAgainstLevel(100.0 * f.drawn, lv, pct);
    assert target * (pct / 100.0) == f.drawn;
    assert target * pct == 100.0 * f.drawn;
    Signs(pct, lv - target);
    assert pct * (lv - target) == pct * lv - 100.0 * f.drawn;
  }

  /** The solved level is the one Brent price with the trigger LTV. */
  lemma TriggerLevelUnique(f: Facility, b0: real, level: real)
    requires f.c != 0.0 && f.triggerLtv > 0.0 && f.drawn > 0.0 && b0 > 0.0
    requires LendingAt(f, Mult(b0, level)) != 0.0
    ensures FacilityAt(f, Mult(b0, level)).ltv == f.triggerLtv <==> level == LevelFor(f, b0, f.triggerLtv)
  {
    var lv, target := LendingAt(f, Mult(b0, level)), f.drawn / (f.triggerLtv / 100.0);
    LendingAtLevel(f, b0, f.triggerLtv, level);
    assert target > 0.0;
    if lv > 0.0 {
      LtvAgainstLevel(f, Mult(b0, level), f.triggerLtv);
    } else {
      NegativeRatio(100.0 * f.drawn, lv);
    }
  }

  /** While the lending value is positive, the facility is breached at or beyond the solved level. */
  lemma BreachedBeyondTrigger(f: Facility, b0: real, level: real)
    requires f.c != 0.0 && f.triggerLtv > 0.0 && b0 > 0.0
    requires LendingAt(f, Mult(b0, level)) > 0.0
    ensures var star := LevelFor(f, b0, f.triggerLtv);
      FacilityAt(f, Mult(b0, level)).breached <==> if f.c > 0.0 then level <= star else level >= star
  {
    LtvAgainstLevel(f, Mult(b0, level), f.triggerLtv);
    LendingAtLevel(f, b0, f.triggerLtv, level);
  }

  /** A plan that watches `LTV > x` fires exactly beyond the Brent level solved for x. */
  lemma LtvPlanFires(facts: Facts, level: real, market: Market, fid: string, x: real, drafted: real)
    requires ShockAt(facts, level) == Ok(market) && facts.brentNow > 0.0 && x > 0.0
    requires '.' !in fid && fid in facts.facilities && facts.facilities[fid].c != 0.0
    requires LendingAt(facts.facilities[fid], market.mult) > 0.0
    ensures var f := facts.facilities[fid];
      var o := Evaluate(Trigger(fid + ".LTV", ">", drafted, "deterministic"), market, Some(x));
      var star := LevelFor(f, facts.brentNow, x);
      o.Ok? && (o.value.hit <==> if f.c > 0.0 then level < star else level > star)
  {
    var f := facts.facilities[fid];
    assert market.mult == Mult(facts.brentNow, level) && market.facilities[fid] == FacilityAt(f, market.mult);
    ResolveReads(market, fid);
    LtvAgainstLevel(f, market.mult, x);
    LendingAtLevel(f, facts.brentNow, x, level);
  }

  // ---- The offline shock, which drops small moves.

  function Abs(a: real): real { if a < 0.0 then -a else a }

  /** The moves of more than 1000 USD. */
  function Large(moves: seq<Move>): seq<Move> {
    if moves == [] then []
    else
      var before, last := Large(moves[..|moves| - 1]), moves[|moves| - 1];
      if Abs(last.usdDelta) > 1000.0 then before + [last] else before
  }

  /** Exactly the moves of more than 1000 USD either way stay, each as often as it was there. */
  lemma {:induction false} LargeKeeps(moves: seq<Move>, x: Move)
    ensures multiset(Large(moves))[x] ==
      if -1000.0 <= x.usdDelta <= 1000.0 then 0 else multiset(moves)[x]
  {
    if moves == [] {
    } else {
      var init, last := moves[..|moves| - 1], moves[|moves| - 1];
      LargeKeeps(init, x);
      assert moves == init + [last];
    }
  }

  /** One client of the offline shock: the deltas kept, their sum, and the kept moves sorted. */
  method OfflineClient(own: seq<Move>) returns (usdDelta: real, moves: seq<Move>)
    ensures usdDelta == Total(Large(own)) && moves == SortMoves(Large(own))
  {
    var deltas: seq<Move> := [];
    for i := 0 to |own|
      invariant deltas == Large(own[..i])
    {
      assert own[..i + 1][..i] == own[..i];
      if Abs(own[i].usdDelta) > 1000.0 { deltas := deltas + [own[i]]; }
    }
    assert own[..|own|] == own;
    usdDelta, moves := Total(deltas), SortMoves(deltas);
  }

  /** Dropping small moves costs at most 1000 USD for each one dropped. */
  lemma {:induction false} OfflineDeltaClose(own: seq<Move>)
    ensures |Large(own)| <= |own|
    ensures Abs(Total(own) - Total(Large(own))) <= 1000.0 * (|own| - |Large(own)|) as real
  {
    if own == [] {
    } else {
      OfflineDeltaClose(own[..|own| - 1]);
      if Abs(own[|own| - 1].usdDelta) > 1000.0 {
        TotalOfOneMore(Large(own[..|own| - 1]), own[|own| - 1]);
      }
    }
  }

  lemma {:induction false} InsertMoveLarge(moves: seq<Move>, x: Move)
    requires Ascending(moves)
    ensures Large(InsertMove(moves, x)) ==
      if Abs(x.usdDelta) > 1000.0 then InsertMove(Large(moves), x) else Large(moves)
  {
    if moves == [] || moves[|moves| - 1].usdDelta <= x.usdDelta {
      assert (moves + [x])[..|moves|] == moves;
      LargeBelow(moves, x.usdDelta);
    } else {
      var init, last := moves[..|moves| - 1], moves[|moves| - 1];
      InsertMoveLarge(init, x);
      assert (InsertMove(init, x) + [last])[..|InsertMove(init, x)|] == InsertMove(init, x);
      assert (Large(init) + [last])[..|Large(init)|] == Large(init);
    }
  }

  lemma {:induction false} LargeBelow(moves: seq<Move>, d: real)
    requires forall i :: 0 <= i < |moves| ==> moves[i].usdDelta <= d
    ensures forall i :: 0 <= i < |Large(moves)| ==> Large(moves)[i].usdDelta <= d
  {
    if moves == [] {
    } else {
      LargeBelow(moves[..|moves| - 1], d);
    }
  }

  /** Dropping small moves before the sort or after it comes to the same. */
  lemma {:induction false} SortMovesLarge(moves: seq<Move>)
    ensures Large(SortMoves(moves)) == SortMoves(Large(moves))
  {
    if moves == [] {
    } else {
      var init, last := moves[..|moves| - 1], moves[|moves| - 1];
      SortMovesLarge(init);
      SortMovesAscends(init);
      InsertMoveLarge(SortMoves(init), last);
      assert (Large(init) + [last])[..|Large(init)|] == Large(init);
    }
  }

  /** What the offline shock makes of a client's own moves, against what the engine shows: the same moves in
      the same order but for the small ones, and a delta at most 1000 USD off for each move left out. */
  ghost predicate OfflineMatches(own: seq<Move>, shown: ClientState) {
    && SortMoves(Large(own)) == Large(shown.moves)
    && Abs(shown.deltaUsd - Total(Large(own))) <= 1000.0 * (|own| - |Large(own)|) as real
  }

  lemma OfflineClose(own: seq<Move>, shown: ClientState)
    requires shown.moves == SortMoves(own) && shown.deltaUsd == Total(own)
    ensures OfflineMatches(own, shown)
  {
    SortMovesLarge(own);
    OfflineDeltaClose(own);
  }

  /** It matches for every client of every shocked market. */
  lemma OfflineClientAgrees(facts: Facts, level: real, market: Market, cid: string)
    requires ShockAt(facts, level) == Ok(market) && cid in market.clients
    ensures OfflineMatches(OwnMoves(BookMoves(facts.positions, market.mult), cid), market.clients[cid])
  {
    ShockedClient(facts, level, market, cid);
    OfflineClose(OwnMoves(BookMoves(facts.positions, market.mult), cid), market.clients[cid]);
  }

  datatype OfflineFacility = OfflineFacility(lendingValue: real, ltv: real, trigger: real, breached: bool)

  function OfflineFacilityAt(s: Solved, mult: real): OfflineFacility
    requires LendingAt(s.facility, mult) != 0.0
  {
    var lv := s.facility.lendingValue + s.facility.c * mult;
    var ltv := 100.0 * s.facility.drawn / lv;
    OfflineFacility(lv, ltv, s.facility.triggerLtv, ltv >= s.facility.triggerLtv)
  }

  /** On facilities the offline shock and the app's engine agree field by field, at every price. */
  lemma OfflineAgrees(facts: Facts, level: real, market: Market, fid: string, s: Solved)
    requires ShockAt(facts, level) == Ok(market)
    requires fid in facts.facilities && facts.facilities[fid] == s.facility
    ensures LendingAt(s.facility, Mult(facts.brentNow, level)) != 0.0
    ensures var on, off := market.facilities[fid], OfflineFacilityAt(s, Mult(facts.brentNow, level));
      off == OfflineFacility(on.lendingValue, on.ltv, on.triggerLtv, on.breached)
  {
    assert market.mult == Mult(facts.brentNow, level);
    assert market.facilities[fid] == FacilityAt(s.facility, market.mult);
  }

  // ---- The closed forms the plan texts quote.

  /** `at_brent`, with its hard-coded 70 per cent trigger. */
  datatype AtBrent = AtBrent(lendingValue: real, ltv: real, cureCash: real, lvGap: real, topupMv: real)

  function AtBrentLevel(f: Facility, b0: real, level: real, advanceRate: real): AtBrent
    requires b0 != 0.0 && LendingAt(f, Mult(b0, level)) != 0.0 && advanceRate != 0.0
  {
    var lv := LendingAt(f, Mult(b0, level));
    var gap := f.drawn / 0.70 - lv;
    AtBrent(lv, 100.0 * f.drawn / lv, f.drawn - 0.70 * lv, gap, gap / (advanceRate / 100.0))
  }

  /** `at_brent` undoes `brent_for_ltv`: at the solved level the LTV is the one asked for. */
  lemma AtBrentInverts(f: Facility, b0: real, pct: real, advanceRate: real)
    requires f.c != 0.0 && pct > 0.0 && b0 > 0.0 && f.drawn > 0.0 && advanceRate != 0.0
    ensures var star := LevelFor(f, b0, pct);
      && LendingAt(f, Mult(b0, star)) > 0.0
      && AtBrentLevel(f, b0, star, advanceRate).ltv == pct
  {}

  /** Both quoted cures restore exactly 70 per cent: cash against the loan, or stock at its advance rate. */
  lemma QuotedCuresReachSeventy(f: Facility, b0: real, level: real, advanceRate: real)
    requires b0 != 0.0 && LendingAt(f, Mult(b0, level)) != 0.0 && advanceRate != 0.0 && f.drawn > 0.0
    ensures var a := AtBrentLevel(f, b0, level, advanceRate);
      && 100.0 * (f.drawn - a.cureCash) / a.lendingValue == 70.0
      && 100.0 * f.drawn / (a.lendingValue + a.lvGap) == 70.0
      && 100.0 * f.drawn / (a.lendingValue + a.topupMv * (advanceRate / 100.0)) == 70.0
  {}
}
