/** `TriangulationPipeline.TDOALocalizer`: the Gauss-Newton solver that finds the epicentre
  * (x, y) whose distance differences to the stations, divided by the wave speed, match the
  * observed arrival-time differences relative to the first station. Each iteration linearises
  * the residuals, forms the 2x2 normal equations (J^T J) d = -J^T r and solves them by
  * Cramer's rule. */
module TdoaLocalizer {
  import opened Wrappers
  import opened RealMath

  const MaxIterations: nat := 50
  /** Step length below which the iteration stops. */
  const Eps: real := 0.000001
  /** Determinant magnitude below which the geometry counts as degenerate. */
  const DetCutoff: real := 0.000000000001

  /** A station in the local plane (km) with its arrival time (s). */
  datatype Station = Station(x: real, y: real, arrivalTime: real)

  datatype Point = Point(x: real, y: real)

  /** The two exceptions of `localize`: fewer than three stations, and a (near) singular
    * normal matrix. */
  datatype LocalizeError = TooFewStations | DegenerateGeometry

  /** What `localize` returns when it does not throw: a point, or a point whose coordinates
    * are NaN because some station distance was zero (0/0 in the Jacobian). */
  datatype Estimate = At(p: Point) | NotANumber

  /** One linearised residual: the Jacobian row (jx, jy) and the residual r. */
  datatype Row = Row(jx: real, jy: real, r: real)

  /** The normal equations A d = b with A = [[a00, a01], [a10, a11]]. */
  datatype Normal = Normal(a00: real, a01: real, a10: real, a11: real, b0: real, b1: real)

  // ---------------------------------------------------------------- starting point

  function SumX(s: seq<Station>): real
  {
    if s == [] then 0.0 else SumX(s[..|s| - 1]) + s[|s| - 1].x
  }

  function SumY(s: seq<Station>): real
  {
    if s == [] then 0.0 else SumY(s[..|s| - 1]) + s[|s| - 1].y
  }

  /** The centre of mass of the stations, the first approximation. */
  function Centroid(s: seq<Station>): Point
    requires |s| > 0
  {
    Point(SumX(s) / |s| as real, SumY(s) / |s| as real)
  }

  /** The averaging loop at the start of `localize`. */
  method StartingPoint(stations: seq<Station>) returns (p: Point)
    requires |stations| > 0
    ensures p == Centroid(stations)
  {
    var x, y := 0.0, 0.0;
    for i := 0 to |stations|
      invariant x == SumX(stations[..i]) && y == SumY(stations[..i])
    {
      assert stations[..i + 1][..i] == stations[..i];
      x := x + stations[i].x;
      y := y + stations[i].y;
    }
    assert stations[..|stations|] == stations;
    p := Point(x / |stations| as real, y / |stations| as real);
  }

  // ---------------------------------------------------------------- linearisation

  /** The residual and Jacobian row of station `s` relative to the reference station `ref` at
    * the point `p`; `None` when a distance is zero (the source then computes 0/0). */
  function RowAt(trig: Trig, ref: Station, s: Station, p: Point, v: real): Option<Row>
    requires v != 0.0
  {
    var dx0 := p.x - ref.x;
    var dy0 := p.y - ref.y;
    var d0 := trig.hypot(dx0, dy0);
    var dx := p.x - s.x;
    var dy := p.y - s.y;
    var d := trig.hypot(dx, dy);
    if d0 == 0.0 || d == 0.0 then None
    else
      var dtObs := s.arrivalTime - ref.arrivalTime;
      var dtModel := (d - d0) / v;
      Some(Row((dx / d - dx0 / d0) / v, (dy / d - dy0 / d0) / v, dtModel - dtObs))
  }

  /** Every station after the first has a non-zero distance, and so does the first. */
  predicate AllFinite(trig: Trig, stations: seq<Station>, p: Point, v: real)
    requires v != 0.0 && |stations| > 0
  {
    forall i :: 1 <= i < |stations| ==> RowAt(trig, stations[0], stations[i], p, v).Some?
  }

  /** The m = |stations| - 1 rows of the linearised system. */
  function Rows(trig: Trig, stations: seq<Station>, p: Point, v: real): (rows: seq<Row>)
    requires v != 0.0 && |stations| > 0 && AllFinite(trig, stations, p, v)
    ensures |rows| == |stations| - 1
  {
    seq(|stations| - 1, i requires 0 <= i < |stations| - 1 =>
      RowAt(trig, stations[0], stations[i + 1], p, v).value)
  }

  /** The rows held in the source's `J` and `r` arrays. */
  function ArrayRows(jac: array2<real>, r: array<real>): (rows: seq<Row>)
    requires jac.Length0 == r.Length && jac.Length1 == 2
    reads jac, r
    ensures |rows| == r.Length
  {
    seq(r.Length, i requires 0 <= i < r.Length reads jac, r => Row(jac[i, 0], jac[i, 1], r[i]))
  }

  /** The row loop of one iteration: fills `J` and `r`, or reports a zero distance. */
  method Linearize(trig: Trig, stations: seq<Station>, p: Point, v: real)
    returns (finite: bool, jac: array2<real>, r: array<real>)
    requires v != 0.0 && |stations| > 0
    ensures finite <==> AllFinite(trig, stations, p, v)
    ensures jac.Length0 == r.Length == |stations| - 1 && jac.Length1 == 2
    ensures finite ==> ArrayRows(jac, r) == Rows(trig, stations, p, v)
  {
    var m := |stations| - 1;
    jac := new real[m, 2];
    r := new real[m];
    var ref := stations[0];
    for i := 1 to |stations|
      invariant forall k :: 1 <= k < i ==> RowAt(trig, ref, stations[k], p, v).Some?
      invariant forall k :: 1 <= k < i ==>
                  Row(jac[k - 1, 0], jac[k - 1, 1], r[k - 1]) == RowAt(trig, ref, stations[k], p, v).value
    {
      var row := RowAt(trig, ref, stations[i], p, v);
      if row.None? {
        return false, jac, r;
      }
      StoreRow(jac, r, i - 1, row.value);
    }
    finite := true;
    assert forall k :: 0 <= k < m ==> ArrayRows(jac, r)[k] == Rows(trig, stations, p, v)[k];
  }

  /** Writes one row into `J` and `r`, leaving the other rows as they are. */
  method StoreRow(jac: array2<real>, r: array<real>, k: nat, w: Row)
    requires jac.Length0 == r.Length && jac.Length1 == 2 && k < r.Length
    modifies jac, r
    ensures Row(jac[k, 0], jac[k, 1], r[k]) == w
    ensures forall j :: 0 <= j < r.Length && j != k ==>
              Row(jac[j, 0], jac[j, 1], r[j]) == old(Row(jac[j, 0], jac[j, 1], r[j]))
  {
    r[k] := w.r;
    jac[k, 0] := w.jx;
    jac[k, 1] := w.jy;
  }

  // ---------------------------------------------------------------- normal equations

  /** A = J^T J and b = -J^T r, summed row by row. */
  function Accumulate(rows: seq<Row>): Normal
  {
    if rows == [] then Normal(0.0, 0.0, 0.0, 0.0, 0.0, 0.0)
    else
      var n := Accumulate(rows[..|rows| - 1]);
      var w := rows[|rows| - 1];
      Normal(n.a00 + Times(w.jx, w.jx), n.a01 + Times(w.jx, w.jy),
             n.a10 + Times(w.jy, w.jx), n.a11 + Times(w.jy, w.jy),
             n.b0 - Times(w.jx, w.r), n.b1 - Times(w.jy, w.r))
  }

  /** The accumulation loop over the rows of `J` and `r`. */
  method NormalEquations(jac: array2<real>, r: array<real>) returns (n: Normal)
    requires jac.Length0 == r.Length && jac.Length1 == 2
    ensures n == Accumulate(ArrayRows(jac, r))
  {
    ghost var rows := ArrayRows(jac, r);
    var a00, a01, a10, a11, b0, b1 := 0.0, 0.0, 0.0, 0.0, 0.0, 0.0;
    for i := 0 to r.Length
      invariant Normal(a00, a01, a10, a11, b0, b1) == Accumulate(rows[..i])
    {
      assert rows[..i + 1][..i] == rows[..i];
      var jx, jy := jac[i, 0], jac[i, 1];
      a00 := a00 + Times(jx, jx);
      a01 := a01 + Times(jx, jy);
      a10 := a10 + Times(jy, jx);
      a11 := a11 + Times(jy, jy);
      b0 := b0 - Times(jx, r[i]);
      b1 := b1 - Times(jy, r[i]);
    }
    assert rows[..r.Length] == rows;
    n := Normal(a00, a01, a10, a11, b0, b1);
  }

  /** The normal matrix J^T J is symmetric. */
  lemma {:induction false} AccumulateSymmetric(rows: seq<Row>)
    ensures Accumulate(rows).a01 == Accumulate(rows).a10
  {
    if rows != [] {
      AccumulateSymmetric(rows[..|rows| - 1]);
    }
  }

  /** Zero residuals give a zero right-hand side. */
  lemma {:induction false} AccumulateZeroResiduals(rows: seq<Row>)
    requires forall i :: 0 <= i < |rows| ==> rows[i].r == 0.0
    ensures Accumulate(rows).b0 == 0.0 && Accumulate(rows).b1 == 0.0
  {
    if rows != [] {
      AccumulateZeroResiduals(rows[..|rows| - 1]);
    }
  }

  function Det(n: Normal): real
  {
    Times(n.a00, n.a11) - Times(n.a01, n.a10)
  }

  /** Cramer's rule for the 2x2 system; `None` when |det| < 1e-12. */
  function Solve(n: Normal): Option<Point>
  {
    var det := Det(n);
    if Abs(det) < DetCutoff then None
    else Some(Point((Times(n.b0, n.a11) - Times(n.b1, n.a01)) / det,
                    (Times(n.a00, n.b1) - Times(n.a10, n.b0)) / det))
  }

  /** The Cramer step solves A d = b exactly, and it is refused exactly when the
    * determinant is below the cutoff. */
  lemma SolveSolves(n: Normal)
    ensures Solve(n).None? <==> Abs(n.a00 * n.a11 - n.a01 * n.a10) < DetCutoff
    ensures Solve(n).Some? ==>
              n.a00 * Solve(n).value.x + n.a01 * Solve(n).value.y == n.b0 &&
              n.a10 * Solve(n).value.x + n.a11 * Solve(n).value.y == n.b1
  {
    var det := Det(n);
    assert det == n.a00 * n.a11 - n.a01 * n.a10;
    if Abs(det) >= DetCutoff {
      var nx := Times(n.b0, n.a11) - Times(n.b1, n.a01);
      var ny := Times(n.a00, n.b1) - Times(n.a10, n.b0);
      assert Solve(n).value == Point(nx / det, ny / det);
      Cramer(n.a00, n.a01, n.a10, n.a11, n.b0, n.b1);
    }
  }

  /** Cramer's rule for a 2x2 system with a non-zero determinant. */
  lemma Cramer(a00: real, a01: real, a10: real, a11: real, b0: real, b1: real)
    requires a00 * a11 - a01 * a10 != 0.0
    ensures var det := a00 * a11 - a01 * a10;
            var x, y := (b0 * a11 - b1 * a01) / det, (a00 * b1 - a10 * b0) / det;
            a00 * x + a01 * y == b0 && a10 * x + a11 * y == b1
  {
    var det := a00 * a11 - a01 * a10;
    var nx, ny := b0 * a11 - b1 * a01, a00 * b1 - a10 * b0;
    var x, y := nx / det, ny / det;
    assert x * det == nx;
    assert y * det == ny;
    assert (a00 * x + a01 * y) * det == a00 * (x * det) + a01 * (y * det);
    assert a00 * nx + a01 * ny == b0 * det;
    Cancel(a00 * x + a01 * y, b0, det);
    assert (a10 * x + a11 * y) * det == a10 * (x * det) + a11 * (y * det);
    assert a10 * nx + a11 * ny == b1 * det;
    Cancel(a10 * x + a11 * y, b1, det);
  }

  lemma Cancel(u: real, v: real, d: real)
    requires d != 0.0 && u * d == v * d
    ensures u == v
  {
    assert (u - v) * d == 0.0;
  }

  // ---------------------------------------------------------------- iteration

  /** How one iteration ends: a step to take, a zero distance (NaN from then on), or a
    * degenerate normal matrix. */
  datatype StepOutcome = Move(step: Point) | Diverged | Degenerate

  /** One Gauss-Newton iteration at `p`. */
  function StepAt(trig: Trig, stations: seq<Station>, p: Point, v: real): StepOutcome
    requires v != 0.0 && |stations| > 0
  {
    if !AllFinite(trig, stations, p, v) then Diverged
    else
      match Solve(Accumulate(Rows(trig, stations, p, v)))
      case None => Degenerate
      case Some(step) => Move(step)
  }

  /** At most `remaining` Gauss-Newton steps from `p`, stopping after the first step shorter
    * than `Eps`. */
  function Iterate(trig: Trig, stations: seq<Station>, v: real, p: Point, remaining: nat)
    : Result<Estimate, LocalizeError>
    requires v != 0.0 && |stations| > 0
    decreases remaining, 1
  {
    if remaining == 0 then Ok(At(p))
    else AfterStep(trig, stations, v, p, remaining, StepAt(trig, stations, p, v))
  }

  /** How the loop goes on once the iteration at `p` has the outcome `o`. */
  function AfterStep(trig: Trig, stations: seq<Station>, v: real, p: Point, remaining: nat,
                     o: StepOutcome): Result<Estimate, LocalizeError>
    requires v != 0.0 && |stations| > 0 && remaining > 0
    decreases remaining, 0
  {
    match o
    case Diverged => Ok(NotANumber)
    case Degenerate => Err(DegenerateGeometry)
    case Move(step) =>
      var q := Point(p.x + step.x, p.y + step.y);
      if trig.hypot(step.x, step.y) < Eps then Ok(At(q))
      else Iterate(trig, stations, v, q, remaining - 1)
  }

  /** What `localize` computes: an error for fewer than three stations, otherwise at most
    * 50 iterations from the centroid. */
  function LocalizeSpec(trig: Trig, stations: seq<Station>, v: real): Result<Estimate, LocalizeError>
    requires v != 0.0
  {
    if |stations| < 3 then Err(TooFewStations)
    else Iterate(trig, stations, v, Centroid(stations), MaxIterations)
  }

  /** `localize`. Once a distance is zero the source keeps iterating on NaN coordinates
    * without throwing; the method returns that outcome at once. */
  method Localize(trig: Trig, stations: seq<Station>, waveSpeed: real)
    returns (res: Result<Estimate, LocalizeError>)
    requires waveSpeed != 0.0
    ensures res == LocalizeSpec(trig, stations, waveSpeed)
  {
    if |stations| < 3 {
      return Err(TooFewStations);
    }
    var start := StartingPoint(stations);
    var x, y := start.x, start.y;
    var iter := 0;
    while iter < MaxIterations
      invariant 0 <= iter <= MaxIterations
      invariant LocalizeSpec(trig, stations, waveSpeed)
                == Iterate(trig, stations, waveSpeed, Point(x, y), MaxIterations - iter)
    {
      var done, out, next := Iteration(trig, stations, waveSpeed, Point(x, y), MaxIterations - iter);
      if done {
        return out;
      }
      x, y := next.x, next.y;
      iter := iter + 1;
    }
    return Ok(At(Point(x, y)));
  }

  /** One pass of the iteration loop: a Gauss-Newton step, then the moves and exits of the
    * loop body. */
  method Iteration(trig: Trig, stations: seq<Station>, v: real, p: Point, remaining: nat)
    returns (done: bool, out: Result<Estimate, LocalizeError>, next: Point)
    requires v != 0.0 && |stations| > 0 && remaining > 0
    ensures done ==> out == Iterate(trig, stations, v, p, remaining)
    ensures !done ==> Iterate(trig, stations, v, p, remaining) == Iterate(trig, stations, v, next, remaining - 1)
  {
    var outcome := GaussNewtonStep(trig, stations, p, v);
    assert Iterate(trig, stations, v, p, remaining) == AfterStep(trig, stations, v, p, remaining, outcome);
    next := p;
    match outcome
    case Diverged =>
      return true, Ok(NotANumber), next;
    case Degenerate =>
      return true, Err(DegenerateGeometry), next;
    case Move(step) =>
      next := Point(p.x + step.x, p.y + step.y);
      if trig.hypot(step.x, step.y) < Eps {
        return true, Ok(At(next)), next;
      }
      return false, Ok(At(next)), next;
  }

  /** The body of one iteration: the row loop, the accumulation loop and the Cramer step. */
  method GaussNewtonStep(trig: Trig, stations: seq<Station>, p: Point, v: real)
    returns (outcome: StepOutcome)
    requires v != 0.0 && |stations| > 0
    ensures outcome == StepAt(trig, stations, p, v)
  {
    var finite, jac, r := Linearize(trig, stations, p, v);
    if !finite {
      return Diverged;
    }
    var n := NormalEquations(jac, r);
    var det := Times(n.a00, n.a11) - Times(n.a01, n.a10);
    if Abs(det) < DetCutoff {
      return Degenerate;
    }
    outcome := Move(Point((Times(n.b0, n.a11) - Times(n.b1, n.a01)) / det,
                          (Times(n.a00, n.b1) - Times(n.a10, n.b0)) / det));
  }

  // ---------------------------------------------------------------- properties

  /** `localize` throws the "at least 3 stations" error exactly for fewer than three. */
  lemma LocalizeTooFewStations(trig: Trig, stations: seq<Station>, v: real)
    requires v != 0.0
    ensures LocalizeSpec(trig, stations, v) == Err(TooFewStations) <==> |stations| < 3
  {
    if |stations| >= 3 {
      IterateNeverTooFew(trig, stations, v, Centroid(stations), MaxIterations);
    }
  }

  lemma {:induction false} IterateNeverTooFew(trig: Trig, stations: seq<Station>, v: real, p: Point, remaining: nat)
    requires v != 0.0 && |stations| > 0
    ensures Iterate(trig, stations, v, p, remaining) != Err(TooFewStations)
    decreases remaining
  {
    if remaining > 0 && StepAt(trig, stations, p, v).Move? {
      var step := StepAt(trig, stations, p, v).step;
      IterateNeverTooFew(trig, stations, v, Point(p.x + step.x, p.y + step.y), remaining - 1);
    }
  }

  /** The modelled arrival-time differences at `p` match the observed ones exactly. */
  predicate Consistent(trig: Trig, stations: seq<Station>, p: Point, v: real)
    requires v != 0.0 && |stations| > 0 && AllFinite(trig, stations, p, v)
  {
    forall i :: 0 <= i < |stations| - 1 ==> Rows(trig, stations, p, v)[i].r == 0.0
  }

  /** A point that explains every arrival-time difference exactly is a fixed point: with a
    * non-degenerate geometry the solver takes a zero step and returns it (for a `hypot` that
    * is 0 at the origin). */
  lemma ExactSolutionIsFixedPoint(trig: Trig, stations: seq<Station>, v: real, p: Point, remaining: nat)
    requires v != 0.0 && |stations| > 0 && remaining > 0
    requires trig.hypot(0.0, 0.0) == 0.0
    requires AllFinite(trig, stations, p, v) && Consistent(trig, stations, p, v)
    requires Solve(Accumulate(Rows(trig, stations, p, v))).Some?
    ensures Iterate(trig, stations, v, p, remaining) == Ok(At(p))
  {
    var rows := Rows(trig, stations, p, v);
    AccumulateZeroResiduals(rows);
    var step := Solve(Accumulate(rows)).value;
    assert step == Point(0.0, 0.0);
  }
}
