/**
 * The radial distribution function analysis (PQAnalysis/analysis/rdf/rdf.py):
 * how the bins are set up from any two of the number of bins, the bin
 * width and the largest radius, how distances are counted into bins,
 * the shell-volume normalisation and the running integral.
 *
 * A cell of the trajectory is reduced to its box lengths and whether it
 * is a vacuum cell. The distances of one frame from one reference atom
 * are an input: computing them through the cell's minimum image is not
 * part of this model.
 */
module Rdf {

  import opened Common
  import opened CellMath

  datatype CellBox = CellBox(lengths: Vec3, vacuum: bool)

  /** `check_trajectory_pbc`: every cell of the trajectory is periodic. */
  predicate AllPeriodic(cells: seq<CellBox>) { forall i :: 0 <= i < |cells| ==> !cells[i].vacuum }

  /** `check_trajectory_vacuum`: every cell of the trajectory is a vacuum cell. */
  predicate AllVacuum(cells: seq<CellBox>) { forall i :: 0 <= i < |cells| ==> cells[i].vacuum }

  function Min3(v: Vec3): (m: real)
    ensures m <= v[0] && m <= v[1] && m <= v[2] && (m == v[0] || m == v[1] || m == v[2])
  {
    if v[0] <= v[1] && v[0] <= v[2] then v[0] else if v[1] <= v[2] then v[1] else v[2]
  }

  /** `np.min` over the box lengths of all cells. */
  function MinLength(cells: seq<CellBox>): (m: real)
    requires cells != []
    ensures forall i, j :: 0 <= i < |cells| && 0 <= j < 3 ==> m <= cells[i].lengths[j]
  {
    var last := cells[|cells| - 1];
    var here := Min3(last.lengths);
    if |cells| == 1 then here
    else
      var rest := MinLength(cells[..|cells| - 1]);
      assert forall i :: 0 <= i < |cells| - 1 ==> cells[..|cells| - 1][i] == cells[i];
      if rest <= here then rest else here
  }

  /**
   * `_infer_r_max`: half the smallest box length; an RDFError for a
   * trajectory that is not periodic, and numpy's ValueError when there
   * is no cell at all.
   */
  function InferRMax(cells: seq<CellBox>): (r: Result<real>)
    ensures !AllPeriodic(cells) ==> r == Err("RDFError")
    ensures AllPeriodic(cells) && cells == [] ==> r == Err("ValueError")
    ensures r.Ok? ==> cells != [] && r.value == MinLength(cells) / 2.0
  {
    if !AllPeriodic(cells) then Err("RDFError")
    else if cells == [] then Err("ValueError")
    else Ok(MinLength(cells) / 2.0)
  }

  /**
   * `_check_r_max`: for a periodic trajectory, a radius beyond half the
   * smallest box length is lowered to it (with a warning); otherwise the
   * radius is kept.
   */
  function CheckRMax(rMax: real, cells: seq<CellBox>): (r: Result<real>)
    ensures r.Err? <==> AllPeriodic(cells) && cells == []
    ensures r.Ok? ==> r.value <= rMax
    ensures r.Ok? && AllPeriodic(cells) ==> forall i, j :: 0 <= i < |cells| && 0 <= j < 3 ==> 2.0 * r.value <= cells[i].lengths[j]
    ensures r.Ok? && AllPeriodic(cells) && rMax <= MinLength(cells) / 2.0 ==> r.value == rMax
    ensures r.Ok? && !AllPeriodic(cells) ==> r.value == rMax
  {
    if AllPeriodic(cells) then
      var limit := InferRMax(cells);
      if limit.Err? then Err(limit.error)
      else if rMax > limit.value then Ok(limit.value)
      else Ok(rMax)
    else Ok(rMax)
  }

  // ---------------------------------------------------------------------
  // Number of bins

  /** Python's `int()` on a float: truncation toward zero. */
  function Trunc(x: real): (n: int)
    ensures x >= 0.0 ==> n >= 0 && n as real <= x < n as real + 1.0
    ensures x < 0.0 ==> n <= 0 && n as real - 1.0 < x <= n as real
  {
    if x >= 0.0 then x.Floor else -((-x).Floor)
  }

  lemma ScaledBelow(a: real, b: real, d: real)
    requires d > 0.0 && a <= b
    ensures a * d <= b * d
  {
  }

  lemma ScaledStrictlyBelow(a: real, b: real, d: real)
    requires d > 0.0 && a < b
    ensures a * d < b * d
  {
  }

  lemma ScaledAbove(a: real, b: real, d: real)
    requires d < 0.0 && a <= b
    ensures a * d >= b * d
  {
    ScaledBelow(a, b, -d);
  }

  lemma ScaledStrictlyAbove(a: real, b: real, d: real)
    requires d < 0.0 && a < b
    ensures a * d > b * d
  {
    ScaledStrictlyBelow(a, b, -d);
  }

  /** `x = (a - b) / d` means `x·d = a - b`. */
  lemma QuotientTimes(a: real, b: real, d: real)
    requires d != 0.0
    ensures ((a - b) / d) * d == a - b
  {
  }

  /** The whole bins between `rMin` and `rMax`: at least none, ending at most one width short of `rMax`. */
  lemma WholeBins(rMax: real, rMin: real, deltaR: real)
    requires deltaR > 0.0 && rMin <= rMax
    ensures var n := Trunc((rMax - rMin) / deltaR);
            n >= 0 && 0.0 <= n as real * deltaR
    ensures var n := Trunc((rMax - rMin) / deltaR);
            n as real * deltaR <= rMax - rMin
    ensures var n := Trunc((rMax - rMin) / deltaR);
            rMax - rMin < n as real * deltaR + deltaR
  {
    var x := (rMax - rMin) / deltaR;
    var n := Trunc(x);
    QuotientTimes(rMax, rMin, deltaR);
    assert x * deltaR == rMax - rMin;
    assert x >= 0.0 by {
      if x < 0.0 { ScaledStrictlyBelow(x, 0.0, deltaR); }
    }
    ScaledBelow(n as real, x, deltaR);
    ScaledStrictlyBelow(x, n as real + 1.0, deltaR);
    assert x * deltaR < (n as real + 1.0) * deltaR;
    assert (n as real + 1.0) * deltaR == n as real * deltaR + deltaR;
    assert rMax - rMin < n as real * deltaR + deltaR;
    ScaledBelow(0.0, n as real, deltaR);
    assert 0.0 * deltaR == 0.0;
  }

  /** The lower edge of bin `k`, which is the upper edge of bin `k - 1`. */
  function Edge(rMin: real, k: int, deltaR: real): real
  {
    rMin + k as real * deltaR
  }

  /** `n` bins of width `(radius - rMin) / n` end at `radius`. */
  lemma EdgeOfWidth(rMin: real, radius: real, n: int)
    requires n >= 1
    ensures Edge(rMin, n, (radius - rMin) / n as real) == radius
  {
    var w := (radius - rMin) / n as real;
    QuotientTimes(radius, rMin, n as real);
    assert w * n as real == radius - rMin;
    assert n as real * w == w * n as real;
  }

  /** The middle of bin `k`, half a width above its lower edge. */
  function Middle(rMin: real, k: int, deltaR: real): real
  {
    rMin + deltaR / 2.0 + k as real * deltaR
  }

  /**
   * `_calculate_n_bins`: as many whole bins of width `deltaR` as fit
   * between `rMin` and `rMax`, and the radius where the last one ends;
   * Python's ZeroDivisionError for a zero width.
   */
  function CalculateNBins(deltaR: real, rMax: real, rMin: real): (r: Result<(int, real)>)
    ensures r.Err? <==> deltaR == 0.0
    ensures r.Err? ==> r.error == "ZeroDivisionError"
    ensures r.Ok? ==> r.value.1 == Edge(rMin, r.value.0, deltaR)
    ensures r.Ok? && deltaR > 0.0 && rMin <= rMax ==>
              r.value.0 >= 0 && rMin <= r.value.1 <= rMax && rMax - r.value.1 < deltaR
  {
    if deltaR == 0.0 then Err("ZeroDivisionError")
    else
      var n := Trunc((rMax - rMin) / deltaR);
      if deltaR > 0.0 && rMin <= rMax then
        WholeBins(rMax, rMin, deltaR);
        Ok((n, Edge(rMin, n, deltaR)))
      else
        Ok((n, Edge(rMin, n, deltaR)))
  }

  // ---------------------------------------------------------------------
  // Middle points of the bins

  /** `np.arange(start, stop, step)`: a ZeroDivisionError for step 0, else ceil((stop - start) / step) points, at least none. */
  function Arange(start: real, stop: real, step: real): (r: Result<seq<real>>)
    ensures r.Err? <==> step == 0.0
    ensures r.Ok? ==> forall k :: 0 <= k < |r.value| ==> r.value[k] == start + k as real * step
  {
    if step == 0.0 then Err("ZeroDivisionError")
    else
      var q := (stop - start) / step;
      var n := -((-q).Floor);
      Ok(seq(if n > 0 then n else 0, k => start + k as real * step))
  }

  lemma CeilOfHalfBelow(n: int, q: real)
    requires q == n as real - 0.5
    ensures -((-q).Floor) == n
  {
  }

  /** The quotient `np.arange` takes the ceiling of, for the middle points of `n` bins. */
  lemma MiddleQuotient(n: int, deltaR: real, rMin: real)
    requires deltaR != 0.0
    ensures (Edge(rMin, n, deltaR) - (rMin + deltaR / 2.0)) / deltaR == n as real - 0.5
  {
    var x := n as real - 0.5;
    var a := rMin + n as real * deltaR;
    var b := rMin + deltaR / 2.0;
    assert a - b == x * deltaR;
    var y := (a - b) / deltaR;
    QuotientTimes(a, b, deltaR);
    assert y * deltaR == x * deltaR;
    assert (y - x) * deltaR == 0.0;
  }

  /**
   * With the last radius `rMin + n·Δr` and `n >= 0`, the middle points
   * `np.arange(rMin + Δr/2, rMax, Δr)` are exactly `n`, so the assertion
   * of `_setup_bin_middle_points` holds.
   */
  lemma MiddlePointsCount(n: int, deltaR: real, rMin: real)
    requires n >= 0 && deltaR != 0.0
    ensures Arange(rMin + deltaR / 2.0, Edge(rMin, n, deltaR), deltaR).Ok?
    ensures |Arange(rMin + deltaR / 2.0, Edge(rMin, n, deltaR), deltaR).value| == n
  {
    MiddleQuotient(n, deltaR, rMin);
    CeilOfHalfBelow(n, n as real - 0.5);
  }

  /** A negative number of bins leaves no middle point, and the assertion fails. */
  lemma MiddlePointsNegative(n: int, deltaR: real, rMin: real)
    requires n < 0 && deltaR != 0.0
    ensures Arange(rMin + deltaR / 2.0, Edge(rMin, n, deltaR), deltaR) == Ok([])
  {
    MiddleQuotient(n, deltaR, rMin);
    CeilOfHalfBelow(n, n as real - 0.5);
    assert |Arange(rMin + deltaR / 2.0, Edge(rMin, n, deltaR), deltaR).value| == 0;
  }

  /** The middle points of bins whose last one ends at `rMin + n·Δr`. */
  lemma ArangeOfBins(b: Bins, rMin: real)
    requires b.rMax == Edge(rMin, b.nBins, b.deltaR) && b.deltaR != 0.0
    ensures Arange(rMin + b.deltaR / 2.0, b.rMax, b.deltaR).Ok?
    ensures |Arange(rMin + b.deltaR / 2.0, b.rMax, b.deltaR).value| == b.nBins <==> b.nBins >= 0
  {
    var points := Arange(rMin + b.deltaR / 2.0, b.rMax, b.deltaR);
    if b.nBins >= 0 {
      MiddlePointsCount(b.nBins, b.deltaR, rMin);
      assert |points.value| == b.nBins;
    } else {
      MiddlePointsNegative(b.nBins, b.deltaR, rMin);
      assert points == Ok([]);
    }
  }

  /**
   * `_setup_bin_middle_points`: `np.arange(rMin + Δr/2, rMax, Δr)`, a
   * ZeroDivisionError for a zero width, and an AssertionError unless
   * there is one point per bin, which fails exactly for a negative
   * number of bins.
   */
  function MiddlePoints(b: Bins, rMin: real): (r: Result<seq<real>>)
    requires b.rMax == Edge(rMin, b.nBins, b.deltaR)
    ensures b.deltaR == 0.0 ==> r == Err("ZeroDivisionError")
    ensures b.deltaR != 0.0 && b.nBins < 0 ==> r == Err("AssertionError")
    ensures r.Ok? <==> b.deltaR != 0.0 && b.nBins >= 0
    ensures r.Ok? ==> |r.value| == b.nBins && forall k :: 0 <= k < |r.value| ==> r.value[k] == Middle(rMin, k, b.deltaR)
  {
    var points := Arange(rMin + b.deltaR / 2.0, b.rMax, b.deltaR);
    if points.Err? then Err(points.error)
    else
      ArangeOfBins(b, rMin);
      if |points.value| != b.nBins then Err("AssertionError") else points
  }

  // ---------------------------------------------------------------------
  // Setting up the bins

  /** The number of bins, the bin width and the largest radius. */
  datatype Bins = Bins(nBins: int, deltaR: real, rMax: real)

  /**
   * The branches of `_setup_bins`: a trajectory mixing periodic and
   * vacuum cells, giving neither the number of bins nor the width, or
   * giving all three are RDFErrors; "all three" is Python's `all`, for
   * which a width or a radius of 0.0 does not count as given. With the number and the width, the
   * radius follows from them (then checked and rounded to whole bins);
   * otherwise the radius is the one given or the inferred one, checked,
   * and the missing number or width follows from it.
   */
  function BinSetup(nBins: Option<int>, deltaR: Option<real>, rMax: Option<real>, rMin: real, cells: seq<CellBox>): (r: Result<Bins>)
    requires nBins.Some? ==> nBins.value >= 1
    requires deltaR.Some? ==> deltaR.value >= 0.0
    ensures !AllPeriodic(cells) && !AllVacuum(cells) ==> r == Err("RDFError")
    ensures nBins.None? && deltaR.None? ==> r == Err("RDFError")
    ensures nBins.Some? && deltaR.Some? && deltaR.value != 0.0 && rMax.Some? && rMax.value != 0.0 ==> r == Err("RDFError")
    ensures deltaR == Some(0.0) ==> r.Err?
    ensures r.Ok? ==> r.value.rMax == Edge(rMin, r.value.nBins, r.value.deltaR)
    ensures r.Ok? && deltaR.Some? ==> r.value.deltaR == deltaR.value
    ensures r.Ok? && nBins.Some? && deltaR.None? ==> r.value.nBins == nBins.value
  {
    if !AllPeriodic(cells) && !AllVacuum(cells) then Err("RDFError")
    else if nBins.None? && deltaR.None? then Err("RDFError")
    else if nBins.Some? && deltaR.Some? && deltaR.value != 0.0 && rMax.Some? && rMax.value != 0.0 then Err("RDFError")
    else if nBins.Some? && deltaR.Some? then FromCountAndWidth(nBins.value, deltaR.value, rMin, cells)
    else FromRadius(nBins, deltaR, rMax, rMin, cells)
  }

  /**
   * With the number and the width given, a radius of 0.0 is ignored: the
   * setup is the one without a radius, where any other radius is refused.
   */
  lemma ZeroRadiusIgnored(n: int, width: real, rMin: real, cells: seq<CellBox>)
    requires n >= 1 && width >= 0.0
    ensures BinSetup(Some(n), Some(width), Some(0.0), rMin, cells) == BinSetup(Some(n), Some(width), None, rMin, cells)
    ensures AllPeriodic(cells) || AllVacuum(cells) ==> BinSetup(Some(n), Some(width), None, rMin, cells) == FromCountAndWidth(n, width, rMin, cells)
  {
  }

  /**
   * A width of 0.0 passes as a `PositiveReal` but leaves no bins: for a
   * periodic trajectory, whether the number of bins or the radius goes
   * with it, the division in `_calculate_n_bins` fails.
   */
  lemma ZeroWidthRejected(nBins: Option<int>, rMax: Option<real>, rMin: real, cells: seq<CellBox>)
    requires nBins.Some? ==> nBins.value >= 1
    requires AllPeriodic(cells) && cells != []
    ensures BinSetup(nBins, Some(0.0), rMax, rMin, cells) == Err("ZeroDivisionError")
  {
    assert CheckRMax(if rMax.Some? then rMax.value else MinLength(cells) / 2.0, cells).Ok?;
  }

  /** Number and width given: the radius they reach, checked, then rounded to whole bins. */
  function FromCountAndWidth(n: int, width: real, rMin: real, cells: seq<CellBox>): (r: Result<Bins>)
    requires width >= 0.0
    ensures r.Ok? ==> r.value.rMax == Edge(rMin, r.value.nBins, r.value.deltaR) && r.value.deltaR == width
    ensures width == 0.0 ==> r.Err?
  {
    var checked := CheckRMax(width * n as real + rMin, cells);
    if checked.Err? then Err(checked.error)
    else
      var counted := CalculateNBins(width, checked.value, rMin);
      if counted.Err? then Err(counted.error)
      else Ok(Bins(counted.value.0, width, counted.value.1))
  }

  /** Only one of number and width given: the radius given or inferred, checked, and the missing one from it. */
  function FromRadius(nBins: Option<int>, deltaR: Option<real>, rMax: Option<real>, rMin: real, cells: seq<CellBox>): (r: Result<Bins>)
    requires nBins.Some? ==> nBins.value >= 1
    requires deltaR.Some? ==> deltaR.value >= 0.0
    requires nBins.None? ==> deltaR.Some?
    requires nBins.Some? ==> deltaR.None?
    ensures r.Ok? ==> r.value.rMax == Edge(rMin, r.value.nBins, r.value.deltaR)
    ensures r.Ok? && deltaR.Some? ==> r.value.deltaR == deltaR.value
    ensures r.Ok? && nBins.Some? ==> r.value.nBins == nBins.value
    ensures deltaR == Some(0.0) ==> r.Err?
  {
    var given := if rMax.Some? then Ok(rMax.value) else InferRMax(cells);
    if given.Err? then Err(given.error)
    else
      var checked := CheckRMax(given.value, cells);
      if checked.Err? then Err(checked.error)
      else if nBins.None? then
        var counted := CalculateNBins(deltaR.value, checked.value, rMin);
        if counted.Err? then Err(counted.error)
        else Ok(Bins(counted.value.0, deltaR.value, counted.value.1))
      else
        var width := (checked.value - rMin) / nBins.value as real;
        EdgeOfWidth(rMin, checked.value, nBins.value);
        Ok(Bins(nBins.value, width, checked.value))
  }

  /**
   * When the largest radius is at least `rMin`, the bins set up cover
   * `[rMin, rMax]` with whole bins, no wider than the radius asked for
   * allows: a non-negative number of them, ending within one bin width
   * of the checked radius.
   */
  lemma BinSetupCovers(deltaR: real, rMax: real, rMin: real, cells: seq<CellBox>)
    requires deltaR > 0.0 && AllPeriodic(cells) && cells != [] && rMin <= rMax && rMin <= MinLength(cells) / 2.0
    ensures var b := BinSetup(None, Some(deltaR), Some(rMax), rMin, cells);
            && b.Ok? && b.value.nBins >= 0 && b.value.deltaR == deltaR
            && b.value.rMax <= rMax && 2.0 * b.value.rMax <= MinLength(cells)
            && (rMax <= MinLength(cells) / 2.0 ==> rMax - b.value.rMax < deltaR)
  {
    var checked := CheckRMax(rMax, cells);
    assert checked.Ok?;
    assert rMin <= checked.value by {
      if checked.value != rMax { assert checked.value == MinLength(cells) / 2.0; }
    }
  }

  // ---------------------------------------------------------------------
  // Counting distances

  /**
   * The bin of a distance: `floor((d - rMin) / Δr)`. For a negative width
   * the bins run downwards from `rMin`.
   */
  function BinIndex(d: real, rMin: real, deltaR: real): (k: int)
    requires deltaR != 0.0
    ensures deltaR > 0.0 ==> Edge(rMin, k, deltaR) <= d < Edge(rMin, k + 1, deltaR)
    ensures deltaR < 0.0 ==> Edge(rMin, k + 1, deltaR) < d <= Edge(rMin, k, deltaR)
  {
    var x := (d - rMin) / deltaR;
    QuotientTimes(d, rMin, deltaR);
    if deltaR > 0.0 then
      ScaledBelow(x.Floor as real, x, deltaR);
      ScaledStrictlyBelow(x, (x.Floor + 1) as real, deltaR);
      x.Floor
    else
      ScaledAbove(x.Floor as real, x, deltaR);
      ScaledStrictlyAbove(x, (x.Floor + 1) as real, deltaR);
      x.Floor
  }

  /** A distance in `[rMin + k·Δr, rMin + (k+1)·Δr)` falls into bin `k`. */
  lemma BinOfDistance(d: real, rMin: real, deltaR: real, k: int)
    requires deltaR > 0.0
    requires Edge(rMin, k, deltaR) <= d < Edge(rMin, k + 1, deltaR)
    ensures BinIndex(d, rMin, deltaR) == k
  {
    QuotientTimes(d, rMin, deltaR);
    FloorOfScaled((d - rMin) / deltaR, k, deltaR, d - rMin);
  }

  /** With a negative width, a distance in `(rMin + (k+1)·Δr, rMin + k·Δr]` falls into bin `k`. */
  lemma BinOfDistanceDownwards(d: real, rMin: real, deltaR: real, k: int)
    requires deltaR < 0.0
    requires Edge(rMin, k + 1, deltaR) < d <= Edge(rMin, k, deltaR)
    ensures BinIndex(d, rMin, deltaR) == k
  {
    var x := (d - rMin) / deltaR;
    QuotientTimes(d, rMin, deltaR);
    assert x * -deltaR == rMin - d;
    assert k as real * -deltaR <= rMin - d < (k + 1) as real * -deltaR;
    FloorOfScaled(x, k, -deltaR, rMin - d);
  }

  /** A number whose multiple by `w > 0` lies in `[k·w, (k+1)·w)` has floor `k`. */
  lemma FloorOfScaled(x: real, k: int, w: real, s: real)
    requires w > 0.0 && x * w == s
    requires k as real * w <= s < (k + 1) as real * w
    ensures x.Floor == k
  {
    if x < k as real {
      ScaledStrictlyBelow(x, k as real, w);
      assert false;
    }
    if x >= (k + 1) as real {
      ScaledBelow((k + 1) as real, x, w);
      assert false;
    }
    assert k as real <= x < (k + 1) as real;
  }

  /**
   * Two bins asked for between `r_min` 3.0 and `r_max` 1.0 have width
   * -1.0 and run downwards: their middle points are 2.5 and 1.5, and a
   * distance 2.5 falls into bin 0, while 0.5 and 3.5 fall outside.
   */
  lemma DownwardBinsExample()
    ensures var cells := [CellBox([10.0, 10.0, 10.0], false)];
            SetupSpec(Some(2), None, Some(1.0), 3.0, cells) == Ok((Bins(2, -1.0, 1.0), [2.5, 1.5]))
    ensures AddToBins([2.5, 0.5, 3.5], 3.0, -1.0, 2) == [1, 0]
  {
    var cells := [CellBox([10.0, 10.0, 10.0], false)];
    assert MinLength(cells) == 10.0;
    assert CheckRMax(1.0, cells) == Ok(1.0);
    assert BinSetup(Some(2), None, Some(1.0), 3.0, cells) == Ok(Bins(2, -1.0, 1.0));
    var points := MiddlePoints(Bins(2, -1.0, 1.0), 3.0).value;
    assert points[0] == Middle(3.0, 0, -1.0) == 2.5;
    assert points[1] == Middle(3.0, 1, -1.0) == 1.5;
    assert points == [2.5, 1.5];
    BinOfDistanceDownwards(2.5, 3.0, -1.0, 0);
    BinOfDistanceDownwards(0.5, 3.0, -1.0, 2);
    BinOfDistanceDownwards(3.5, 3.0, -1.0, -1);
    var idx := Indices([2.5, 0.5, 3.5], 3.0, -1.0);
    assert idx == [0, 2, -1];
    assert [0, 2, -1][..2] == [0, 2] && [0, 2][..1] == [0] && [0][..0] == [];
    assert CountOf(idx, 0) == 1;
    assert CountOf(idx, 1) == 0;
  }

  /** How many of the indices equal `k`. */
  function CountOf(idx: seq<int>, k: int): nat
  {
    if idx == [] then 0 else CountOf(idx[..|idx| - 1], k) + (if idx[|idx| - 1] == k then 1 else 0)
  }

  /** How many of the indices lie in `[0, n)`. */
  function CountBelow(idx: seq<int>, n: int): (c: nat)
    ensures c <= |idx|
  {
    if idx == [] then 0 else CountBelow(idx[..|idx| - 1], n) + (if 0 <= idx[|idx| - 1] < n then 1 else 0)
  }

  /** The bin indices of the distances. */
  function Indices(ds: seq<real>, rMin: real, deltaR: real): (idx: seq<int>)
    requires deltaR != 0.0
    ensures |idx| == |ds| && forall i :: 0 <= i < |ds| ==> idx[i] == BinIndex(ds[i], rMin, deltaR)
  {
    seq(|ds|, i requires 0 <= i < |ds| => BinIndex(ds[i], rMin, deltaR))
  }

  /**
   * `_add_to_bins`: `np.bincount` of the bin indices inside `[0, nBins)`,
   * with exactly `nBins` entries.
   */
  function AddToBins(ds: seq<real>, rMin: real, deltaR: real, nBins: nat): (r: seq<nat>)
    requires deltaR != 0.0
    ensures |r| == nBins
  {
    var idx := Indices(ds, rMin, deltaR);
    seq(nBins, k => CountOf(idx, k))
  }

  lemma {:induction false} CountBelowStep(idx: seq<int>, n: nat)
    ensures CountBelow(idx, n + 1) == CountBelow(idx, n) + CountOf(idx, n)
  {
    if idx != [] {
      CountBelowStep(idx[..|idx| - 1], n);
    }
  }

  lemma {:induction false} SumOfCounts(idx: seq<int>, n: nat)
    ensures SumNat(seq(n, k => CountOf(idx, k))) == CountBelow(idx, n)
  {
    if n > 0 {
      var s := seq(n, k => CountOf(idx, k));
      assert s[..n - 1] == seq(n - 1, k => CountOf(idx, k));
      SumOfCounts(idx, n - 1);
      CountBelowStep(idx, n - 1);
    } else {
      CountBelowZero(idx);
    }
  }

  lemma {:induction false} CountBelowZero(idx: seq<int>)
    ensures CountBelow(idx, 0) == 0
  {
    if idx != [] {
      CountBelowZero(idx[..|idx| - 1]);
    }
  }

  /**
   * The bins hold every distance that falls inside `[0, nBins)` once and
   * no other, so together they count at most the number of distances.
   */
  lemma AddToBinsTotal(ds: seq<real>, rMin: real, deltaR: real, nBins: nat)
    requires deltaR != 0.0
    ensures SumNat(AddToBins(ds, rMin, deltaR, nBins)) == CountBelow(Indices(ds, rMin, deltaR), nBins)
    ensures SumNat(AddToBins(ds, rMin, deltaR, nBins)) <= |ds|
  {
    SumOfCounts(Indices(ds, rMin, deltaR), nBins);
  }

  // ---------------------------------------------------------------------
  // Normalisation and integration

  /**
   * `_norm`: the volume of shell `k`, `4/3 π Δr³ ((k+1)³ - k³)`, times
   * the target density, the number of reference atoms and of frames.
   */
  function Norm(nBins: nat, deltaR: real, density: real, nRef: int, nFrames: int, pi: real): (r: seq<real>)
    ensures |r| == nBins
  {
    var volume := 4.0 / 3.0 * pi * (deltaR * deltaR * deltaR);
    var weight := density * nRef as real * nFrames as real;
    seq(nBins, k => Shell(volume, k, weight))
  }

  /** The `k`-th shell: `(k+1)³ - k³` unit volumes, weighted. */
  function Shell(volume: real, k: int, weight: real): real
  {
    volume * (Cube(k + 1) - Cube(k)) as real * weight
  }

  function Cube(k: int): int { k * k * k }

  /**
   * The first `m` shells add up to the ball of radius `m·Δr`:
   * `4/3 π (m Δr)³` times the same factors.
   */
  lemma NormTelescopes(nBins: nat, deltaR: real, density: real, nRef: int, nFrames: int, pi: real, m: nat)
    requires m <= nBins
    ensures SumReal(Norm(nBins, deltaR, density, nRef, nFrames, pi)[..m])
            == 4.0 / 3.0 * pi * (deltaR * deltaR * deltaR) * Cube(m) as real * (density * nRef as real * nFrames as real)
  {
    var volume := 4.0 / 3.0 * pi * (deltaR * deltaR * deltaR);
    var weight := density * nRef as real * nFrames as real;
    var s := Norm(nBins, deltaR, density, nRef, nFrames, pi);
    assert forall k :: 0 <= k < |s| ==> s[k] == Shell(volume, k, weight);
    ShellsTelescope(s, volume, weight, m);
  }

  /** Shells `0 .. m-1` add up to `m³` unit volumes. */
  lemma {:induction false} ShellsTelescope(s: seq<real>, volume: real, weight: real, m: nat)
    requires m <= |s|
    requires forall k :: 0 <= k < |s| ==> s[k] == Shell(volume, k, weight)
    ensures SumReal(s[..m]) == volume * Cube(m) as real * weight
  {
    if m == 0 {
      assert s[..m] == [];
    } else {
      ShellsTelescope(s, volume, weight, m - 1);
      assert s[..m][..m - 1] == s[..m - 1];
      Distribute(volume, weight, Cube(m - 1) as real, (Cube(m) - Cube(m - 1)) as real);
    }
  }

  lemma Distribute(c: real, f: real, a: real, b: real)
    ensures c * a * f + c * b * f == c * (a + b) * f
  {
  }

  /**
   * `_integration`: the running sum of the bins divided by the number of
   * reference atoms times the number of frames; numpy yields infinities
   * or NaN when that product is 0, a ZeroDivisionError here.
   */
  function Integration(bins: seq<real>, nRef: int, nFrames: int): (r: Result<seq<real>>)
    ensures r.Err? <==> nRef * nFrames == 0
    ensures r.Ok? ==> |r.value| == |bins|
  {
    if nRef * nFrames == 0 then Err("ZeroDivisionError")
    else
      var d := (nRef * nFrames) as real;
      Ok(seq(|bins|, k requires 0 <= k < |bins| => SumReal(bins[..k + 1]) / d))
  }

  /**
   * Each step of the integral adds that bin's share, so with non-negative
   * bins and a positive divisor the integral never decreases, and its
   * last entry is the total over all bins.
   */
  lemma IntegrationSteps(bins: seq<real>, nRef: int, nFrames: int)
    requires nRef * nFrames > 0 && |bins| > 0
    ensures var r := Integration(bins, nRef, nFrames).value;
            && r[0] == bins[0] / (nRef * nFrames) as real
            && (forall k :: 0 < k < |bins| ==> r[k] == r[k - 1] + bins[k] / (nRef * nFrames) as real)
            && r[|bins| - 1] == SumReal(bins) / (nRef * nFrames) as real
  {
    var d := (nRef * nFrames) as real;
    var r := Integration(bins, nRef, nFrames).value;
    assert bins[..1][..0] == [];
    forall k | 0 < k < |bins| ensures r[k] == r[k - 1] + bins[k] / d {
      IntegrationStep(bins, d, k);
    }
    assert bins[..|bins|] == bins;
  }

  lemma IntegrationStep(bins: seq<real>, d: real, k: nat)
    requires d != 0.0 && 0 < k < |bins|
    ensures SumReal(bins[..k + 1]) / d == SumReal(bins[..k]) / d + bins[k] / d
  {
    assert bins[..k + 1][..k] == bins[..k];
    SumOverD(SumReal(bins[..k]), bins[k], d);
  }

  lemma SumOverD(a: real, b: real, d: real)
    requires d != 0.0
    ensures (a + b) / d == a / d + b / d
  {
  }

  /** With non-negative bins and a positive divisor the integral never decreases. */
  lemma IntegrationMonotone(bins: seq<real>, nRef: int, nFrames: int, k: nat)
    requires nRef * nFrames > 0 && 0 < k < |bins|
    requires forall i :: 0 <= i < |bins| ==> bins[i] >= 0.0
    ensures Integration(bins, nRef, nFrames).value[k - 1] <= Integration(bins, nRef, nFrames).value[k]
  {
    IntegrationSteps(bins, nRef, nFrames);
    var d := (nRef * nFrames) as real;
    assert bins[k] / d >= 0.0;
  }

  // ---------------------------------------------------------------------
  // The analysis object

  /** Adding bin counts entry by entry. */
  function AddCounts(a: seq<nat>, b: seq<nat>): (r: seq<nat>)
    requires |a| == |b|
    ensures |r| == |a| && forall k :: 0 <= k < |a| ==> r[k] == a[k] + b[k]
  {
    seq(|a|, k requires 0 <= k < |a| => a[k] + b[k])
  }

  /** The bins after adding the distances of each frame and reference atom in turn. */
  function Accumulated(bins: seq<nat>, frames: seq<seq<real>>, rMin: real, deltaR: real): (r: seq<nat>)
    requires deltaR != 0.0
    ensures |r| == |bins|
  {
    if frames == [] then bins
    else AddCounts(Accumulated(bins, frames[..|frames| - 1], rMin, deltaR), AddToBins(frames[|frames| - 1], rMin, deltaR, |bins|))
  }

  lemma {:induction false} SumAddCounts(a: seq<nat>, b: seq<nat>)
    requires |a| == |b|
    ensures SumNat(AddCounts(a, b)) == SumNat(a) + SumNat(b)
  {
    if a != [] {
      var n := |a| - 1;
      assert AddCounts(a, b)[..n] == AddCounts(a[..n], b[..n]);
      SumAddCounts(a[..n], b[..n]);
    }
  }

  function TotalLength(frames: seq<seq<real>>): nat
  {
    if frames == [] then 0 else TotalLength(frames[..|frames| - 1]) + |frames[|frames| - 1]|
  }

  /** The counts added never exceed the number of distances seen. */
  lemma {:induction false} AccumulatedTotal(bins: seq<nat>, frames: seq<seq<real>>, rMin: real, deltaR: real)
    requires deltaR != 0.0
    ensures SumNat(Accumulated(bins, frames, rMin, deltaR)) <= SumNat(bins) + TotalLength(frames)
  {
    if frames != [] {
      var init := frames[..|frames| - 1];
      AccumulatedTotal(bins, init, rMin, deltaR);
      var last := frames[|frames| - 1];
      SumAddCounts(Accumulated(bins, init, rMin, deltaR), AddToBins(last, rMin, deltaR, |bins|));
      AddToBinsTotal(last, rMin, deltaR, |bins|);
    }
  }

  /**
   * `_setup_bins` on values: the bins of `BinSetup` and their middle
   * points; its errors are those of `BinSetup`, then those of
   * `MiddlePoints`, and it succeeds with one middle point per bin.
   */
  function SetupSpec(n: Option<int>, width: Option<real>, radius: Option<real>, start: real, cells: seq<CellBox>): (r: Result<(Bins, seq<real>)>)
    requires n.Some? ==> n.value >= 1
    requires width.Some? ==> width.value >= 0.0
    ensures var b := BinSetup(n, width, radius, start, cells);
            && (b.Err? ==> r == Err(b.error))
            && (b.Ok? ==> (r.Ok? <==> b.value.nBins >= 0 && b.value.deltaR != 0.0))
            && (b.Ok? && b.value.deltaR == 0.0 ==> r == Err("ZeroDivisionError"))
            && (b.Ok? && b.value.deltaR != 0.0 && b.value.nBins < 0 ==> r == Err("AssertionError"))
    ensures r.Ok? ==> var b := r.value.0;
            && BinSetup(n, width, radius, start, cells) == Ok(b)
            && b.nBins >= 0 && |r.value.1| == b.nBins
            && forall k :: 0 <= k < b.nBins ==> r.value.1[k] == Middle(start, k, b.deltaR)
  {
    var b := BinSetup(n, width, radius, start, cells);
    if b.Err? then Err(b.error)
    else
      var points := MiddlePoints(b.value, start);
      if points.Err? then Err(points.error) else Ok((b.value, points.value))
  }

  class RdfAnalysis {
    var cells: seq<CellBox>
    /** The frames `frame_generator` has still to yield, each as the distances from the reference atoms. */
    var remaining: seq<seq<real>>
    var rMin: real
    var nBins: int
    var deltaR: real
    var rMax: real
    var middlePoints: seq<real>
    var bins: seq<nat>

    /**
     * The defaults of `__init__` before the bins are set up: `r_min` 0.0
     * when not given, and every frame still to come.
     */
    constructor (cells: seq<CellBox>, frames: seq<seq<real>>, rMin: Option<real>)
      ensures this.cells == cells && remaining == frames && this.rMin == (if rMin.Some? then rMin.value else 0.0)
      ensures nBins == 0 && deltaR == 0.0 && rMax == 0.0 && middlePoints == [] && bins == []
    {
      this.cells := cells;
      remaining := frames;
      this.rMin := if rMin.Some? then rMin.value else 0.0;
      nBins, deltaR, rMax := 0, 0.0, 0.0;
      middlePoints, bins := [], [];
    }

    /**
     * `next(self.frame_generator)`: the first frame still to come, which
     * the generator will not yield again; nothing when none is left.
     */
    method NextFrame() returns (f: Option<seq<real>>)
      modifies this
      ensures old(remaining) == [] ==> f.None? && remaining == []
      ensures old(remaining) != [] ==> f == Some(old(remaining)[0]) && remaining == old(remaining)[1..]
      ensures cells == old(cells) && rMin == old(rMin) && nBins == old(nBins) && deltaR == old(deltaR)
      ensures rMax == old(rMax) && middlePoints == old(middlePoints) && bins == old(bins)
    {
      if remaining == [] {
        return None;
      }
      f := Some(remaining[0]);
      remaining := remaining[1..];
    }

    /**
     * `_setup_bins`: the bins of `BinSetup`, their middle points, whose
     * count `_setup_bin_middle_points` asserts, and `nBins` zero counts.
     */
    method SetupBins(n: Option<int>, width: Option<real>, radius: Option<real>, start: real) returns (r: Result<()>)
      requires n.Some? ==> n.value >= 1
      requires width.Some? ==> width.value >= 0.0
      modifies this
      ensures cells == old(cells) && remaining == old(remaining) && rMin == start
      ensures var spec := SetupSpec(n, width, radius, start, old(cells));
              && (r.Ok? <==> spec.Ok?) && (r.Err? ==> r.error == spec.error)
              && (r.Ok? ==> nBins == spec.value.0.nBins && deltaR == spec.value.0.deltaR && rMax == spec.value.0.rMax
                            && middlePoints == spec.value.1 && |bins| == nBins && forall k :: 0 <= k < |bins| ==> bins[k] == 0)
    {
      rMin := start;
      var spec := SetupSpec(n, width, radius, start, cells);
      if spec.Err? {
        return Err(spec.error);
      }
      nBins, deltaR, rMax := spec.value.0.nBins, spec.value.0.deltaR, spec.value.0.rMax;
      middlePoints := spec.value.1;
      bins := seq(nBins, _ => 0);
      return Ok(());
    }

    /**
     * `_calculate_bins`: the counts of the distances of every frame the
     * generator still yields added to the bins, one frame at a time; the
     * generator is used up.
     */
    method CalculateBins()
      requires deltaR != 0.0
      modifies this
      ensures cells == old(cells) && rMin == old(rMin) && nBins == old(nBins) && deltaR == old(deltaR)
      ensures rMax == old(rMax) && middlePoints == old(middlePoints)
      ensures bins == Accumulated(old(bins), old(remaining), rMin, deltaR) && remaining == []
    {
      var frames, counts, start, width := remaining, bins, rMin, deltaR;
      for i := 0 to |frames|
        invariant counts == Accumulated(bins, frames[..i], start, width)
      {
        assert frames[..i + 1][..i] == frames[..i];
        counts := AddCounts(counts, AddToBins(frames[i], start, width, |counts|));
      }
      assert frames[..|frames|] == frames;
      bins, remaining := counts, [];
    }
  }

  /**
   * `__init__` on a trajectory, as written: an RDFError for an empty one;
   * then `first_frame` is taken from the generator, so the frames left for
   * `_calculate_bins` are all but the first; then `_setup_bins`.
   */
  method NewRdfAsWritten(cells: seq<CellBox>, frames: seq<seq<real>>, n: Option<int>, width: Option<real>,
                         radius: Option<real>, rMin: Option<real>)
    returns (r: Result<RdfAnalysis>)
    requires |frames| == |cells|
    requires n.Some? ==> n.value >= 1
    requires width.Some? ==> width.value >= 0.0
    ensures cells == [] ==> r == Err("RDFError")
    ensures cells != [] ==> var spec := SetupSpec(n, width, radius, if rMin.Some? then rMin.value else 0.0, cells);
            && (r.Ok? <==> spec.Ok?) && (r.Err? ==> r.error == spec.error)
            && (r.Ok? ==> fresh(r.value) && r.value.cells == cells && r.value.remaining == frames[1..]
                          && r.value.nBins == spec.value.0.nBins
                          && r.value.deltaR == spec.value.0.deltaR && r.value.rMax == spec.value.0.rMax
                          && r.value.middlePoints == spec.value.1 && r.value.bins == seq(r.value.nBins, _ => 0))
  {
    if cells == [] {
      return Err("RDFError");
    }
    var a := new RdfAnalysis(cells, frames, rMin);
    var first := a.NextFrame();
    var status := a.SetupBins(n, width, radius, a.rMin);
    if status.Err? {
      return Err(status.error);
    }
    return Ok(a);
  }

  /**
   * `__init__` on a trajectory, corrected: the first frame is looked at
   * without being taken from the frames to bin, so every frame of the
   * trajectory is binned.
   */
  method NewRdf(cells: seq<CellBox>, frames: seq<seq<real>>, n: Option<int>, width: Option<real>,
                radius: Option<real>, rMin: Option<real>)
    returns (r: Result<RdfAnalysis>)
    requires |frames| == |cells|
    requires n.Some? ==> n.value >= 1
    requires width.Some? ==> width.value >= 0.0
    ensures cells == [] ==> r == Err("RDFError")
    ensures cells != [] ==> var spec := SetupSpec(n, width, radius, if rMin.Some? then rMin.value else 0.0, cells);
            && (r.Ok? <==> spec.Ok?) && (r.Err? ==> r.error == spec.error)
            && (r.Ok? ==> fresh(r.value) && r.value.cells == cells && r.value.remaining == frames
                          && r.value.nBins == spec.value.0.nBins
                          && r.value.deltaR == spec.value.0.deltaR && r.value.rMax == spec.value.0.rMax
                          && r.value.middlePoints == spec.value.1 && r.value.bins == seq(r.value.nBins, _ => 0))
  {
    if cells == [] {
      return Err("RDFError");
    }
    var a := new RdfAnalysis(cells, frames, rMin);
    var status := a.SetupBins(n, width, radius, a.rMin);
    if status.Err? {
      return Err(status.error);
    }
    return Ok(a);
  }

  /**
   * One frame with one distance in the only bin: binning the frames left
   * as written counts nothing, although `n_frames` is 1; binning every
   * frame counts the distance.
   */
  lemma FirstFrameNotBinned()
    ensures var frames := [[0.5]];
            && Accumulated([0], frames[1..], 0.0, 1.0) == [0]
            && Accumulated([0], frames, 0.0, 1.0) == [1]
  {
    var frames := [[0.5]];
    assert frames[1..] == [];
    assert frames[..0] == [];
    assert Indices([0.5], 0.0, 1.0) == [0] by {
      assert BinIndex(0.5, 0.0, 1.0) == 0;
    }
    assert AddToBins([0.5], 0.0, 1.0, 1) == [1] by {
      assert CountOf([0], 0) == 1;
    }
  }
}
