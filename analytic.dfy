/** Analytic random pair counts in a periodic box (`AnalyticTwoPointCounter.run` and
    `normalization`): the expected count in a bin is the pair normalization times the
    bin's shell volume over the box volume. pi is a parameter: the model only needs it
    to be a positive real. */
module Analytic {
  import opened Outcomes
  import opened Arrays
  import opened Geometry
  import Normalization

  type Positive = r: real | r > 0.0 witness 1.0

  /** `normalization()` of the analytic counter: the unweighted normalization of the
      base engine for catalogs of n1 and n2 objects, an autocorrelation when no n2 is
      given; with n2 it is n1*n2, without it the n1(n1-1) ordered pairs of distinct
      objects. */
  function AnalyticNorm(n1: nat, n2: Option<nat>): (r: int)
    ensures r == Normalization.UnweightedNorm(n2.None?, n1, if n2.Some? then n2.value else 0)
    ensures n2.Some? ==> r == n1 * n2.value
    ensures r >= 0
  {
    match n2
    case None => n1 * (n1 - 1)
    case Some(m) => n1 * m
  }

  /** `np.prod(boxsize)`. */
  function Volume(box: seq<real>): real
    requires |box| == 3
  {
    box[0] * box[1] * box[2]
  }

  // ------------------------------------------------------------ cumulative volumes

  /** 4/3 pi r^3: the volume of the ball of radius r. */
  function BallVolume(r: real, pi: Positive): real
  {
    4.0 / 3.0 * pi * (r * r * r)
  }

  /** The ball volume at every edge: the volume of the sphere up to that separation
      (mode s, and the radial factor of smu). */
  function SphereVolumes(e: seq<real>, pi: Positive): (v: seq<real>)
    ensures |v| == |e| && forall i :: 0 <= i < |e| ==> v[i] == BallVolume(e[i], pi)
  {
    seq(|e|, i requires 0 <= i < |e| => BallVolume(e[i], pi))
  }

  /** pi r^2 times a length at every edge: a cylinder (rp with the box side along the
      line of sight; with length 2 it is the radial factor of rppi, whose height is
      twice pi_max). */
  function CylinderAreas(e: seq<real>, pi: Positive, length: real): (v: seq<real>)
    ensures |v| == |e| && forall i :: 0 <= i < |e| ==> v[i] == pi * (e[i] * e[i]) * length
  {
    seq(|e|, i requires 0 <= i < |e| => pi * (e[i] * e[i]) * length)
  }

  /** `v[:, None]`: a 1-D array as a single-column 2-D array. */
  function Column(v: seq<real>): (rows: seq<seq<real>>)
    ensures |rows| == |v| && forall i :: 0 <= i < |v| ==> rows[i] == [v[i]]
  {
    seq(|v|, i requires 0 <= i < |v| => [v[i]])
  }

  /** A single column sums to the sum of its entries. */
  lemma {:induction false} ColumnTotal(v: seq<real>)
    ensures Total2(Column(v)) == Sum(v)
  {
    if v != [] {
      assert Column(v)[1..] == Column(v[1..]);
      ColumnTotal(v[1..]);
      assert Sum(Column(v)[0]) == v[0] + Sum([]);
    }
  }

  /** `a[:, None] * b`: the outer product. */
  function Outer(a: seq<real>, b: seq<real>): (rows: seq<seq<real>>)
    ensures |rows| == |a| && forall i :: 0 <= i < |a| ==> rows[i] == Scale(b, a[i])
  {
    seq(|a|, i requires 0 <= i < |a| => Scale(b, a[i]))
  }

  /** Elementwise difference of two rows. */
  function SubRows(a: seq<real>, b: seq<real>): (r: seq<real>)
    requires |a| == |b|
    ensures |r| == |a| && forall j :: 0 <= j < |r| ==> r[j] == a[j] - b[j]
  {
    seq(|a|, j requires 0 <= j < |a| => a[j] - b[j])
  }

  /** `np.diff` of the difference of two rows of one length. */
  function DiffOfRows(a: seq<real>, b: seq<real>): (r: seq<real>)
    requires |a| == |b|
    ensures |r| == (if |a| == 0 then 0 else |a| - 1)
    ensures forall j :: 0 <= j < |r| ==> r[j] == (a[j + 1] - b[j + 1]) - (a[j] - b[j])
  {
    Diff(SubRows(a, b))
  }

  /** `np.diff(np.diff(v, axis=0), axis=-1)` on a grid of rows of width `width`. */
  function DoubleDiff(rows: seq<seq<real>>, width: nat): (r: seq<seq<real>>)
    requires forall i :: 0 <= i < |rows| ==> |rows[i]| == width
    ensures |r| == (if |rows| == 0 then 0 else |rows| - 1)
    ensures forall i :: 0 <= i < |r| ==> |r[i]| == (if width == 0 then 0 else width - 1)
    ensures forall i, j {:trigger r[i][j]} :: 0 <= i < |r| && 0 <= j < width - 1 ==>
      r[i][j] == (rows[i + 1][j + 1] - rows[i][j + 1]) - (rows[i + 1][j] - rows[i][j])
  {
    seq(if |rows| == 0 then 0 else |rows| - 1,
        i requires 0 <= i < |rows| - 1 => DiffOfRows(rows[i + 1], rows[i]))
  }

  lemma {:induction false} CrossDifference(p: real, q: real, w: real, u: real)
    ensures (p * w - q * w) - (p * u - q * u) == (p - q) * (w - u)
  {
  }

  /** The double difference of an outer product factorises into the product of the
      first differences of its two factors. */
  lemma {:induction false} DoubleDiffFactorises(a: seq<real>, b: seq<real>, i: nat, j: nat)
    requires i + 1 < |a| && j + 1 < |b|
    ensures DoubleDiff(Outer(a, b), |b|)[i][j] == Diff(a)[i] * Diff(b)[j]
  {
    DoubleDiffCell(a, b, i, j);
    DiffProduct(a, b, i, j, DoubleDiff(Outer(a, b), |b|)[i][j]);
  }
  /** Cell (i, j) of the double difference of an outer product. */
  lemma {:induction false} DoubleDiffCell(a: seq<real>, b: seq<real>, i: nat, j: nat)
    requires i + 1 < |a| && j + 1 < |b|
    ensures DoubleDiff(Outer(a, b), |b|)[i][j] == (a[i + 1] - a[i]) * (b[j + 1] - b[j])
  {
    var p, q, w, u := a[i + 1], a[i], b[j + 1], b[j];
    var rows := Outer(a, b);
    assert rows[i + 1][j + 1] == p * w && rows[i][j + 1] == q * w;
    assert rows[i + 1][j] == p * u && rows[i][j] == q * u;
    CrossDifference(p, q, w, u);
  }
  lemma {:induction false} DiffProduct(a: seq<real>, b: seq<real>, i: nat, j: nat, x: real)
    requires i + 1 < |a| && j + 1 < |b|
    requires x == (a[i + 1] - a[i]) * (b[j + 1] - b[j])
    ensures x == Diff(a)[i] * Diff(b)[j]
  {
  }

  /** As whole arrays: the double difference of `a[:, None] * b` is the outer product
      of `diff(a)` and `diff(b)`. */
  lemma {:induction false} DoubleDiffIsOuterOfDiffs(a: seq<real>, b: seq<real>)
    requires |b| >= 1
    ensures DoubleDiff(Outer(a, b), |b|) == Outer(Diff(a), Diff(b))
  {
    var l, r := DoubleDiff(Outer(a, b), |b|), Outer(Diff(a), Diff(b));
    forall i | 0 <= i < |l|
      ensures l[i] == r[i]
    {
      forall j | 0 <= j < |b| - 1
        ensures l[i][j] == r[i][j]
      {
        DoubleDiffFactorises(a, b, i, j);
      }
    }
  }

  /** The grand total of an outer product is the product of the two sums. */
  lemma {:induction false} TotalOuter(a: seq<real>, b: seq<real>)
    ensures Total2(Outer(a, b)) == Sum(a) * Sum(b)
  {
    if a != [] {
      TotalOuter(a[1..], b);
      assert Outer(a, b)[1..] == Outer(a[1..], b);
      SumScale(b, a[0]);
      Distribute(Sum(b), a[0], Sum(a[1..]));
    }
  }

  // ------------------------------------------------------------ run

  /** The number of bins an edge array delimits (`np.diff` of an empty array is empty). */
  function Bins(e: seq<real>): nat
  {
    if |e| == 0 then 0 else |e| - 1
  }

  /** The `dv` array of `run`: per-bin volumes for modes s, smu, rppi and rp; any other
      mode has no analytic solution, and rp needs a Cartesian line of sight to pick
      the box side. */
  function ShellVolumes(mode: string, edges: seq<seq<real>>, box: seq<real>, los: string, pi: Positive): (r: Result<Grid>)
    requires |box| == 3
    requires mode == "smu" || mode == "rppi" ==> |edges| == 2
    requires mode == "s" || mode == "rp" ==> |edges| >= 1
    ensures r.Ok? <==> mode == "s" || mode == "smu" || mode == "rppi" || (mode == "rp" && AxisIndex(los).Ok?)
    ensures r.Ok? ==> (r.value.Line? <==> mode == "s")
    ensures r.Ok? && r.value.Plane? ==> |r.value.rows| == |edges[0]| - 1 || |edges[0]| == 0
    ensures r.Ok? && (mode == "smu" || mode == "rppi") ==> r.value.width == Bins(edges[1])
    ensures r.Err? && mode == "rp" ==> r.error == LosNotAxis
    ensures r.Err? && mode != "rp" ==> r.error == NoAnalyticSolution
    ensures r.Ok? ==> r.value.Rectangular()
  {
    if mode == "s" then Ok(Line(Diff(SphereVolumes(edges[0], pi))))
    else if mode == "smu" then
      Ok(Plane(DoubleDiff(Outer(SphereVolumes(edges[0], pi), edges[1]), |edges[1]|), Bins(edges[1])))
    else if mode == "rppi" then
      Ok(Plane(DoubleDiff(Outer(CylinderAreas(edges[0], pi, 2.0), edges[1]), |edges[1]|), Bins(edges[1])))
    else if mode == "rp" then
      var axis :- AxisIndex(los);
      Ok(Plane(Column(Diff(CylinderAreas(edges[0], pi, box[axis]))), 1))
    else Err(NoAnalyticSolution)
  }

  /** `run`: `wcounts = normalization() * dv / prod(boxsize)`. In mode rp `v` is built
      from `edges[0][:, None]`, so the counts form a single column. */
  function AnalyticCounts(mode: string, edges: seq<seq<real>>, box: seq<real>, los: string,
                          norm: int, pi: Positive): (r: Result<Grid>)
    requires |box| == 3 && Volume(box) != 0.0
    requires mode == "smu" || mode == "rppi" ==> |edges| == 2
    requires mode == "s" || mode == "rp" ==> |edges| >= 1
    ensures r.Ok? <==> ShellVolumes(mode, edges, box, los, pi).Ok?
    ensures r.Ok? ==> r.value == ScaleGrid(ShellVolumes(mode, edges, box, los, pi).value, norm as real / Volume(box))
  {
    var dv :- ShellVolumes(mode, edges, box, los, pi);
    Ok(ScaleGrid(dv, norm as real / Volume(box)))
  }

  /** Mode s, bin i: the expected count is the normalization over the box volume
      times the volume of the shell between the spheres of edges i and i + 1. */
  lemma {:induction false} SphereShellCount(edges: seq<seq<real>>, box: seq<real>, los: string, norm: int, pi: Positive, i: nat)
    requires |box| == 3 && Volume(box) != 0.0
    requires |edges| >= 1 && i + 1 < |edges[0]|
    ensures var shell := Diff(SphereVolumes(edges[0], pi))[i];
      AnalyticCounts("s", edges, box, los, norm, pi).value.cells[i] == norm as real / Volume(box) * shell
    ensures Diff(SphereVolumes(edges[0], pi))[i] == BallVolume(edges[0][i + 1], pi) - BallVolume(edges[0][i], pi)
  {
    SphereCounts(edges, box, los, norm, pi);
  }

  /** Mode s: the counts are the first differences of the sphere volumes, scaled by
      the normalization over the box volume. */
  lemma {:induction false} SphereCounts(edges: seq<seq<real>>, box: seq<real>, los: string, norm: int, pi: Positive)
    requires |box| == 3 && Volume(box) != 0.0
    requires |edges| >= 1
    ensures AnalyticCounts("s", edges, box, los, norm, pi)
         == Ok(ScaleGrid(Line(Diff(SphereVolumes(edges[0], pi))), norm as real / Volume(box)))
  {
    assert ShellVolumes("s", edges, box, los, pi) == Ok(Line(Diff(SphereVolumes(edges[0], pi))));
  }

  /** Scaled first differences of a cumulative volume sum to the scaled range. */
  lemma {:induction false} LineTotal(v: seq<real>, c: real)
    requires |v| >= 1
    ensures Total(ScaleGrid(Line(Diff(v)), c)) == c * (v[|v| - 1] - v[0])
  {
    DiffTelescopes(v);
    TotalScale(Line(Diff(v)), c);
    TimesEqual(c, Total(Line(Diff(v))), v[|v| - 1] - v[0]);
  }

  /** Equal factors give equal products. */
  lemma {:induction false} TimesEqual(c: real, x: real, y: real)
    requires x == y
    ensures c * x == c * y
  {
  }

  /** Scaled first differences of a cumulative volume, as a single column, sum to the
      scaled range. */
  lemma {:induction false} ColumnTotalScaled(v: seq<real>, c: real)
    requires |v| >= 1
    ensures Total(ScaleGrid(Plane(Column(Diff(v)), 1), c)) == c * (v[|v| - 1] - v[0])
  {
    ColumnTotal(Diff(v));
    DiffTelescopes(v);
    ScaledPlaneTotal(Column(Diff(v)), 1, c, v[|v| - 1] - v[0]);
  }

  /** The double differences of an outer product sum to the product of the sums of
      the two first differences. */
  lemma {:induction false} PlaneDiffProduct(a: seq<real>, b: seq<real>)
    requires |b| >= 1
    ensures Total2(DoubleDiff(Outer(a, b), |b|)) == Sum(Diff(a)) * Sum(Diff(b))
  {
    DoubleDiffIsOuterOfDiffs(a, b);
    OuterOfDiffsTotal(a, b, DoubleDiff(Outer(a, b), |b|));
  }

  lemma {:induction false} OuterOfDiffsTotal(a: seq<real>, b: seq<real>, g: seq<seq<real>>)
    requires g == Outer(Diff(a), Diff(b))
    ensures Total2(g) == Sum(Diff(a)) * Sum(Diff(b))
  {
    TotalOuter(Diff(a), Diff(b));
  }

  /** Scaling a 2-D grid whose total is known scales the total. */
  lemma {:induction false} ScaledPlaneTotal(rows: seq<seq<real>>, width: nat, c: real, x: real)
    requires Total2(rows) == x
    ensures Total(ScaleGrid(Plane(rows, width), c)) == c * x
  {
    TotalScale(Plane(rows, width), c);
  }

  /** The radial cumulative volume of a two-dimensional mode: spheres for smu,
      cylinders of height two (times pi_max) for rppi. */
  function PlaneVolumes(mode: string, edges: seq<seq<real>>, pi: Positive): seq<real>
    requires mode == "smu" || mode == "rppi"
    requires |edges| >= 1
  {
    if mode == "smu" then SphereVolumes(edges[0], pi) else CylinderAreas(edges[0], pi, 2.0)
  }

  /** Modes smu and rppi: the counts are the double differences of the outer product
      of the radial volumes and the second-dimension edges, scaled by the
      normalization over the box volume. */
  lemma {:induction false} PlaneCounts(mode: string, edges: seq<seq<real>>, box: seq<real>, los: string, norm: int, pi: Positive)
    requires |box| == 3 && Volume(box) != 0.0
    requires mode == "smu" || mode == "rppi"
    requires |edges| == 2 && |edges[1]| >= 1
    ensures AnalyticCounts(mode, edges, box, los, norm, pi).Ok?
    ensures var a, b := PlaneVolumes(mode, edges, pi), edges[1];
      AnalyticCounts(mode, edges, box, los, norm, pi).value
         == ScaleGrid(Plane(DoubleDiff(Outer(a, b), |b|), |b| - 1), norm as real / Volume(box))
  {
  }

  /** Mode s: the counts sum to the normalization over the box volume, times the
      volume of the sphere of the last edge minus that of the first. */
  lemma {:induction false} SphereCountsTotal(edges: seq<seq<real>>, box: seq<real>, los: string, norm: int, pi: Positive)
    requires |box| == 3 && Volume(box) != 0.0
    requires |edges| >= 1 && |edges[0]| >= 1
    ensures var v := SphereVolumes(edges[0], pi);
      Total(AnalyticCounts("s", edges, box, los, norm, pi).value) == norm as real / Volume(box) * (v[|v| - 1] - v[0])
  {
    SphereCounts(edges, box, los, norm, pi);
    SphereRangeScaled(edges, box, norm, pi);
  }

  /** The scaled first differences of the sphere volumes sum to the scaled range. The
      arguments are those of `SphereCountsTotal`, so that its conclusion is this one
      verbatim. */
  lemma {:induction false} SphereRangeScaled(edges: seq<seq<real>>, box: seq<real>, norm: int, pi: Positive)
    requires |box| == 3 && Volume(box) != 0.0
    requires |edges| >= 1 && |edges[0]| >= 1
    ensures var v := SphereVolumes(edges[0], pi);
      Total(ScaleGrid(Line(Diff(v)), norm as real / Volume(box))) == norm as real / Volume(box) * (v[|v| - 1] - v[0])
  {
    LineTotal(SphereVolumes(edges[0], pi), norm as real / Volume(box));
  }

  /** Mode rp: the counts form the single column of first differences of the
      cylinder volumes, scaled by the normalization over the box volume. */
  lemma {:induction false} ColumnCounts(edges: seq<seq<real>>, box: seq<real>, los: string, norm: int, pi: Positive)
    requires |box| == 3 && Volume(box) != 0.0
    requires |edges| >= 1 && AxisIndex(los).Ok?
    ensures AnalyticCounts("rp", edges, box, los, norm, pi).Ok?
    ensures var v := CylinderAreas(edges[0], pi, box[AxisIndex(los).value]);
      AnalyticCounts("rp", edges, box, los, norm, pi).value == ScaleGrid(Plane(Column(Diff(v)), 1), norm as real / Volume(box))
  {
  }
}
