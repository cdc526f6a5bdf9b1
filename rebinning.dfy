/** Rebinning of a pair-count result (`rebin`): adjacent bins are merged in blocks,
    counts are summed and the separation becomes the count-weighted mean of the
    merged bins. The blockwise sum of the utility module is defined here directly. */
module Rebinning {
  import opened Outcomes
  import opened Arrays

  /** The `factor` argument: one integer, or one per dimension. */
  datatype FactorArg = Single(factor: int) | PerDim(factors: seq<int>)

  function FactorList(arg: FactorArg): seq<int>
  {
    match arg
    case Single(f) => [f]
    case PerDim(fs) => fs
  }

  /** Every factor is positive and divides its dimension's extent. */
  predicate Divides(dims: seq<nat>, factors: seq<int>)
    requires |dims| == |factors|
  {
    forall k :: 0 <= k < |dims| ==> factors[k] > 0 && dims[k] % factors[k] == 0
  }

  /** The checks of `rebin`: one factor per dimension (as in the source), and, as the
      documented behaviour requires, each factor positive and dividing its extent. */
  function CheckFactors(ndim: nat, dims: seq<nat>, arg: FactorArg): (r: Result<seq<nat>>)
    requires |dims| == ndim
    ensures r.Ok? <==> |FactorList(arg)| == ndim && Divides(dims, FactorList(arg))
    ensures r.Err? && |FactorList(arg)| != ndim ==> r.error == RebinFactorCount
    ensures r.Ok? ==> |r.value| == ndim && forall k :: 0 <= k < ndim ==> r.value[k] == FactorList(arg)[k]
  {
    var fs := FactorList(arg);
    if |fs| != ndim then Err(RebinFactorCount)
    else if !Divides(dims, fs) then Err(RebinFactorNotDividing)
    else Ok(seq(ndim, k requires 0 <= k < ndim => fs[k] as nat))
  }

  /** `new_shape = s // f` per dimension. */
  function NewShape(dims: seq<nat>, factors: seq<nat>): (s: seq<nat>)
    requires |dims| == |factors|
    requires forall k :: 0 <= k < |factors| ==> factors[k] > 0
    ensures |s| == |dims|
  {
    seq(|dims|, k requires 0 <= k < |dims| => dims[k] / factors[k])
  }

  lemma {:induction false} MulAtLeast(d: int, f: int)
    requires d >= 1 && f > 0
    ensures d * f >= f
  {
  }

  lemma {:induction false} MulSub(a: int, b: int, f: int)
    ensures a * f - b * f == (a - b) * f
  {
  }

  /** Euclidean division is unique. */
  lemma {:induction false} DivUnique(a: int, f: int, q: int, r: int)
    requires f > 0 && 0 <= r < f && a == q * f + r
    ensures a / f == q && a % f == r
  {
    var q', r' := a / f, a % f;
    assert a == q' * f + r';
    if q' != q {
      var hi, lo := if q' < q then q else q', if q' < q then q' else q;
      MulSub(hi, lo, f);
      MulAtLeast(hi - lo, f);
      assert false;
    }
  }

  /** Taking one block of `f` off an extent that `f` divides. */
  lemma {:induction false} DivStep(n: nat, f: nat)
    requires n > 0 && f > 0 && n % f == 0
    ensures n >= f && (n - f) % f == 0 && (n - f) / f == n / f - 1
  {
    var q := n / f;
    assert n == q * f;
    assert q >= 1;
    assert n - f == (q - 1) * f;
    DivUnique(n - f, f, q - 1, 0);
  }

  // ------------------------------------------------------------ one dimension

  /** Sums of consecutive blocks of `f` bins. */
  function BlockSums(w: seq<real>, f: nat): (r: seq<real>)
    requires f > 0 && |w| % f == 0
    ensures |r| == |w| / f
    decreases |w|
  {
    if |w| == 0 then []
    else
      DivStep(|w|, f);
      [Sum(w[..f])] + BlockSums(w[f..], f)
  }

  lemma {:induction false} BlockBounds(n: nat, f: nat, k: nat)
    requires f > 0 && n % f == 0 && k < n / f
    ensures k * f + f <= n
  {
    var q := n / f;
    assert n == q * f;
    MulSub(q, k + 1, f);
    assert q * f - (k + 1) * f >= 0 by {
      if q - (k + 1) >= 1 {
        MulAtLeast(q - (k + 1), f);
      }
    }
  }

  /** Bins `k*f` up to `k*f + f`: the ones merged into new bin `k`. */
  function Block<T>(w: seq<T>, f: nat, k: nat): (b: seq<T>)
    requires f > 0 && |w| % f == 0 && k < |w| / f
    ensures |b| == f
  {
    BlockBounds(|w|, f, k);
    w[k * f .. k * f + f]
  }

  lemma {:induction false} MulPred(k: int, f: int)
    ensures k * f == (k - 1) * f + f
  {
  }

  /** Block `k` of `w` is block `k - 1` of `w` without its first block. */
  lemma {:induction false} BlockShift<T>(w: seq<T>, f: nat, k: nat)
    requires f > 0 && |w| % f == 0 && 0 < k < |w| / f
    ensures |w[f..]| % f == 0 && k - 1 < |w[f..]| / f
    ensures Block(w[f..], f, k - 1) == Block(w, f, k)
  {
    DivStep(|w|, f);
    BlockBounds(|w|, f, k);
    MulPred(k, f);
    assert w[f..][(k - 1) * f .. (k - 1) * f + f] == w[k * f .. k * f + f];
  }

  /** Block `k` of the result is the sum of the bins merged into it. */
  lemma {:induction false} BlockSumsAt(w: seq<real>, f: nat, k: nat)
    requires f > 0 && |w| % f == 0 && k < |w| / f
    ensures BlockSums(w, f)[k] == Sum(Block(w, f, k))
    decreases k
  {
    DivStep(|w|, f);
    if k > 0 {
      BlockSumsAt(w[f..], f, k - 1);
      BlockShift(w, f, k);
    }
  }

  /** Merging bins conserves the total count. */
  lemma {:induction false} BlockSumsConserve(w: seq<real>, f: nat)
    requires f > 0 && |w| % f == 0
    ensures Sum(BlockSums(w, f)) == Sum(w)
    decreases |w|
  {
    if |w| > 0 {
      DivStep(|w|, f);
      BlockSumsConserve(w[f..], f);
      assert w == w[..f] + w[f..];
      SumConcat(w[..f], w[f..]);
      assert BlockSums(w, f)[1..] == BlockSums(w[f..], f);
    }
  }

  // ------------------------------------------------------------ two dimensions

  /** Elementwise sum of two rows. */
  function AddRows(a: seq<real>, b: seq<real>): (r: seq<real>)
    requires |a| == |b|
    ensures |r| == |a| && forall j :: 0 <= j < |r| ==> r[j] == a[j] + b[j]
  {
    seq(|a|, j requires 0 <= j < |a| => a[j] + b[j])
  }

  lemma {:induction false} SumAddRows(a: seq<real>, b: seq<real>)
    requires |a| == |b|
    ensures Sum(AddRows(a, b)) == Sum(a) + Sum(b)
  {
    if a != [] {
      SumAddRows(a[1..], b[1..]);
      assert AddRows(a, b)[1..] == AddRows(a[1..], b[1..]);
    }
  }

  predicate RowsOfWidth(rows: seq<seq<real>>, width: nat)
  {
    forall i :: 0 <= i < |rows| ==> |rows[i]| == width
  }

  function Zeros(n: nat): (s: seq<real>)
    ensures |s| == n && Sum(s) == 0.0
    ensures forall i :: 0 <= i < n ==> s[i] == 0.0
  {
    if n == 0 then [] else [0.0] + Zeros(n - 1)
  }

  /** Elementwise sum of a group of rows. */
  function SumRowGroup(group: seq<seq<real>>, width: nat): (r: seq<real>)
    requires RowsOfWidth(group, width)
    ensures |r| == width
  {
    if group == [] then Zeros(width) else AddRows(group[0], SumRowGroup(group[1..], width))
  }

  lemma {:induction false} SumRowGroupTotal(group: seq<seq<real>>, width: nat)
    requires RowsOfWidth(group, width)
    ensures Sum(SumRowGroup(group, width)) == Total2(group)
  {
    if group != [] {
      SumRowGroupTotal(group[1..], width);
      SumAddRows(group[0], SumRowGroup(group[1..], width));
    }
  }

  /** Merge blocks of `f` consecutive rows (the first dimension). */
  function RowBlockSums(rows: seq<seq<real>>, f: nat, width: nat): (r: seq<seq<real>>)
    requires f > 0 && |rows| % f == 0 && RowsOfWidth(rows, width)
    ensures |r| == |rows| / f && RowsOfWidth(r, width)
    decreases |rows|
  {
    if |rows| == 0 then []
    else
      DivStep(|rows|, f);
      [SumRowGroup(rows[..f], width)] + RowBlockSums(rows[f..], f, width)
  }

  lemma {:induction false} RowBlockSumsConserve(rows: seq<seq<real>>, f: nat, width: nat)
    requires f > 0 && |rows| % f == 0 && RowsOfWidth(rows, width)
    ensures Total2(RowBlockSums(rows, f, width)) == Total2(rows)
    decreases |rows|
  {
    if |rows| > 0 {
      DivStep(|rows|, f);
      RowBlockSumsConserve(rows[f..], f, width);
      SumRowGroupTotal(rows[..f], width);
      assert rows == rows[..f] + rows[f..];
      Total2Concat(rows[..f], rows[f..]);
      assert RowBlockSums(rows, f, width)[1..] == RowBlockSums(rows[f..], f, width);
    }
  }

  /** Group `k` of the merged rows is the elementwise sum of rows `k*f` up to `k*f + f`. */
  lemma {:induction false} RowBlockSumsAt(rows: seq<seq<real>>, f: nat, width: nat, k: nat)
    requires f > 0 && |rows| % f == 0 && RowsOfWidth(rows, width) && k < |rows| / f
    ensures RowsOfWidth(Block(rows, f, k), width)
    ensures RowBlockSums(rows, f, width)[k] == SumRowGroup(Block(rows, f, k), width)
    decreases k
  {
    DivStep(|rows|, f);
    if k > 0 {
      RowBlockSumsAt(rows[f..], f, width, k - 1);
      BlockShift(rows, f, k);
    }
  }

  /** Columns `k*f` up to `k*f + f` of every row of a group. */
  function SubBlocks(group: seq<seq<real>>, f: nat, k: nat, width: nat): (r: seq<seq<real>>)
    requires RowsOfWidth(group, width) && f > 0 && width % f == 0 && k < width / f
    ensures |r| == |group| && RowsOfWidth(r, f)
    ensures forall i :: 0 <= i < |group| ==> r[i] == Block(group[i], f, k)
  {
    seq(|group|, i requires 0 <= i < |group| => Block(group[i], f, k))
  }

  lemma {:induction false} BlockAddRows(a: seq<real>, b: seq<real>, f: nat, k: nat)
    requires |a| == |b| && f > 0 && |a| % f == 0 && k < |a| / f
    ensures Block(AddRows(a, b), f, k) == AddRows(Block(a, f, k), Block(b, f, k))
  {
    BlockBounds(|a|, f, k);
  }

  lemma {:induction false} BlockZeros(n: nat, f: nat, k: nat)
    requires f > 0 && n % f == 0 && k < n / f
    ensures Block(Zeros(n), f, k) == Zeros(f)
  {
    BlockBounds(n, f, k);
  }

  /** Taking a block of columns commutes with summing a group of rows. */
  lemma {:induction false} BlockOfRowGroup(group: seq<seq<real>>, f: nat, k: nat, width: nat)
    requires RowsOfWidth(group, width) && f > 0 && width % f == 0 && k < width / f
    ensures Block(SumRowGroup(group, width), f, k) == SumRowGroup(SubBlocks(group, f, k, width), f)
  {
    if group == [] {
      BlockZeros(width, f, k);
    } else {
      BlockOfRowGroup(group[1..], f, k, width);
      BlockAddRows(group[0], SumRowGroup(group[1..], width), f, k);
      assert SubBlocks(group, f, k, width)[1..] == SubBlocks(group[1..], f, k, width);
    }
  }

  /** Merge blocks of `f` consecutive bins within every row (the second dimension). */
  function ColumnBlockSums(rows: seq<seq<real>>, f: nat, width: nat): (r: seq<seq<real>>)
    requires f > 0 && width % f == 0 && RowsOfWidth(rows, width)
    ensures |r| == |rows| && RowsOfWidth(r, width / f)
    ensures forall i :: 0 <= i < |rows| ==> r[i] == BlockSums(rows[i], f)
  {
    seq(|rows|, i requires 0 <= i < |rows| => BlockSums(rows[i], f))
  }

  lemma {:induction false} ColumnBlockSumsConserve(rows: seq<seq<real>>, f: nat, width: nat)
    requires f > 0 && width % f == 0 && RowsOfWidth(rows, width)
    ensures Total2(ColumnBlockSums(rows, f, width)) == Total2(rows)
  {
    if rows != [] {
      ColumnBlockSumsConserve(rows[1..], f, width);
      BlockSumsConserve(rows[0], f);
      assert ColumnBlockSums(rows, f, width)[1..] == ColumnBlockSums(rows[1..], f, width);
    }
  }

  // ------------------------------------------------------------ grids

  /** The blockwise sum of a counts array by one factor per dimension. */
  function RebinSum(g: Grid, factors: seq<nat>): (r: Grid)
    requires g.Rectangular() && |factors| == |g.Dims()| && Divides(g.Dims(), factors)
    ensures r.Rectangular() && r.Dims() == NewShape(g.Dims(), factors)
    ensures r.Line? == g.Line?
  {
    match g
    case Line(c) => Line(BlockSums(c, factors[0]))
    case Plane(rows, width) =>
      Plane(ColumnBlockSums(RowBlockSums(rows, factors[0], width), factors[1], width), width / factors[1])
  }

  /** Rebinning conserves the total weighted count, in one or two dimensions. */
  lemma {:induction false} RebinSumConserves(g: Grid, factors: seq<nat>)
    requires g.Rectangular() && |factors| == |g.Dims()| && Divides(g.Dims(), factors)
    ensures Total(RebinSum(g, factors)) == Total(g)
  {
    match g
    case Line(c) => BlockSumsConserve(c, factors[0]);
    case Plane(rows, width) =>
      var merged := RowBlockSums(rows, factors[0], width);
      RowBlockSumsConserve(rows, factors[0], width);
      ColumnBlockSumsConserve(merged, factors[1], width);
  }

  /** In two dimensions, merged cell `(p, q)` holds the total of the `f0` by `f1`
      block of cells it replaces: rows `p*f0` up to `p*f0 + f0`, and within each of
      them columns `q*f1` up to `q*f1 + f1`. */
  lemma {:induction false} RebinSumPlaneAt(rows: seq<seq<real>>, width: nat, f0: nat, f1: nat, p: nat, q: nat)
    requires RowsOfWidth(rows, width) && f0 > 0 && f1 > 0
    requires |rows| % f0 == 0 && width % f1 == 0 && p < |rows| / f0 && q < width / f1
    ensures Divides(Plane(rows, width).Dims(), [f0, f1]) && RowsOfWidth(Block(rows, f0, p), width)
    ensures RebinSum(Plane(rows, width), [f0, f1]).rows[p][q]
         == Total2(SubBlocks(Block(rows, f0, p), f1, q, width))
  {
    var merged := RowBlockSums(rows, f0, width);
    RowBlockSumsAt(rows, f0, width, p);
    BlockSumsAt(merged[p], f1, q);
    BlockOfRowGroup(Block(rows, f0, p), f1, q, width);
    SumRowGroupTotal(SubBlocks(Block(rows, f0, p), f1, q, width), f1);
  }

  /** Elementwise product of two arrays of one shape. */
  function MulGrid(a: Grid, b: Grid): (r: Grid)
    requires a.Rectangular() && b.Rectangular() && a.Dims() == b.Dims()
    ensures r.Rectangular() && r.Dims() == a.Dims() && r.Line? == a.Line?
    ensures r.Line? ==> forall i :: 0 <= i < |r.cells| ==> r.cells[i] == a.cells[i] * b.cells[i]
    ensures r.Plane? ==> forall i, j :: 0 <= i < |r.rows| && 0 <= j < r.width ==>
      r.rows[i][j] == a.rows[i][j] * b.rows[i][j]
  {
    match a
    case Line(c) => Line(Mul(c, b.cells))
    case Plane(rows, width) =>
      Plane(seq(|rows|, i requires 0 <= i < |rows| => Mul(rows[i], b.rows[i])), width)
  }

  /** No cell is zero (the merged counts a mean separation is divided by). */
  predicate NonZero(g: Grid)
  {
    match g
    case Line(c) => forall i :: 0 <= i < |c| ==> c[i] != 0.0
    case Plane(rows, _) => forall i, j :: 0 <= i < |rows| && 0 <= j < |rows[i]| ==> rows[i][j] != 0.0
  }

  /** Elementwise quotient of two arrays of one shape. */
  function DivGrid(a: Grid, b: Grid): (r: Grid)
    requires a.Rectangular() && b.Rectangular() && a.Dims() == b.Dims() && NonZero(b)
    ensures r.Rectangular() && r.Dims() == a.Dims() && r.Line? == a.Line?
    ensures r.Line? ==> forall i :: 0 <= i < |r.cells| ==> r.cells[i] == a.cells[i] / b.cells[i]
    ensures r.Plane? ==> forall i, j :: 0 <= i < |r.rows| && 0 <= j < r.width ==>
      r.rows[i][j] == a.rows[i][j] / b.rows[i][j]
  {
    match a
    case Line(c) => Line(seq(|c|, i requires 0 <= i < |c| => c[i] / b.cells[i]))
    case Plane(rows, width) =>
      Plane(seq(|rows|, i requires 0 <= i < |rows| =>
              seq(width, j requires 0 <= j < width => rows[i][j] / b.rows[i][j])), width)
  }

  /** The separation after rebinning, as documented: the merged sum of `sep * wcounts`
      over the merged counts, both taken BEFORE the counts are replaced. */
  function RebinSep(sep: Grid, wcounts: Grid, factors: seq<nat>): (r: Grid)
    requires wcounts.Rectangular() && sep.Rectangular() && sep.Dims() == wcounts.Dims()
    requires |factors| == |wcounts.Dims()| && Divides(wcounts.Dims(), factors)
    requires NonZero(RebinSum(wcounts, factors))
    ensures r.Rectangular() && r.Dims() == NewShape(wcounts.Dims(), factors)
  {
    DivGrid(RebinSum(MulGrid(sep, wcounts), factors), RebinSum(wcounts, factors))
  }

  /** Multiplying a quotient back by its divisor, cell by cell, gives the dividend. */
  lemma {:induction false} QuotientTimesDivisor(moment: Grid, merged: Grid)
    requires moment.Rectangular() && merged.Rectangular() && moment.Dims() == merged.Dims()
    requires NonZero(merged)
    ensures MulGrid(DivGrid(moment, merged), merged) == moment
  {
    var product := MulGrid(DivGrid(moment, merged), merged);
    if moment.Line? {
      QuotientTimesDivisorLine(moment.cells, merged.cells);
    } else {
      forall i | 0 <= i < |moment.rows|
        ensures product.rows[i] == moment.rows[i]
      {
        QuotientTimesDivisorRow(moment, merged, i);
      }
    }
  }

  lemma {:induction false} QuotientTimesDivisorLine(moment: seq<real>, merged: seq<real>)
    requires |moment| == |merged| && NonZero(Line(merged))
    ensures MulGrid(DivGrid(Line(moment), Line(merged)), Line(merged)) == Line(moment)
  {
    var product := MulGrid(DivGrid(Line(moment), Line(merged)), Line(merged));
    forall i | 0 <= i < |moment|
      ensures product.cells[i] == moment[i]
    {
      DivMul(moment[i], merged[i]);
    }
  }

  lemma {:induction false} QuotientTimesDivisorRow(moment: Grid, merged: Grid, i: nat)
    requires moment.Plane? && moment.Rectangular() && merged.Rectangular()
    requires moment.Dims() == merged.Dims() && NonZero(merged) && i < |moment.rows|
    ensures MulGrid(DivGrid(moment, merged), merged).rows[i] == moment.rows[i]
  {
    var mean := DivGrid(moment, merged);
    var product := MulGrid(mean, merged);
    forall j | 0 <= j < moment.width
      ensures product.rows[i][j] == moment.rows[i][j]
    {
      QuotientTimes(mean.rows[i][j], moment.rows[i][j], merged.rows[i][j], merged.rows[i][j]);
    }
  }

  /** The first moment `sum(sep * wcounts)` is the same before and after rebinning:
      each merged bin carries the count-weighted mean of the bins it merges. */
  lemma {:induction false} RebinSepKeepsMoment(sep: Grid, wcounts: Grid, factors: seq<nat>)
    requires wcounts.Rectangular() && sep.Rectangular() && sep.Dims() == wcounts.Dims()
    requires |factors| == |wcounts.Dims()| && Divides(wcounts.Dims(), factors)
    requires NonZero(RebinSum(wcounts, factors))
    ensures Total(MulGrid(RebinSep(sep, wcounts, factors), RebinSum(wcounts, factors)))
         == Total(MulGrid(sep, wcounts))
  {
    QuotientTimesDivisor(RebinSum(MulGrid(sep, wcounts), factors), RebinSum(wcounts, factors));
    RebinSumConserves(MulGrid(sep, wcounts), factors);
  }

  lemma {:induction false} DivMul(x: real, y: real)
    requires y != 0.0
    ensures (x / y) * y == x
  {
  }

  lemma {:induction false} QuotientTimes(q: real, m: real, a: real, b: real)
    requires a != 0.0 && q == m / a && b == a
    ensures q * b == m
  {
    DivMul(m, a);
  }

  /** In one dimension, merged bin `k` holds the count-weighted mean separation of
      the bins merged into it: sum(sep * wcounts) over sum(wcounts) on that block. */
  lemma {:induction false} RebinSepLineAt(sep: seq<real>, wcounts: seq<real>, f: nat, k: nat)
    requires |sep| == |wcounts| && f > 0 && |wcounts| % f == 0 && k < |wcounts| / f
    requires NonZero(RebinSum(Line(wcounts), [f]))
    ensures Sum(Block(wcounts, f, k)) != 0.0
    ensures RebinSep(Line(sep), Line(wcounts), [f]).cells[k]
         == Sum(Block(Mul(sep, wcounts), f, k)) / Sum(Block(wcounts, f, k))
  {
    var merged, moment := BlockSums(wcounts, f)[k], BlockSums(Mul(sep, wcounts), f)[k];
    assert RebinSep(Line(sep), Line(wcounts), [f]).cells[k] == moment / merged;
    BlockSumsAt(wcounts, f, k);
    BlockSumsAt(Mul(sep, wcounts), f, k);
    assert merged == Sum(Block(wcounts, f, k));
    assert moment == Sum(Block(Mul(sep, wcounts), f, k));
  }

  /** In two dimensions, merged cell `(p, q)` holds the count-weighted mean separation
      of its `f0` by `f1` block: the block's total of `sep * wcounts` over the block's
      total count. */
  lemma {:induction false} RebinSepPlaneAt(sep: seq<seq<real>>, wcounts: seq<seq<real>>, width: nat,
                                           f0: nat, f1: nat, p: nat, q: nat)
    requires RowsOfWidth(sep, width) && RowsOfWidth(wcounts, width) && |sep| == |wcounts|
    requires Divides(Plane(wcounts, width).Dims(), [f0, f1])
    requires NonZero(RebinSum(Plane(wcounts, width), [f0, f1]))
    requires p < |wcounts| / f0 && q < width / f1
    ensures var moment := MulGrid(Plane(sep, width), Plane(wcounts, width)).rows;
      && RowsOfWidth(Block(wcounts, f0, p), width) && RowsOfWidth(Block(moment, f0, p), width)
      && Total2(SubBlocks(Block(wcounts, f0, p), f1, q, width)) != 0.0
      && RebinSep(Plane(sep, width), Plane(wcounts, width), [f0, f1]).rows[p][q]
         == Total2(SubBlocks(Block(moment, f0, p), f1, q, width)) / Total2(SubBlocks(Block(wcounts, f0, p), f1, q, width))
  {
    var product := MulGrid(Plane(sep, width), Plane(wcounts, width));
    assert product == Plane(product.rows, width);
    RebinSumPlaneAt(wcounts, width, f0, f1, p, q);
    RebinSumPlaneAt(product.rows, width, f0, f1, p, q);
  }

  // ------------------------------------------------------------ as written

  /** Line 303 of `rebin` AS WRITTEN in one dimension: the OLD separations are
      multiplied by the ALREADY merged counts (numpy broadcasting: equal lengths, or
      a single merged bin repeated), then merged and divided by the merged counts. */
  function RebinSepLineAsWritten(sep: seq<real>, wcounts: seq<real>, f: nat): (r: Result<seq<real>>)
    requires |sep| == |wcounts| && f > 0 && |wcounts| % f == 0
    requires NonZero(Line(BlockSums(wcounts, f)))
  {
    var merged := BlockSums(wcounts, f);
    if |merged| != |sep| && |merged| != 1 then Err(BroadcastMismatch)
    else
      var product := if |merged| == |sep| then Mul(sep, merged) else seq(|sep|, i requires 0 <= i < |sep| => sep[i] * merged[0]);
      var summed := BlockSums(product, f);
      Ok(seq(|summed|, k requires 0 <= k < |summed| => summed[k] / merged[k]))
  }

  /** Two bins at separations 1 and 3 with one pair each, merged by a factor of 2:
      the code as written yields 4, the sum of the separations, where the
      count-weighted mean is 2. With four bins merged in pairs it cannot broadcast. */
  lemma {:induction false} RebinSepAsWrittenWrong()
    ensures RebinSepLineAsWritten([1.0, 3.0], [1.0, 1.0], 2) == Ok([4.0])
    ensures RebinSep(Line([1.0, 3.0]), Line([1.0, 1.0]), [2]) == Line([2.0])
    ensures RebinSepLineAsWritten([1.0, 2.0, 3.0, 4.0], [1.0, 1.0, 1.0, 1.0], 2).Err?
  {
    assert BlockSums([1.0, 1.0], 2) == [2.0];
    assert BlockSums([2.0, 6.0], 2) == [8.0];
    var product := seq(2, i requires 0 <= i < 2 => [1.0, 3.0][i] * 2.0);
    assert product == [2.0, 6.0];
    var quotient := seq(1, k requires 0 <= k < 1 => [8.0][k] / [2.0][k]);
    assert quotient == [4.0];
    assert Mul([1.0, 3.0], [1.0, 1.0]) == [1.0, 3.0];
    assert BlockSums([1.0, 3.0], 2) == [4.0];
    assert BlockSums([1.0, 1.0, 1.0, 1.0], 2) == [2.0, 2.0] by {
      assert [1.0, 1.0, 1.0, 1.0][2..] == [1.0, 1.0];
    }
  }
}
