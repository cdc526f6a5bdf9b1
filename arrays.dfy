/** Real-valued arrays as the counter stores them: a 1-D array is a `seq<real>`,
    a 2-D array (first dimension by second dimension) is a rectangular grid of rows.
    The numpy reductions the source relies on (`sum`, `np.diff`) are defined here once. */
module Arrays {

  /** `np.sum` of a 1-D array. */
  function Sum(s: seq<real>): real
  {
    if s == [] then 0.0 else s[0] + Sum(s[1..])
  }

  /** `(s**2).sum()`. */
  function SumSq(s: seq<real>): real
  {
    if s == [] then 0.0 else s[0] * s[0] + SumSq(s[1..])
  }

  lemma {:induction false} SumConcat(a: seq<real>, b: seq<real>)
    ensures Sum(a + b) == Sum(a) + Sum(b)
  {
    if a == [] {
      assert a + b == b;
    } else {
      assert (a + b)[1..] == a[1..] + b;
      SumConcat(a[1..], b);
    }
  }

  lemma {:induction false} SumSqConcat(a: seq<real>, b: seq<real>)
    ensures SumSq(a + b) == SumSq(a) + SumSq(b)
  {
    if a == [] {
      assert a + b == b;
    } else {
      assert (a + b)[1..] == a[1..] + b;
      SumSqConcat(a[1..], b);
    }
  }

  /** Peeling the last element off a sum. */
  lemma {:induction false} SumSnoc(s: seq<real>, x: real)
    ensures Sum(s + [x]) == Sum(s) + x
  {
    SumConcat(s, [x]);
  }

  lemma {:induction false} SumSqSnoc(s: seq<real>, x: real)
    ensures SumSq(s + [x]) == SumSq(s) + x * x
  {
    SumSqConcat(s, [x]);
  }

  /** Elementwise product `a * b` of two arrays of one length. */
  function Mul(a: seq<real>, b: seq<real>): (r: seq<real>)
    requires |a| == |b|
    ensures |r| == |a| && forall i :: 0 <= i < |r| ==> r[i] == a[i] * b[i]
  {
    seq(|a|, i requires 0 <= i < |a| => a[i] * b[i])
  }

  /** `np.diff` of a 1-D array: the first differences `s[i+1] - s[i]`. */
  function Diff(s: seq<real>): (r: seq<real>)
    ensures |r| == if |s| == 0 then 0 else |s| - 1
    ensures forall i :: 0 <= i < |r| ==> r[i] == s[i + 1] - s[i]
  {
    seq(if |s| == 0 then 0 else |s| - 1, i requires 0 <= i < |s| - 1 => s[i + 1] - s[i])
  }

  lemma {:induction false} DiffTail(s: seq<real>)
    requires |s| > 1
    ensures Diff(s)[1..] == Diff(s[1..])
  {
    var r, t := Diff(s)[1..], Diff(s[1..]);
    assert |r| == |t|;
    forall i | 0 <= i < |r|
      ensures r[i] == t[i]
    {
    }
  }

  /** First differences telescope: their total is the last value minus the first. */
  lemma {:induction false} DiffTelescopes(s: seq<real>)
    requires |s| >= 1
    ensures Sum(Diff(s)) == s[|s| - 1] - s[0]
  {
    if |s| > 1 {
      DiffTail(s);
      DiffTelescopes(s[1..]);
    }
  }

  /** A 2-D numpy array: `rows[i][j]` is bin `i` of the first dimension and
      bin `j` of the second; `width` keeps the second extent when there are no rows. */
  datatype Grid = Line(cells: seq<real>) | Plane(rows: seq<seq<real>>, width: nat)
  {
    /** numpy arrays are rectangular. */
    predicate Rectangular()
    {
      Plane? ==> forall i :: 0 <= i < |rows| ==> |rows[i]| == width
    }

    /** The array's shape, one extent per dimension. */
    function Dims(): (d: seq<nat>)
      ensures |d| == if Line? then 1 else 2
    {
      if Line? then [|cells|] else [|rows|, width]
    }
  }

  /** `np.sum` over every cell of a 2-D array, row by row. */
  function Total2(rows: seq<seq<real>>): real
  {
    if rows == [] then 0.0 else Sum(rows[0]) + Total2(rows[1..])
  }

  lemma {:induction false} Total2Concat(a: seq<seq<real>>, b: seq<seq<real>>)
    ensures Total2(a + b) == Total2(a) + Total2(b)
  {
    if a == [] {
      assert a + b == b;
    } else {
      assert (a + b)[1..] == a[1..] + b;
      Total2Concat(a[1..], b);
    }
  }

  /** `np.sum` of a counts array of either dimensionality. */
  function Total(g: Grid): real
  {
    match g
    case Line(c) => Sum(c)
    case Plane(rows, _) => Total2(rows)
  }

  // ------------------------------------------------------------ scaling

  lemma {:induction false} Distribute(a: real, b: real, c: real)
    ensures a * (b + c) == a * b + a * c
    ensures (b + c) * a == b * a + c * a
  {
  }

  /** `c * s` elementwise. */
  function Scale(s: seq<real>, c: real): (r: seq<real>)
    ensures |r| == |s| && forall i :: 0 <= i < |s| ==> r[i] == c * s[i]
  {
    seq(|s|, i requires 0 <= i < |s| => c * s[i])
  }

  /** A scaled sum is the sum of the scaled parts. */
  lemma {:induction false} ScaledSum(c: real, a: real, b: real, x: real, y: real)
    requires x == c * a && y == c * b
    ensures x + y == c * (a + b)
  {
  }

  lemma {:induction false} ScaleTail(s: seq<real>, c: real)
    requires s != []
    ensures Scale(s, c)[1..] == Scale(s[1..], c)
  {
    var r, t := Scale(s, c)[1..], Scale(s[1..], c);
    assert |r| == |t|;
    forall i | 0 <= i < |r|
      ensures r[i] == t[i]
    {
    }
  }

  lemma {:induction false} SumScale(s: seq<real>, c: real)
    ensures Sum(Scale(s, c)) == c * Sum(s)
  {
    if s != [] {
      var r := Scale(s, c);
      ScaleTail(s, c);
      SumScale(s[1..], c);
      ScaledSum(c, s[0], Sum(s[1..]), r[0], Sum(r[1..]));
    }
  }

  function ScaleRows(rows: seq<seq<real>>, c: real): (r: seq<seq<real>>)
    ensures |r| == |rows| && forall i :: 0 <= i < |rows| ==> r[i] == Scale(rows[i], c)
  {
    seq(|rows|, i requires 0 <= i < |rows| => Scale(rows[i], c))
  }

  /** The total of each row, in order. */
  function RowSums(rows: seq<seq<real>>): (r: seq<real>)
    ensures |r| == |rows| && forall i :: 0 <= i < |rows| ==> r[i] == Sum(rows[i])
  {
    seq(|rows|, i requires 0 <= i < |rows| => Sum(rows[i]))
  }

  /** Adding up a 2-D array row by row is the sum of its row totals. */
  lemma {:induction false} Total2IsSumOfRowSums(rows: seq<seq<real>>)
    ensures Total2(rows) == Sum(RowSums(rows))
  {
    if rows != [] {
      assert RowSums(rows)[1..] == RowSums(rows[1..]);
      Total2IsSumOfRowSums(rows[1..]);
    }
  }

  lemma {:induction false} RowSumsScale(rows: seq<seq<real>>, c: real)
    ensures RowSums(ScaleRows(rows, c)) == Scale(RowSums(rows), c)
  {
    var scaled := ScaleRows(rows, c);
    forall i | 0 <= i < |rows|
      ensures RowSums(scaled)[i] == Scale(RowSums(rows), c)[i]
    {
      SumScale(rows[i], c);
    }
  }

  lemma {:induction false} Total2Scale(rows: seq<seq<real>>, c: real)
    ensures Total2(ScaleRows(rows, c)) == c * Total2(rows)
  {
    RowSumsScale(rows, c);
    Total2IsSumOfRowSums(ScaleRows(rows, c));
    Total2IsSumOfRowSums(rows);
    SumScale(RowSums(rows), c);
  }

  /** `c * g` elementwise, in one or two dimensions. */
  function ScaleGrid(g: Grid, c: real): (r: Grid)
    ensures r.Dims() == g.Dims() && r.Line? == g.Line?
    ensures g.Rectangular() ==> r.Rectangular()
  {
    match g
    case Line(cells) => Line(Scale(cells, c))
    case Plane(rows, width) => Plane(ScaleRows(rows, c), width)
  }

  lemma {:induction false} TotalScale(g: Grid, c: real)
    ensures Total(ScaleGrid(g, c)) == c * Total(g)
  {
    match g
    case Line(cells) => SumScale(cells, c);
    case Plane(rows, _) => Total2Scale(rows, c);
  }
}
