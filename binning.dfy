/** Edge handling and bin-type resolution of a pair counter
    (`_set_edges`, `_set_bin_type`, `shape`, `ndim`, `_set_default_sep`). */
module Binning {
  import opened Outcomes
  import opened Arrays
  import opened Strings

  /** The `edges` argument: either one bare array of scalars (its first element is a
      scalar) or a tuple of edge arrays, one per binned dimension. */
  datatype EdgesArg = Bare(values: seq<real>) | Tuple(arrays: seq<seq<real>>)

  /** Modes binned in two dimensions. */
  predicate IsTwoDimMode(mode: string)
  {
    mode == "smu" || mode == "rppi"
  }

  /** `ndim`: the number of edge arrays. */
  function Ndim(edges: seq<seq<real>>): nat
  {
    |edges|
  }

  /** `shape`: one bin count per dimension, `len(edges[k]) - 1` (so -1 for an
      empty edge array, as in the source). */
  function Shape(edges: seq<seq<real>>): (s: seq<int>)
    ensures |s| == Ndim(edges)
    ensures forall k :: 0 <= k < |s| ==> s[k] + 1 == |edges[k]|
  {
    seq(|edges|, k requires 0 <= k < |edges| => |edges[k]| - 1)
  }

  /** The first half of `_set_edges`: wrap a bare array into a 1-tuple. Reading
      `edges[0]` of an empty argument is an IndexError. */
  function WrapEdges(arg: EdgesArg): Result<seq<seq<real>>>
  {
    match arg
    case Bare(v) => if |v| == 0 then Err(EmptyEdges) else Ok([v])
    case Tuple(a) => if |a| == 0 then Err(EmptyEdges) else Ok(a)
  }

  /** The dimensionality rule of `_set_edges`: two edge arrays for smu/rppi, one otherwise. */
  function CheckEdgeDims(mode: string, edges: seq<seq<real>>): (o: Outcome)
    ensures o.Pass? <==> Ndim(edges) == (if IsTwoDimMode(mode) then 2 else 1)
    ensures o.Fail? ==> o.error == EdgesDimension
  {
    if IsTwoDimMode(mode) then Need(Ndim(edges) == 2, EdgesDimension)
    else Need(Ndim(edges) == 1, EdgesDimension)
  }

  // ---------------------------------------------------------------- bin type

  datatype BinType = Lin | Custom | Auto

  function BinTypeName(b: BinType): string
  {
    match b
    case Lin => "lin"
    case Custom => "custom"
    case Auto => "auto"
  }

  /** The membership test of `_set_bin_type`: the lower-cased name must be one of
      lin, custom, auto. */
  function ParseBinType(s: string): (r: Result<BinType>)
    ensures r.Ok? <==> Lower(s) == "lin" || Lower(s) == "custom" || Lower(s) == "auto"
    ensures r.Ok? ==> BinTypeName(r.value) == Lower(s)
    ensures r.Err? ==> r.error == BinTypeNotAllowed
  {
    var t := Lower(s);
    if t == "lin" then Ok(Lin)
    else if t == "custom" then Ok(Custom)
    else if t == "auto" then Ok(Auto)
    else Err(BinTypeNotAllowed)
  }

  /** Parsing a bin type's own name, in any letter case, gives it back. */
  lemma {:induction false} ParseBinTypeOfName(b: BinType, s: string)
    requires Lower(s) == BinTypeName(b)
    ensures ParseBinType(s) == Ok(b)
  {
  }

  /** Element `i` of `np.linspace(a, b, n)`. */
  function Linspace(a: real, b: real, n: nat, i: nat): real
  {
    if n <= 1 then a else a + (b - a) * (i as real) / ((n - 1) as real)
  }

  function Abs(x: real): real
  {
    if x < 0.0 then -x else x
  }

  /** The element test of `np.allclose(x, y)`: rtol = 1e-5, atol = 1e-8, relative to `y`. */
  predicate IsClose(x: real, y: real)
  {
    Abs(x - y) <= 0.00000001 + 0.00001 * Abs(y)
  }

  /** `np.allclose(edges, np.linspace(edges[0], edges[-1], len(edges)))`. */
  predicate LinearlySpaced(e: seq<real>)
    requires |e| > 0
  {
    forall i :: 0 <= i < |e| ==> IsClose(e[i], Linspace(e[0], e[|e| - 1], |e|, i))
  }

  /** The auto-detection of `_set_bin_type`, as written: `auto` becomes `lin` when the
      first-dimension edges are close to evenly spaced and otherwise STAYS `auto`
      (the documented intent is `custom`). An empty edge array fails on `edges[0]`. */
  function ResolveBinType(b: BinType, e0: seq<real>): (r: Result<BinType>)
    ensures b != Auto ==> r == Ok(b)
    ensures b == Auto ==> (r.Err? <==> |e0| == 0)
    ensures b == Auto && |e0| > 0 ==> (r == Ok(Lin) <==> LinearlySpaced(e0)) && r != Ok(Custom)
  {
    if b != Auto then Ok(b)
    else if |e0| == 0 then Err(EmptyEdges)
    else if LinearlySpaced(e0) then Ok(Lin)
    else Ok(Auto)
  }

  /** Edges that are exactly evenly spaced are detected as linear. */
  lemma {:induction false} EvenEdgesAreLin(a: real, b: real, n: nat)
    requires n >= 1
    ensures ResolveBinType(Auto, seq(n, i requires 0 <= i => Linspace(a, b, n, i))) == Ok(Lin)
  {
    var e := seq(n, i requires 0 <= i => Linspace(a, b, n, i));
    LinspaceEnds(a, b, n);
    assert e[0] == a && (n > 1 ==> e[n - 1] == b);
    forall i | 0 <= i < n
      ensures IsClose(e[i], Linspace(e[0], e[n - 1], n, i))
    {
      assert e[i] == Linspace(a, b, n, i);
    }
  }

  /** `np.linspace` starts at its first bound and, with two points or more, ends at
      its second. */
  lemma {:induction false} LinspaceEnds(a: real, b: real, n: nat)
    requires n >= 1
    ensures Linspace(a, b, n, 0) == a && (n > 1 ==> Linspace(a, b, n, n - 1) == b)
  {
    if n > 1 {
      var d := (n - 1) as real;
      assert Linspace(a, b, n, n - 1) == a + (b - a) * d / d;
      MulDivCancel(b - a, d);
    }
  }

  lemma {:induction false} MulDivCancel(x: real, d: real)
    requires d != 0.0
    ensures x * d / d == x
  {
  }

  /** Geometric edges such as 1, 10, 100 are not detected as linear: the middle edge
      is far from 50.5, so the bin type stays `auto`. */
  lemma {:induction false} GeometricEdgesStayAuto()
    ensures ResolveBinType(Auto, [1.0, 10.0, 100.0]) == Ok(Auto)
  {
    var e := [1.0, 10.0, 100.0];
    assert Linspace(e[0], e[2], 3, 1) == 50.5;
    assert !IsClose(e[1], Linspace(e[0], e[2], 3, 1));
  }

  /** `_set_edges` followed by `_set_bin_type`, with the errors in the source's order. */
  function ConfigureEdges(mode: string, arg: EdgesArg, binType: string): (r: Result<(seq<seq<real>>, BinType)>)
    ensures r.Ok? ==> Ndim(r.value.0) == (if IsTwoDimMode(mode) then 2 else 1)
    ensures r.Ok? && arg.Bare? ==> r.value.0 == [arg.values]
    ensures r.Ok? && arg.Tuple? ==> r.value.0 == arg.arrays
    ensures r.Ok? ==> r.value.1 != Custom || Lower(binType) == "custom"
    ensures r.Ok? && Lower(binType) == "auto" ==> |r.value.0[0]| > 0
    ensures r.Ok? ==>
      && ParseBinType(binType).Ok?
      && ResolveBinType(ParseBinType(binType).value, r.value.0[0]) == Ok(r.value.1)
  {
    var edges :- WrapEdges(arg);
    var dims := CheckEdgeDims(mode, edges);
    if dims.Fail? then Err(dims.error) else
    var parsed :- ParseBinType(binType);
    var resolved :- ResolveBinType(parsed, edges[0]);
    Ok((edges, resolved))
  }

  /** Edge configuration succeeds exactly when the argument is non-empty, its
      dimensionality matches the mode, the bin type is allowed, and auto-detection
      has a first edge to read. */
  lemma {:induction false} ConfigureEdgesSucceedsIff(mode: string, arg: EdgesArg, binType: string)
    ensures ConfigureEdges(mode, arg, binType).Ok? <==>
      && WrapEdges(arg).Ok?
      && Ndim(WrapEdges(arg).value) == (if IsTwoDimMode(mode) then 2 else 1)
      && ParseBinType(binType).Ok?
      && (ParseBinType(binType).value == Auto ==> |WrapEdges(arg).value[0]| > 0)
  {
  }

  // ---------------------------------------------------------------- default separation

  /** `(edges[1:] + edges[:-1]) / 2`: the midpoint of every bin. */
  function Midpoints(e: seq<real>): (m: seq<real>)
    ensures |m| == if |e| == 0 then 0 else |e| - 1
    ensures forall i :: 0 <= i < |m| ==> m[i] == (e[i] + e[i + 1]) / 2.0
  {
    seq(if |e| == 0 then 0 else |e| - 1, i requires 0 <= i < |e| - 1 => (e[i] + e[i + 1]) / 2.0)
  }

  predicate StrictlyIncreasing(e: seq<real>)
  {
    forall i :: 0 <= i < |e| - 1 ==> e[i] < e[i + 1]
  }

  /** `_set_default_sep` as intended: the midpoint of each first-dimension bin; in two
      dimensions `sep[i][j]` is the midpoint of first-dimension bin `i` for every `j`.
      `np.empty` with a negative extent (an empty edge array) fails. */
  function DefaultSep(edges: seq<seq<real>>): (r: Result<Grid>)
    requires Ndim(edges) >= 1
    ensures Ndim(edges) == 2 ==> (r.Ok? <==> |edges[0]| >= 1 && |edges[1]| >= 1)
    ensures r.Ok? ==> r.value.Rectangular()
    ensures r.Ok? && Ndim(edges) != 2 ==> r.value.Line? && r.value.cells == Midpoints(edges[0])
    ensures r.Ok? && Ndim(edges) == 2 ==>
      r.value.Plane? && r.value.Dims() == [|edges[0]| - 1, |edges[1]| - 1]
    ensures r.Ok? && Ndim(edges) == 2 ==>
      forall i, j :: 0 <= i < |r.value.rows| && 0 <= j < r.value.width ==>
        r.value.rows[i][j] == Midpoints(edges[0])[i]
  {
    var mids := Midpoints(edges[0]);
    if Ndim(edges) != 2 then Ok(Line(mids))
    else if |edges[0]| == 0 || |edges[1]| == 0 then Err(NegativeDimension)
    else
      var n1 := |edges[1]| - 1;
      Ok(Plane(seq(|mids|, i requires 0 <= i < |mids| => seq(n1, j => mids[i])), n1))
  }

  /** Every default separation lies strictly inside its first-dimension bin. */
  lemma {:induction false} DefaultSepInsideBin(edges: seq<seq<real>>, i: nat, j: nat)
    requires Ndim(edges) >= 1 && StrictlyIncreasing(edges[0])
    requires DefaultSep(edges).Ok?
    requires i + 1 < |edges[0]|
    requires Ndim(edges) == 2 ==> j + 1 < |edges[1]|
    ensures var g := DefaultSep(edges).value;
      var s := if g.Line? then g.cells[i] else g.rows[i][j];
      edges[0][i] < s < edges[0][i + 1]
  {
  }

  /** `_set_default_sep` AS WRITTEN in two dimensions: `sep[...] = midpoints` broadcasts
      the first-dimension midpoints along the LAST axis, which numpy allows only when
      their count equals the second extent or is one. */
  function DefaultSep2AsWritten(edges: seq<seq<real>>): (r: Result<Grid>)
    requires Ndim(edges) == 2
    ensures r.Ok? ==> r.value.Plane? && r.value.Rectangular()
  {
    var mids := Midpoints(edges[0]);
    if |edges[0]| == 0 || |edges[1]| == 0 then Err(NegativeDimension)
    else
      var n0, n1 := |edges[0]| - 1, |edges[1]| - 1;
      if |mids| == n1 then Ok(Plane(seq(n0, i => mids), n1))
      else if |mids| == 1 then Ok(Plane(seq(n0, i => seq(n1, j => mids[0])), n1))
      else Err(BroadcastMismatch)
  }

  /** Two s bins by two mu bins: the as-written default puts the midpoint of s bin 1 in
      cell (0, 1), where the midpoint of s bin 0 belongs. */
  lemma {:induction false} DefaultSep2AsWrittenWrongCell()
    ensures var edges := [[0.0, 1.0, 2.0], [0.0, 0.5, 1.0]];
      && DefaultSep2AsWritten(edges) == Ok(Plane([[0.5, 1.5], [0.5, 1.5]], 2))
      && DefaultSep(edges) == Ok(Plane([[0.5, 0.5], [1.5, 1.5]], 2))
  {
    var edges := [[0.0, 1.0, 2.0], [0.0, 0.5, 1.0]];
    var mids := Midpoints(edges[0]);
    assert mids == [0.5, 1.5];
    assert seq(2, i => mids) == [[0.5, 1.5], [0.5, 1.5]];
    var rows := seq(2, i requires 0 <= i < 2 => seq(2, j => mids[i]));
    assert rows[0] == [0.5, 0.5] && rows[1] == [1.5, 1.5];
    assert rows == [[0.5, 0.5], [1.5, 1.5]];
  }

  /** With three s bins and two mu bins the as-written broadcast fails outright. */
  lemma {:induction false} DefaultSep2AsWrittenFails()
    ensures DefaultSep2AsWritten([[0.0, 1.0, 2.0, 3.0], [0.0, 0.5, 1.0]]).Err?
    ensures DefaultSep([[0.0, 1.0, 2.0, 3.0], [0.0, 0.5, 1.0]]).Ok?
  {
  }
}
