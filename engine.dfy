/** The pair-count result of `BaseTwoPointCounterEngine`: the constructor runs the
    setters in order (positions, weights, edges, line of sight, box), takes the counts
    and separations the engine computed, and fixes the normalization; `rebin` later
    replaces counts and separations in place. Also the engine dispatch of
    `TwoPointCounter` and the analytic counter for uniform randoms in a box. */
module PairCounter {
  import opened Outcomes
  import opened Arrays
  import opened Strings
  import opened Binning
  import opened Catalog
  import opened Geometry
  import opened Normalization
  import opened Rebinning
  import Analytic

  // ------------------------------------------------------------ configuration

  /** The validated configuration fields of a counter. */
  datatype Config = Config(
    mode: string,
    catalogs: Catalogs,
    weighting: Weighting,
    edges: seq<seq<real>>,
    binType: BinType,
    los: string,
    boxsize: Option<seq<real>>)

  /** The resolved weighting agrees with the catalogs: no weights without weighting,
      and pair-product weights of each catalog's length (none for the second catalog
      of an autocorrelation). */
  predicate WeightingFits(catalogs: Catalogs, w: Weighting)
    requires |catalogs.positions1| > 0
    requires catalogs.positions2.Some? ==> |catalogs.positions2.value| > 0
  {
    && (w.weightType == Unweighted || w.weightType == PairProduct)
    && (w.weightType == Unweighted ==> w.weights1.None? && w.weights2.None?)
    && (w.weightType == PairProduct ==> w.weights1.Some? && |w.weights1.value| == catalogs.Size1())
    && (w.weightType == PairProduct && catalogs.autocorr ==> w.weights2.None?)
    && (w.weightType == PairProduct && !catalogs.autocorr ==>
          w.weights2.Some? && |w.weights2.value| == catalogs.Size2())
  }

  /** Everything the setters guarantee about a configuration. */
  predicate ConfigValid(c: Config)
  {
    && c.catalogs.Valid(c.mode)
    && WeightingFits(c.catalogs, c.weighting)
    && Ndim(c.edges) == (if IsTwoDimMode(c.mode) then 2 else 1)
    && AllowedLos(c.los)
    && (c.boxsize.Some? ==> |c.boxsize.value| == 3)
  }

  /** `_set_weights` on validated catalogs, with their sizes. */
  function CatalogWeights(mode: string, catalogs: Catalogs, weights1: Option<seq<real>>,
                          weights2: Option<seq<real>>, weightType: Option<string>): Result<Weighting>
    requires catalogs.Valid(mode)
  {
    ValidateWeights(catalogs.autocorr, catalogs.Size1(), catalogs.Size2(), weights1, weights2, weightType)
  }

  /** Accepted weights fit the catalogs they were checked against. */
  lemma {:induction false} CatalogWeightsFit(mode: string, catalogs: Catalogs, weights1: Option<seq<real>>,
                          weights2: Option<seq<real>>, weightType: Option<string>)
    requires catalogs.Valid(mode)
    requires CatalogWeights(mode, catalogs, weights1, weights2, weightType).Ok?
    ensures WeightingFits(catalogs, CatalogWeights(mode, catalogs, weights1, weights2, weightType).value)
  {
    ValidateWeightsResult(catalogs.autocorr, catalogs.Size1(), catalogs.Size2(), weights1, weights2, weightType);
  }

  /** The validation part of `__init__`: the setters in the order the constructor calls
      them. The first failing setter's error is the one reported; a configuration that
      passes every setter satisfies all their guarantees at once. */
  function Configure(mode: string, edges: EdgesArg, positions1: seq<Column>, positions2: Option<seq<Column>>,
                     weights1: Option<seq<real>>, weights2: Option<seq<real>>, binType: string,
                     positionType: string, weightType: Option<string>, los: string,
                     boxsize: Option<BoxArg>, conv: Converters): (r: Result<Config>)
    ensures var cats := ValidateCatalogs(mode, positions1, positions2, positionType, conv);
      && (cats.Err? ==> r == Err(cats.error))
      && (cats.Ok? ==>
            var wts := CatalogWeights(mode, cats.value, weights1, weights2, weightType);
            && (wts.Err? ==> r == Err(wts.error))
            && (wts.Ok? && ConfigureEdges(mode, edges, binType).Err? ==> r == Err(ConfigureEdges(mode, edges, binType).error))
            && (wts.Ok? && ConfigureEdges(mode, edges, binType).Ok? && !AllowedLos(los) ==> r == Err(LosNotAllowed))
            && (wts.Ok? && ConfigureEdges(mode, edges, binType).Ok? && AllowedLos(los) && ConfigureBox(boxsize).Err? ==>
                  r == Err(BoxShape)))
    ensures r.Ok? <==>
      && ValidateCatalogs(mode, positions1, positions2, positionType, conv).Ok?
      && CatalogWeights(mode, ValidateCatalogs(mode, positions1, positions2, positionType, conv).value,
                        weights1, weights2, weightType).Ok?
      && ConfigureEdges(mode, edges, binType).Ok?
      && AllowedLos(los)
      && ConfigureBox(boxsize).Ok?
    ensures r.Ok? ==> ConfigValid(r.value) && r.value.mode == mode
    ensures r.Ok? ==> (r.value.catalogs.autocorr <==> positions2.None?)
    ensures r.Ok? ==> (Periodic(r.value.boxsize) <==> boxsize.Some?)
    ensures r.Ok? ==> (r.value.binType == Custom ==> Lower(binType) == "custom")
    ensures r.Ok? ==>
      && r.value.catalogs == ValidateCatalogs(mode, positions1, positions2, positionType, conv).value
      && r.value.weighting == CatalogWeights(mode, r.value.catalogs, weights1, weights2, weightType).value
      && (r.value.edges, r.value.binType) == ConfigureEdges(mode, edges, binType).value
      && r.value.los == los
      && r.value.boxsize == ConfigureBox(boxsize).value
  {
    var catalogs :- ValidateCatalogs(mode, positions1, positions2, positionType, conv);
    var weighting :- CatalogWeights(mode, catalogs, weights1, weights2, weightType);
    CatalogWeightsFit(mode, catalogs, weights1, weights2, weightType);
    var (e, b) :- ConfigureEdges(mode, edges, binType);
    if CheckLos(los).Fail? then Err(LosNotAllowed)
    else
      var box :- ConfigureBox(boxsize);
      Ok(Config(mode, catalogs, weighting, e, b, los, box))
  }

  /** What the engine's `run` must hand back: counts of the binning's shape and, when the
      average separation is kept, separations of the same shape. */
  predicate RunFits(edges: seq<seq<real>>, outputSepavg: bool, counts: Grid, sepavg: Grid)
  {
    && counts.Rectangular()
    && counts.Dims() == Shape(edges)
    && (outputSepavg ==> sepavg.Rectangular() && sepavg.Dims() == counts.Dims())
  }

  /** The separation the counter keeps: the engine's averages, or bin midpoints. */
  lemma {:induction false} DefaultSepFitsRun(edges: seq<seq<real>>, counts: Grid, sepavg: Grid)
    requires Ndim(edges) == 1 || Ndim(edges) == 2
    requires RunFits(edges, false, counts, sepavg)
    ensures DefaultSep(edges).Ok?
    ensures DefaultSep(edges).value.Dims() == counts.Dims()
  {
    var s := Shape(edges);
    assert counts.Dims()[0] == s[0];
    if Ndim(edges) == 2 {
      assert counts.Dims()[1] == s[1];
    }
  }

  /** The `__getstate__` dictionary. */
  datatype State = State(
    sep: Grid,
    wcounts: Grid,
    edges: seq<seq<real>>,
    mode: string,
    binType: string,
    weightType: Option<string>,
    los: string,
    periodic: bool,
    boxsize: Option<seq<real>>,
    outputSepavg: bool)

  // ------------------------------------------------------------ the counter

  class TwoPointCounterEngine {
    var mode: string
    var catalogs: Catalogs
    var weighting: Weighting
    var edges: seq<seq<real>>
    var binType: BinType
    var los: string
    var boxsize: Option<seq<real>>
    var outputSepavg: bool
    var wcounts: Grid
    var sep: Grid
    var norm: real

    /** The configuration fields as one value. */
    function Settings(): Config
      reads this
    {
      Config(mode, catalogs, weighting, edges, binType, los, boxsize)
    }

    /** A constructed counter: a valid configuration, counts and separations of one
      shape with one extent per edge array, and the normalization fixed. */
    predicate Valid()
      reads this
    {
      && ConfigValid(Settings())
      && wcounts.Rectangular() && sep.Rectangular()
      && |wcounts.Dims()| == Ndim(edges)
      && sep.Dims() == wcounts.Dims()
      && norm == Normalization()
    }

    /** `periodic`, as intended: a box was given. */
    function IsPeriodic(): bool
      reads this
    {
      Periodic(boxsize)
    }

    /** `normalization()`: the weighted number of ordered pairs of distinct objects. */
    function Normalization(): (r: real)
      reads this
      requires catalogs.Valid(mode) && WeightingFits(catalogs, weighting)
      ensures weighting.weightType == Unweighted && catalogs.autocorr ==>
        r == OrderedPairSum(Ones(catalogs.Size1()), catalogs.Size1())
      ensures weighting.weightType == Unweighted && !catalogs.autocorr ==>
        r == (catalogs.Size1() * catalogs.Size2()) as real
      ensures weighting.weightType == PairProduct && catalogs.autocorr ==>
        r == OrderedPairSum(weighting.weights1.value, |weighting.weights1.value|)
      ensures weighting.weightType == PairProduct && !catalogs.autocorr ==>
        r == Sum(weighting.weights1.value) * Sum(weighting.weights2.value)
    {
      UnweightedAutoNormCountsOrderedPairs(catalogs.Size1());
      if weighting.weightType == PairProduct && catalogs.autocorr then
        WeightedAutoNormIsOrderedPairSum(weighting.weights1.value);
        Norm(catalogs.autocorr, catalogs.Size1(), catalogs.Size2(), weighting)
      else
        Norm(catalogs.autocorr, catalogs.Size1(), catalogs.Size2(), weighting)
    }

    /** `normalized_wcounts()`: the counts divided by the normalization. */
    function NormalizedCounts(): (r: Grid)
      reads this
      requires norm != 0.0
      ensures r.Dims() == wcounts.Dims()
      ensures Total(r) == Total(wcounts) / norm
      ensures r == NormalizedWcounts(wcounts, norm)
    {
      NormalizedTotal(wcounts, norm);
      NormalizedWcounts(wcounts, norm)
    }

    /** `__getstate__`: the stored fields, `periodic` exactly when a box is kept. */
    function GetState(): (s: State)
      reads this
      ensures s.periodic <==> s.boxsize.Some?
      ensures s.binType == "lin" || s.binType == "custom" || s.binType == "auto"
      ensures weighting.weightType == Unweighted ==> s.weightType.None?
      ensures weighting.weightType == PairProduct ==> s.weightType == Some("pair_product")
      ensures s.sep == sep && s.wcounts == wcounts && s.edges == edges && s.boxsize == boxsize
      ensures s.mode == mode && s.los == los && s.outputSepavg == outputSepavg
      ensures s.binType == BinTypeName(binType)
    {
      State(sep, wcounts, edges, mode, BinTypeName(binType),
            if weighting.weightType == PairProduct then Some("pair_product") else None,
            los, IsPeriodic(), boxsize, outputSepavg)
    }

    /** An empty counter for `mode`, before any setter has run. */
    constructor Init(mode: string, outputSepavg: bool)
      ensures this.mode == mode && this.outputSepavg == outputSepavg
    {
      this.mode := mode;
      this.outputSepavg := outputSepavg;
      catalogs := Catalogs([], None, true);
      weighting := Weighting(Unweighted, None, None);
      edges := [];
      binType := Auto;
      los := "midpoint";
      boxsize := None;
      wcounts := Line([]);
      sep := Line([]);
      norm := 0.0;
    }

    /** `_set_positions`, checking each catalog with the loop of `check_positions`. */
    method SetPositions(positions1: seq<Column>, positions2: Option<seq<Column>>,
                        positionType: string, conv: Converters) returns (o: Outcome)
      modifies this
      ensures var r := ValidateCatalogs(mode, positions1, positions2, positionType, conv);
        && (o.Pass? <==> r.Ok?)
        && (r.Ok? ==> catalogs == r.value)
        && (r.Err? ==> o.error == r.error && catalogs == old(catalogs))
      ensures mode == old(mode) && weighting == old(weighting) && edges == old(edges) && binType == old(binType)
      ensures los == old(los) && boxsize == old(boxsize) && outputSepavg == old(outputSepavg)
      ensures wcounts == old(wcounts) && sep == old(sep) && norm == old(norm)
    {
      var ptype := ResolvePositionType(mode, positionType);
      var p1 := CheckPositions(mode, ptype, positions1, conv);
      if p1.Err? {
        return Fail(p1.error);
      }
      if positions2.None? {
        catalogs := Catalogs(p1.value, None, true);
        return Pass;
      }
      var p2 := CheckPositions(mode, ptype, positions2.value, conv);
      if p2.Err? {
        return Fail(p2.error);
      }
      catalogs := Catalogs(p1.value, Some(p2.value), false);
      o := Pass;
    }

    /** `_set_weights` (with `_set_weight_type`) against the catalogs already set. */
    method SetWeights(weights1: Option<seq<real>>, weights2: Option<seq<real>>, weightType: Option<string>)
      returns (o: Outcome)
      requires catalogs.Valid(mode)
      modifies this
      ensures mode == old(mode) && catalogs == old(catalogs) && edges == old(edges) && binType == old(binType)
      ensures los == old(los) && boxsize == old(boxsize) && outputSepavg == old(outputSepavg)
      ensures wcounts == old(wcounts) && sep == old(sep) && norm == old(norm)
      ensures var r := CatalogWeights(mode, catalogs, weights1, weights2, weightType);
        && (o.Pass? <==> r.Ok?)
        && (r.Ok? ==> weighting == r.value && WeightingFits(catalogs, weighting))
        && (r.Err? ==> o.error == r.error && weighting == old(weighting))
    {
      var r := CatalogWeights(mode, catalogs, weights1, weights2, weightType);
      if r.Err? {
        return Fail(r.error);
      }
      CatalogWeightsFit(mode, catalogs, weights1, weights2, weightType);
      weighting := r.value;
      o := Pass;
    }

    /** `_set_edges` (with `_set_bin_type`). */
    method SetEdges(arg: EdgesArg, binTypeName: string) returns (o: Outcome)
      modifies this
      ensures var r := ConfigureEdges(mode, arg, binTypeName);
        && (o.Pass? <==> r.Ok?)
        && (r.Ok? ==> edges == r.value.0 && binType == r.value.1)
        && (r.Err? ==> o.error == r.error && edges == old(edges) && binType == old(binType))
      ensures o.Pass? ==> Ndim(edges) == (if IsTwoDimMode(mode) then 2 else 1)
      ensures mode == old(mode) && catalogs == old(catalogs) && weighting == old(weighting)
      ensures los == old(los) && boxsize == old(boxsize) && outputSepavg == old(outputSepavg)
      ensures wcounts == old(wcounts) && sep == old(sep) && norm == old(norm)
    {
      var r := ConfigureEdges(mode, arg, binTypeName);
      if r.Err? {
        return Fail(r.error);
      }
      edges, binType := r.value.0, r.value.1;
      o := Pass;
    }

    /** `_set_los`. */
    method SetLos(lineOfSight: string) returns (o: Outcome)
      modifies this
      ensures o == CheckLos(lineOfSight)
      ensures o.Pass? ==> los == lineOfSight && AllowedLos(los)
      ensures o.Fail? ==> los == old(los)
      ensures mode == old(mode) && catalogs == old(catalogs) && weighting == old(weighting)
      ensures edges == old(edges) && binType == old(binType) && boxsize == old(boxsize)
      ensures outputSepavg == old(outputSepavg) && wcounts == old(wcounts) && sep == old(sep) && norm == old(norm)
    {
      o := CheckLos(lineOfSight);
      if o.Pass? {
        los := lineOfSight;
      }
    }

    /** `_set_boxsize`, as intended: a given box is broadcast to three sides. */
    method SetBoxsize(box: Option<BoxArg>) returns (o: Outcome)
      modifies this
      ensures var r := ConfigureBox(box);
        && (o.Pass? <==> r.Ok?)
        && (r.Ok? ==> boxsize == r.value && (IsPeriodic() <==> box.Some?))
        && (r.Err? ==> o.error == r.error && boxsize == old(boxsize))
      ensures mode == old(mode) && catalogs == old(catalogs) && weighting == old(weighting)
      ensures edges == old(edges) && binType == old(binType) && los == old(los)
      ensures outputSepavg == old(outputSepavg) && wcounts == old(wcounts) && sep == old(sep) && norm == old(norm)
    {
      var r := ConfigureBox(box);
      if r.Err? {
        return Fail(r.error);
      }
      boxsize := r.value;
      o := Pass;
    }

    /** `_set_default_sep`, as intended: bin midpoints of the first dimension. */
    method SetDefaultSep() returns (o: Outcome)
      requires Ndim(edges) >= 1
      modifies this
      ensures mode == old(mode) && catalogs == old(catalogs) && weighting == old(weighting)
      ensures edges == old(edges) && binType == old(binType) && los == old(los) && boxsize == old(boxsize)
      ensures outputSepavg == old(outputSepavg) && wcounts == old(wcounts) && norm == old(norm)
      ensures var r := DefaultSep(edges);
        && (o.Pass? <==> r.Ok?)
        && (r.Ok? ==> sep == r.value)
        && (r.Err? ==> o.error == r.error && sep == old(sep))
    {
      var r := DefaultSep(edges);
      if r.Err? {
        return Fail(r.error);
      }
      sep := r.value;
      o := Pass;
    }

    /** The setters of `__init__` in order, stopping at the first that fails. */
    method SetUp(edges: EdgesArg, positions1: seq<Column>, positions2: Option<seq<Column>>,
                 weights1: Option<seq<real>>, weights2: Option<seq<real>>, binType: string,
                 positionType: string, weightType: Option<string>, los: string,
                 boxsize: Option<BoxArg>, conv: Converters) returns (o: Outcome)
      modifies this
      ensures mode == old(mode) && outputSepavg == old(outputSepavg)
      ensures var c := Configure(mode, edges, positions1, positions2, weights1, weights2, binType,
                                 positionType, weightType, los, boxsize, conv);
        && (o.Pass? <==> c.Ok?)
        && (o.Fail? ==> o.error == c.error)
        && (o.Pass? ==> Settings() == c.value)
    {
      ghost var c := Configure(mode, edges, positions1, positions2, weights1, weights2, binType,
                               positionType, weightType, los, boxsize, conv);
      o := SetPositions(positions1, positions2, positionType, conv);
      if o.Fail? {
        return;
      }
      o := SetWeights(weights1, weights2, weightType);
      if o.Fail? {
        return;
      }
      ghost var w := weighting;
      o := SetEdges(edges, binType);
      if o.Fail? {
        return;
      }
      ghost var e := ConfigureEdges(mode, edges, binType).value;
      o := SetLos(los);
      if o.Fail? {
        return;
      }
      o := SetBoxsize(boxsize);
      if o.Pass? {
        assert c == Ok(Config(mode, catalogs, w, e.0, e.1, los, this.boxsize));
      }
    }

    /** The end of `__init__`, once the engine has run: keep its counts, the separations
        (bin midpoints unless the average separation is kept), and the normalization. */
    method Record(counts: Grid, sepavg: Grid)
      requires ConfigValid(Settings())
      requires RunFits(edges, outputSepavg, counts, sepavg)
      modifies this
      ensures Valid()
      ensures Settings() == old(Settings()) && outputSepavg == old(outputSepavg)
      ensures wcounts == counts && wcounts.Dims() == Shape(edges)
      ensures !outputSepavg ==> DefaultSep(edges).Ok?
      ensures sep == if outputSepavg then sepavg else DefaultSep(edges).value
    {
      wcounts, sep := counts, sepavg;
      if !outputSepavg {
        DefaultSepFitsRun(edges, counts, sepavg);
        var o := SetDefaultSep();
      }
      norm := Normalization();
    }

    /** `__init__`: the setters in order, then the engine's counts (`counts`, and
        `sepavg` when the average separation is kept, bin midpoints otherwise), then
        the normalization. Fails exactly when the configuration does, with its error. */
    static method Create(mode: string, edges: EdgesArg, positions1: seq<Column>, positions2: Option<seq<Column>>,
                         weights1: Option<seq<real>>, weights2: Option<seq<real>>, binType: string,
                         positionType: string, weightType: Option<string>, los: string,
                         boxsize: Option<BoxArg>, outputSepavg: bool, conv: Converters,
                         counts: Grid, sepavg: Grid)
      returns (r: Result<TwoPointCounterEngine>)
      requires var c := Configure(mode, edges, positions1, positions2, weights1, weights2, binType,
                                  positionType, weightType, los, boxsize, conv);
        c.Ok? ==> RunFits(c.value.edges, outputSepavg, counts, sepavg)
      ensures var c := Configure(mode, edges, positions1, positions2, weights1, weights2, binType,
                                 positionType, weightType, los, boxsize, conv);
        && (r.Ok? <==> c.Ok?)
        && (r.Err? ==> r.error == c.error)
        && (r.Ok? ==>
              && fresh(r.value) && r.value.Valid()
              && r.value.Settings() == c.value
              && r.value.outputSepavg == outputSepavg
              && r.value.wcounts == counts
              && r.value.wcounts.Dims() == Shape(r.value.edges)
              && r.value.sep == (if outputSepavg then sepavg else DefaultSep(c.value.edges).value))
    {
      var e := new TwoPointCounterEngine.Init(mode, outputSepavg);
      var o := e.SetUp(edges, positions1, positions2, weights1, weights2, binType,
                       positionType, weightType, los, boxsize, conv);
      if o.Fail? {
        return Err(o.error);
      }
      e.Record(counts, sepavg);
      r := Ok(e);
    }

    /** `rebin`, as intended: one factor per dimension, each dividing its extent; counts
        are summed over blocks of merged bins (their total is kept) and the separation
        becomes the mean of the merged separations weighted by the counts before merging.
        The edges are left as they are, as in the source. */
    method Rebin(factor: FactorArg) returns (o: Outcome)
      requires Valid()
      requires var f := CheckFactors(Ndim(edges), wcounts.Dims(), factor);
        f.Ok? ==> NonZero(RebinSum(wcounts, f.value))
      modifies this
      ensures Valid()
      ensures var f := CheckFactors(Ndim(old(edges)), old(wcounts).Dims(), factor);
        && (o.Pass? <==> f.Ok?)
        && (f.Err? ==> o.error == f.error && wcounts == old(wcounts) && sep == old(sep))
        && (f.Ok? ==>
              && wcounts == RebinSum(old(wcounts), f.value)
              && sep == RebinSep(old(sep), old(wcounts), f.value)
              && wcounts.Dims() == NewShape(old(wcounts).Dims(), f.value)
              && Total(wcounts) == Total(old(wcounts)))
      ensures Settings() == old(Settings()) && outputSepavg == old(outputSepavg) && norm == old(norm)
    {
      var f := CheckFactors(Ndim(edges), wcounts.Dims(), factor);
      if f.Err? {
        return Fail(f.error);
      }
      assert f.value == FactorList(factor);
      RebinSumConserves(wcounts, f.value);
      var merged := RebinSum(wcounts, f.value);
      sep := RebinSep(sep, wcounts, f.value);
      wcounts := merged;
      o := Pass;
    }
  }

  // ------------------------------------------------------------ engine dispatch

  /** The `engine` argument of `TwoPointCounter`: a name, or an engine already built. */
  datatype EngineArg<E> = Named(name: string) | Instance(engine: E)

  /** What the dispatch hands back: the Corrfunc engine to build, or the given engine. */
  datatype EngineChoice<E> = Corrfunc | Given(engine: E)

  /** `TwoPointCounter`: the name `corrfunc` in any letter case selects Corrfunc, any
      other name fails, and an engine that is not a name is returned unchanged. */
  function SelectEngine<E(==)>(arg: EngineArg<E>): (r: Result<EngineChoice<E>>)
    ensures arg.Named? ==> (r.Ok? <==> Lower(arg.name) == "corrfunc")
    ensures arg.Named? && r.Ok? ==> r.value == Corrfunc
    ensures arg.Named? && r.Err? ==> r.error == UnknownEngine
    ensures arg.Instance? ==> r == Ok(Given(arg.engine))
  {
    match arg
    case Named(name) => if Lower(name) == "corrfunc" then Ok(Corrfunc) else Err(UnknownEngine)
    case Instance(e) => Ok(Given(e))
  }

  /** The dispatch ignores letter case in the engine name. */
  lemma {:induction false} SelectEngineIgnoresCase<E>(a: string, b: string)
    requires Lower(a) == Lower(b)
    ensures SelectEngine<E>(Named(a)) == SelectEngine<E>(Named(b))
  {
  }

  // ------------------------------------------------------------ analytic counter

  /** The fields an analytic counter ends up with. */
  datatype AnalyticFields = AnalyticFields(
    edges: seq<seq<real>>,
    binType: BinType,
    boxsize: seq<real>,
    wcounts: Grid,
    sep: Grid)

  /** The modes `run` has a closed form for: s, smu, rppi, and rp along a Cartesian axis. */
  predicate SupportedMode(mode: string, los: string)
  {
    mode == "s" || mode == "smu" || mode == "rppi" || (mode == "rp" && AxisIndex(los).Ok?)
  }

  /** `AnalyticTwoPointCounter.__init__` and `run`: edges with an auto-detected bin type,
      the box broadcast to three sides, the line of sight, then the expected counts of
      uniform randoms, `normalization() * dv / prod(boxsize)`, and midpoint separations. */
  function AnalyticConfigure(mode: string, edges: EdgesArg, boxsize: BoxArg, n1: nat, n2: Option<nat>,
                             los: string, pi: Analytic.Positive): (r: Result<AnalyticFields>)
    requires BroadcastBox(boxsize).Ok? ==> Analytic.Volume(BroadcastBox(boxsize).value) != 0.0
    ensures ConfigureEdges(mode, edges, "auto").Err? ==> r == Err(ConfigureEdges(mode, edges, "auto").error)
    ensures ConfigureEdges(mode, edges, "auto").Ok? && BroadcastBox(boxsize).Err? ==> r == Err(BoxShape)
    ensures ConfigureEdges(mode, edges, "auto").Ok? && BroadcastBox(boxsize).Ok? && !AllowedLos(los) ==>
      r == Err(LosNotAllowed)
    ensures r.Ok? ==> SupportedMode(mode, los)
    ensures r.Ok? ==> AllowedLos(los) && |r.value.boxsize| == 3
    ensures r.Ok? ==> Ndim(r.value.edges) == (if IsTwoDimMode(mode) then 2 else 1)
    ensures r.Ok? ==> |r.value.edges[0]| > 0
    ensures r.Ok? ==> Analytic.Volume(r.value.boxsize) != 0.0
    ensures r.Ok? ==>
      r.value.wcounts == Analytic.AnalyticCounts(mode, r.value.edges, r.value.boxsize, los, Analytic.AnalyticNorm(n1, n2), pi).value
    ensures r.Ok? ==> DefaultSep(r.value.edges).Ok? && r.value.sep == DefaultSep(r.value.edges).value
    ensures r.Ok? ==>
      && (r.value.edges, r.value.binType) == ConfigureEdges(mode, edges, "auto").value
      && r.value.boxsize == BroadcastBox(boxsize).value
    ensures var ce := ConfigureEdges(mode, edges, "auto");
      ce.Ok? && BroadcastBox(boxsize).Ok? && AllowedLos(los) ==>
        && (mode == "rp" && AxisIndex(los).Err? ==> r == Err(LosNotAxis))
        && (mode != "s" && mode != "smu" && mode != "rppi" && mode != "rp" ==> r == Err(NoAnalyticSolution))
        && (SupportedMode(mode, los) && DefaultSep(ce.value.0).Ok? ==> r.Ok?)
  {
    var (e, b) :- ConfigureEdges(mode, edges, "auto");
    var box :- BroadcastBox(boxsize);
    if CheckLos(los).Fail? then Err(LosNotAllowed)
    else
      var counts :- Analytic.AnalyticCounts(mode, e, box, los, Analytic.AnalyticNorm(n1, n2), pi);
      var sep :- DefaultSep(e);
      Ok(AnalyticFields(e, b, box, counts, sep))
  }

  class AnalyticTwoPointCounter {
    var mode: string
    var edges: seq<seq<real>>
    var binType: BinType
    var boxsize: seq<real>
    var los: string
    var n1: nat
    var n2: Option<nat>
    var autocorr: bool
    var wcounts: Grid
    var sep: Grid

    /** The fields the constructor computes, as one value. */
    function Fields(): AnalyticFields
      reads this
    {
      AnalyticFields(edges, binType, boxsize, wcounts, sep)
    }

    /** `normalization()`: N1(N1-1) without a second catalog size, N1*N2 with one. */
    function Normalization(): (r: int)
      reads this
      ensures autocorr && n2.None? ==> r == UnweightedNorm(true, n1, n1)
      ensures n2.Some? ==> r == UnweightedNorm(false, n1, n2.value)
      ensures r >= 0
    {
      Analytic.AnalyticNorm(n1, n2)
    }

    /** A counter holding the given configuration and counts. */
    constructor (mode: string, n1: nat, n2: Option<nat>, los: string, fields: AnalyticFields)
      ensures this.mode == mode && this.n1 == n1 && this.n2 == n2 && this.los == los
      ensures autocorr <==> n2.None?
      ensures Fields() == fields
    {
      this.mode := mode;
      this.n1 := n1;
      this.n2 := n2;
      this.los := los;
      autocorr := n2.None?;
      edges := fields.edges;
      binType := fields.binType;
      boxsize := fields.boxsize;
      wcounts := fields.wcounts;
      sep := fields.sep;
    }

    /** `AnalyticTwoPointCounter(mode, edges, boxsize, n1, n2, los)`. */
    static method Create(mode: string, edges: EdgesArg, boxsize: BoxArg, n1: nat, n2: Option<nat>,
                         los: string, pi: Analytic.Positive)
      returns (r: Result<AnalyticTwoPointCounter>)
      requires BroadcastBox(boxsize).Ok? ==> Analytic.Volume(BroadcastBox(boxsize).value) != 0.0
      ensures r.Ok? <==> AnalyticConfigure(mode, edges, boxsize, n1, n2, los, pi).Ok?
      ensures r.Err? ==> r.error == AnalyticConfigure(mode, edges, boxsize, n1, n2, los, pi).error
      ensures r.Ok? ==> fresh(r.value) && r.value.Fields() == AnalyticConfigure(mode, edges, boxsize, n1, n2, los, pi).value
      ensures r.Ok? ==> r.value.mode == mode && r.value.los == los && r.value.n1 == n1 && r.value.n2 == n2
      ensures r.Ok? ==> (r.value.autocorr <==> n2.None?)
    {
      var f := AnalyticConfigure(mode, edges, boxsize, n1, n2, los, pi);
      if f.Err? {
        return Err(f.error);
      }
      var c := new AnalyticTwoPointCounter(mode, n1, n2, los, f.value);
      r := Ok(c);
    }
  }
}
