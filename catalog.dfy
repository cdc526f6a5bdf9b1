/** Catalog validation of a pair counter (`_set_positions` with its inner
    `check_positions`, `_set_weight_type`, `_set_weights`). */
module Catalog {
  import opened Outcomes
  import opened Strings

  /** A numpy dtype, compared for equality only. */
  datatype DType = DType(code: nat)

  /** One position array (one coordinate of every object of a catalog). */
  datatype Column = Column(values: seq<real>, dtype: DType)

  /** The coordinate conversions of the utility module, which the model does not
      see: whatever they return is checked by the same rules as user input. */
  datatype Converters = Converters(
    cartesianToSky: seq<Column> -> seq<Column>,
    skyToCartesian: seq<Column> -> seq<Column>)

  /** Number of position arrays a mode works with: 2 angles for theta, 3 coordinates otherwise. */
  function ComponentCount(mode: string): nat
  {
    if mode == "theta" then 2 else 3
  }

  /** The lower-cased position type, with `auto` read as `rd` for theta and `xyz` otherwise. */
  function ResolvePositionType(mode: string, positionType: string): (t: string)
    ensures Lower(positionType) != "auto" ==> t == Lower(positionType)
    ensures Lower(positionType) == "auto" ==> t == (if mode == "theta" then "rd" else "xyz")
  {
    var t := Lower(positionType);
    if t == "auto" then (if mode == "theta" then "rd" else "xyz") else t
  }

  /** The type-dependent conversion at the head of `check_positions`:
      theta takes sky angles (`xyz` converted, `rdz` cut to two arrays, `rd` as is);
      the other modes take Cartesian positions (`rdd` converted, `xyz` as is). */
  function ConvertPositions(mode: string, ptype: string, positions: seq<Column>, conv: Converters): (r: Result<seq<Column>>)
    ensures r.Err? <==>
      if mode == "theta" then ptype != "xyz" && ptype != "rdz" && ptype != "rd"
      else ptype != "rdd" && ptype != "xyz"
    ensures r.Err? ==> r.error == PositionTypeNotAllowed
  {
    if mode == "theta" then
      if ptype == "xyz" then
        var sky := conv.cartesianToSky(positions);
        Ok(if |sky| == 0 then [] else sky[1..])
      else if ptype == "rdz" then Ok(if |positions| <= 2 then positions else positions[..2])
      else if ptype == "rd" then Ok(positions)
      else Err(PositionTypeNotAllowed)
    else
      if ptype == "rdd" then Ok(conv.skyToCartesian(positions))
      else if ptype == "xyz" then Ok(positions)
      else Err(PositionTypeNotAllowed)
  }

  /** All arrays have the length and dtype of the first one. */
  predicate Uniform(p: seq<Column>)
    requires |p| > 0
  {
    forall i :: 0 <= i < |p| ==> |p[i].values| == |p[0].values| && p[i].dtype == p[0].dtype
  }

  /** The loop of `check_positions` from array `k` on: the first array whose length
      differs from the first array's reports a size error, else the first whose
      dtype differs reports a type error. */
  function ScanFrom(p: seq<Column>, k: nat): (o: Outcome)
    requires 0 < |p|
    decreases |p| - k
  {
    if k >= |p| then Pass
    else if |p[k].values| != |p[0].values| then Fail(PositionSize)
    else if p[k].dtype != p[0].dtype then Fail(PositionDtype)
    else ScanFrom(p, k + 1)
  }

  /** The scan passes exactly when every array from `k` on matches the first. */
  lemma {:induction false} ScanFromPasses(p: seq<Column>, k: nat)
    requires 0 < |p|
    ensures ScanFrom(p, k).Pass? <==>
      forall i :: k <= i < |p| ==> |p[i].values| == |p[0].values| && p[i].dtype == p[0].dtype
    decreases |p| - k
  {
    if k < |p| {
      ScanFromPasses(p, k + 1);
    }
  }

  /** `check_positions`: convert, count the arrays, then compare every array with the
      first. Accepted positions are the converted arrays, 2 for theta and 3 otherwise,
      all of one length and one dtype; a failure is one of the four position errors. */
  function ValidatePositions(mode: string, ptype: string, positions: seq<Column>, conv: Converters): (r: Result<seq<Column>>)
    ensures r.Ok? ==> ConvertPositions(mode, ptype, positions, conv) == Ok(r.value)
    ensures r.Ok? ==> |r.value| == ComponentCount(mode) && Uniform(r.value)
    ensures r.Err? ==> r.error in {PositionTypeNotAllowed, PositionCount, PositionSize, PositionDtype}
  {
    var converted :- ConvertPositions(mode, ptype, positions, conv);
    if |converted| != ComponentCount(mode) then Err(PositionCount)
    else
      ScanFromPasses(converted, 1);
      ScanOutcomes(converted, 1);
      var scan := ScanFrom(converted, 1);
      if scan.Fail? then Err(scan.error) else Ok(converted)
  }

  /** In theta mode the type `rdd` is refused, although the parameter documentation
      lists it for every mode; the other modes convert it to Cartesian positions. */
  lemma {:induction false} ThetaRejectsRdd(mode: string, positions: seq<Column>, conv: Converters)
    ensures mode == "theta" ==> ValidatePositions(mode, "rdd", positions, conv) == Err(PositionTypeNotAllowed)
    ensures mode != "theta" ==> ConvertPositions(mode, "rdd", positions, conv) == Ok(conv.skyToCartesian(positions))
  {
  }

  lemma {:induction false} ScanOutcomes(p: seq<Column>, k: nat)
    requires 0 < |p|
    ensures ScanFrom(p, k).Fail? ==> ScanFrom(p, k).error in {PositionSize, PositionDtype}
    decreases |p| - k
  {
    if k < |p| {
      ScanOutcomes(p, k + 1);
    }
  }

  /** Validation succeeds exactly when the type is supported for the mode and the
      converted arrays are of the right number, one length and one dtype. */
  lemma {:induction false} ValidatePositionsSucceedsIff(mode: string, ptype: string, positions: seq<Column>, conv: Converters)
    ensures ValidatePositions(mode, ptype, positions, conv).Ok? <==>
      && ConvertPositions(mode, ptype, positions, conv).Ok?
      && |ConvertPositions(mode, ptype, positions, conv).value| == ComponentCount(mode)
      && Uniform(ConvertPositions(mode, ptype, positions, conv).value)
  {
    var c := ConvertPositions(mode, ptype, positions, conv);
    if c.Ok? && |c.value| == ComponentCount(mode) {
      ScanFromPasses(c.value, 1);
    }
  }

  /** `check_positions` with its loop over the arrays after the first. */
  method CheckPositions(mode: string, ptype: string, positions: seq<Column>, conv: Converters)
    returns (r: Result<seq<Column>>)
    ensures r == ValidatePositions(mode, ptype, positions, conv)
  {
    var converted := ConvertPositions(mode, ptype, positions, conv);
    if converted.Err? {
      return Err(converted.error);
    }
    var p := converted.value;
    if |p| != ComponentCount(mode) {
      return Err(PositionCount);
    }
    var size, dtype := |p[0].values|, p[0].dtype;
    var k := 1;
    while k < |p|
      invariant 1 <= k <= |p|
      invariant ScanFrom(p, 1) == ScanFrom(p, k)
    {
      if |p[k].values| != size {
        return Err(PositionSize);
      }
      if p[k].dtype != dtype {
        return Err(PositionDtype);
      }
      k := k + 1;
    }
    r := Ok(p);
  }

  /** The validated catalogs: `positions2` is absent for an autocorrelation. */
  datatype Catalogs = Catalogs(positions1: seq<Column>, positions2: Option<seq<Column>>, autocorr: bool)
  {
    predicate Valid(mode: string)
    {
      && |positions1| == ComponentCount(mode) && Uniform(positions1)
      && (positions2.Some? ==> |positions2.value| == ComponentCount(mode) && Uniform(positions2.value))
      && (autocorr <==> positions2.None?)
    }

    /** `len(positions1[0])`. */
    function Size1(): nat
      requires |positions1| > 0
    {
      |positions1[0].values|
    }

    /** `len(positions2[0])`, the first catalog's size for an autocorrelation. */
    function Size2(): nat
      requires |positions1| > 0
      requires positions2.Some? ==> |positions2.value| > 0
    {
      if positions2.Some? then |positions2.value[0].values| else Size1()
    }
  }

  /** `_set_positions`: resolve the position type, validate the first catalog, then the
      second if one is given. Validated catalogs have the shape the mode asks for, and
      the counter is an autocorrelation exactly when no second catalog is given. */
  function ValidateCatalogs(mode: string, positions1: seq<Column>, positions2: Option<seq<Column>>,
                            positionType: string, conv: Converters): (r: Result<Catalogs>)
    ensures r.Ok? ==> r.value.Valid(mode) && (r.value.autocorr <==> positions2.None?)
    ensures r.Err? ==> r.error in {PositionTypeNotAllowed, PositionCount, PositionSize, PositionDtype}
    ensures var t := ResolvePositionType(mode, positionType);
      r.Ok? <==> ValidatePositions(mode, t, positions1, conv).Ok?
                 && (positions2.Some? ==> ValidatePositions(mode, t, positions2.value, conv).Ok?)
    ensures var t := ResolvePositionType(mode, positionType);
      r.Ok? ==>
        && r.value.positions1 == ValidatePositions(mode, t, positions1, conv).value
        && (positions2.Some? ==> r.value.positions2 == Some(ValidatePositions(mode, t, positions2.value, conv).value))
  {
    var ptype := ResolvePositionType(mode, positionType);
    var p1 :- ValidatePositions(mode, ptype, positions1, conv);
    if positions2.None? then Ok(Catalogs(p1, None, true))
    else
      var p2 :- ValidatePositions(mode, ptype, positions2.value, conv);
      Ok(Catalogs(p1, Some(p2), false))
  }

  // ---------------------------------------------------------------- weights

  /** The weight type as given: Python `None`, `'auto'` or `'pair_product'`. */
  datatype WeightType = Unweighted | AutoWeights | PairProduct

  /** `_set_weight_type`: the value must be one of None, 'auto', 'pair_product' (no case folding). */
  function ParseWeightType(w: Option<string>): (r: Result<WeightType>)
    ensures r.Ok? <==> w.None? || w.value == "auto" || w.value == "pair_product"
    ensures r.Ok? ==> (r.value == Unweighted <==> w.None?) && (r.value == PairProduct <==> w == Some("pair_product"))
    ensures r.Err? ==> r.error == WeightTypeNotAllowed
  {
    match w
    case None => Ok(Unweighted)
    case Some(s) =>
      if s == "auto" then Ok(AutoWeights)
      else if s == "pair_product" then Ok(PairProduct)
      else Err(WeightTypeNotAllowed)
  }

  /** Resolved weighting: `weightType` is Unweighted or PairProduct. */
  datatype Weighting = Weighting(weightType: WeightType, weights1: Option<seq<real>>, weights2: Option<seq<real>>)

  /** `_set_weights`. `size1`/`size2` are the catalog sizes; `size2` is only read for a
      cross-correlation. */
  function ValidateWeights(autocorr: bool, size1: nat, size2: nat,
                           weights1: Option<seq<real>>, weights2: Option<seq<real>>,
                           weightType: Option<string>): (r: Result<Weighting>)
    ensures r.Ok? ==> r.value.weightType == Unweighted || r.value.weightType == PairProduct
    ensures r.Ok? && r.value.weightType == Unweighted ==> r.value.weights1.None? && r.value.weights2.None?
    ensures r.Ok? && r.value.weightType == PairProduct ==>
      r.value.weights1 == weights1 && r.value.weights2 == weights2 && weights1.Some? && |weights1.value| == size1
    ensures r.Err? ==> r.error in {WeightTypeNotAllowed, Weights2WithoutPositions2, Weights2WithoutWeights1,
                                   Weights1WithoutWeights2, WeightsMissing, WeightLength}
  {
    var given :- ParseWeightType(weightType);
    if autocorr && weights2.Some? then Err(Weights2WithoutPositions2)
    else if weights1.None? && weights2.Some? then Err(Weights2WithoutWeights1)
    else if !autocorr && weights1.Some? && weights2.None? then Err(Weights1WithoutWeights2)
    else
      var resolved := if given == AutoWeights then (if weights1.None? then Unweighted else PairProduct) else given;
      if resolved == Unweighted then Ok(Weighting(Unweighted, None, None))
      else if weights1.None? then Err(WeightsMissing)
      else if |weights1.value| != size1 then Err(WeightLength)
      else if !autocorr && |weights2.value| != size2 then Err(WeightLength)
      else Ok(Weighting(PairProduct, weights1, weights2))
  }

  /** The three presence rules: weights2 without positions2, weights2 without weights1,
      and weights1 alone in a cross-correlation all fail (given an allowed weight type). */
  lemma {:induction false} WeightPresenceRules(autocorr: bool, size1: nat, size2: nat,
                            weights1: Option<seq<real>>, weights2: Option<seq<real>>, weightType: Option<string>)
    requires ParseWeightType(weightType).Ok?
    ensures autocorr && weights2.Some? ==>
      ValidateWeights(autocorr, size1, size2, weights1, weights2, weightType) == Err(Weights2WithoutPositions2)
    ensures !autocorr && weights1.None? && weights2.Some? ==>
      ValidateWeights(autocorr, size1, size2, weights1, weights2, weightType) == Err(Weights2WithoutWeights1)
    ensures !autocorr && weights1.Some? && weights2.None? ==>
      ValidateWeights(autocorr, size1, size2, weights1, weights2, weightType) == Err(Weights1WithoutWeights2)
  {
  }

  /** On success: `auto` resolves to no weighting iff weights1 is absent, else to
      pair_product; no weighting discards the weights; pair_product keeps weights of
      the catalogs' lengths. */
  lemma {:induction false} ValidateWeightsResult(autocorr: bool, size1: nat, size2: nat,
                              weights1: Option<seq<real>>, weights2: Option<seq<real>>, weightType: Option<string>)
    requires ValidateWeights(autocorr, size1, size2, weights1, weights2, weightType).Ok?
    ensures var w := ValidateWeights(autocorr, size1, size2, weights1, weights2, weightType).value;
      && (weightType == Some("auto") ==> (w.weightType == Unweighted <==> weights1.None?))
      && (weightType == Some("auto") ==> (w.weightType == PairProduct <==> weights1.Some?))
      && (weightType.None? ==> w.weightType == Unweighted)
      && (w.weightType == Unweighted ==> w.weights1.None? && w.weights2.None?)
      && (w.weightType != Unweighted ==> w.weightType == PairProduct && w.weights1 == weights1 && w.weights2 == weights2)
      && (w.weightType == PairProduct ==> w.weights1.Some? && |w.weights1.value| == size1)
      && (w.weightType == PairProduct && !autocorr ==> w.weights2.Some? && |w.weights2.value| == size2)
      && (w.weightType == PairProduct && autocorr ==> w.weights2.None?)
  {
  }

  /** Weight validation succeeds exactly when the type is allowed, the presence rules
      hold, and (when weighting is in force) weights exist with the catalogs' lengths. */
  lemma {:induction false} ValidateWeightsSucceedsIff(autocorr: bool, size1: nat, size2: nat,
                                   weights1: Option<seq<real>>, weights2: Option<seq<real>>, weightType: Option<string>)
    ensures ValidateWeights(autocorr, size1, size2, weights1, weights2, weightType).Ok? <==>
      && ParseWeightType(weightType).Ok?
      && !(autocorr && weights2.Some?)
      && !(weights1.None? && weights2.Some?)
      && !(!autocorr && weights1.Some? && weights2.None?)
      && (weightType == Some("pair_product") ==> weights1.Some?)
      && (weights1.Some? && weightType.Some? ==>
            |weights1.value| == size1 && (!autocorr ==> |weights2.value| == size2))
  {
  }
}
