# pycorr pair-count result, in Dafny

This project models the configuration, validation and arithmetic layer of pycorr's
pair counter (`pycorr/pair_counter.py`), and proves properties of it.

- `BaseTwoPointCounterEngine` becomes the class `PairCounter.TwoPointCounterEngine`.
  Its setters are methods that update its fields in place:
  - `_set_positions` with the loop of `check_positions`;
  - `_set_weights` with `_set_weight_type`;
  - `_set_edges` with `_set_bin_type`;
  - `_set_los`, `_set_boxsize` and `_set_default_sep`.
- Each setter is tied to a pure validator that returns a `Result`, with one `Error`
  constructor per distinct failure of the source.
- `Configure` composes these validators in the order `__init__` calls them. The first
  failing setter reports its error.
- The engine's own counting (`run`) is not modelled. Its counts and mean separations
  are parameters of `Create`, constrained only by shape (`RunFits`).
- `normalization` is modelled for both weightings. It is proved equal to the sum of
  w_i * w_j over ordered pairs of distinct objects, and equal to N(N-1) for unit weights.
- `rebin` is modelled as intended: blockwise sums that conserve the total count, and the
  count-weighted mean separation.
- `TwoPointCounter`'s engine dispatch is modelled.
- `AnalyticTwoPointCounter` is modelled: shell volumes per mode, first and double
  differences, their factorisation and telescoping, and the normalization.

Modules, one per file:

- `Outcomes`: `Option`, `Result`, `Outcome` and the error kinds.
- `Strings`: ASCII `lower`.
- `Arrays`: 1-D and 2-D real arrays, sums, `np.diff` and scaling.
- `Binning`: edges, bin type, shape and default separation.
- `Geometry`: line of sight and box.
- `Catalog`: positions and weights.
- `Normalization`.
- `Rebinning`.
- `Analytic`.
- `PairCounter`: the two counter classes and the dispatch.

When `auto` bin-type detection fails, the bin type stays `auto`. This is modelled as the
code has it (`pycorr/pair_counter.py:150-153`), although the documentation suggests
`custom`.

## Model

| member | source | states |
|---|---|---|
| Strings.Lower | pycorr/pair_counter.py:146 | lower-casing keeps the length and maps every character through ASCII case folding |
| Strings.LowerHasNoCapitals | pycorr/pair_counter.py:146 | no upper-case ASCII letter is left after lower-casing |
| Binning.Shape | pycorr/pair_counter.py:155-161 | one extent per edge array, `shape[k] + 1 == len(edges[k])`, and `ndim` entries |
| Binning.CheckEdgeDims | pycorr/pair_counter.py:137-142 | passes iff ndim is 2 for smu/rppi and 1 otherwise; else the dimension error |
| Binning.ParseBinType | pycorr/pair_counter.py:146-149 | accepts exactly the names whose lower case is lin, custom or auto, and returns the type of that lower-cased name; else the bin-type error |
| Binning.ParseBinTypeOfName | pycorr/pair_counter.py:146-149 | parsing any spelling of a bin type's name gives that bin type back |
| Binning.ResolveBinType | pycorr/pair_counter.py:150-153 | lin and custom are kept; auto becomes lin iff every edge is within 1e-8 + 1e-5·|linspace value| of `np.linspace(e[0], e[-1], n)`, otherwise stays auto (never custom); an empty edge array fails |
| Binning.LinspaceEnds | pycorr/pair_counter.py:152 | `np.linspace(a, b, n)` starts at a and, for n > 1, ends at b |
| Binning.EvenEdgesAreLin | pycorr/pair_counter.py:150-153 | exactly evenly spaced edges are detected as lin |
| Binning.GeometricEdgesStayAuto | pycorr/pair_counter.py:150-153 | edges 1, 10, 100 are not detected as linear and stay auto |
| Binning.ConfigureEdges | pycorr/pair_counter.py:133-153 | a bare array is wrapped into a 1-tuple and a tuple is kept; the result has the mode's dimensionality; the bin type is the allowed lower-cased name, resolved over the first edge array (auto becomes lin or stays auto), so custom only when asked for |
| Binning.ConfigureEdgesSucceedsIff | pycorr/pair_counter.py:133-153 | edge configuration succeeds iff the argument is non-empty, its ndim matches the mode, the bin type is allowed, and auto detection has a first edge |
| Binning.Midpoints | pycorr/pair_counter.py:250 | one value per bin, value i halfway between edges i and i+1 |
| Binning.DefaultSep | pycorr/pair_counter.py:248-255 | 1-D: the midpoints of the first-dimension bins; 2-D: it exists iff both edge arrays are non-empty, and it is a grid of shape (len(e0)−1, len(e1)−1) whose every cell (i, j) is the midpoint of first-dimension bin i |
| Binning.DefaultSepInsideBin | pycorr/pair_counter.py:248-255 | with increasing edges, every default separation lies strictly inside its first-dimension bin |
| Binning.DefaultSep2AsWritten | pycorr/pair_counter.py:251-253 | the 2-D default separation as written: numpy broadcasts the midpoints along the last axis |
| Binning.DefaultSep2AsWrittenWrongCell | pycorr/pair_counter.py:251-253 | for edges [0,1,2] by [0,0.5,1] the as-written grid is [[0.5,1.5],[0.5,1.5]] where [[0.5,0.5],[1.5,1.5]] is intended |
| Binning.DefaultSep2AsWrittenFails | pycorr/pair_counter.py:251-253 | with 3 by 2 bins the as-written broadcast fails, while the intended default exists |
| Geometry.CheckLos | pycorr/pair_counter.py:257-261 | passes iff the line of sight is midpoint, endpoint, firstpoint, x, y or z; else the los error |
| Geometry.AxisIndex | pycorr/pair_counter.py:345 | for a line of sight accepted by `_set_los` (lines 257-261), the only kind that reaches line 345, `'xyz'.index(los)` succeeds iff los is x, y or z, and names that position |
| Geometry.BroadcastBox | pycorr/pair_counter.py:266-267 | a scalar or a 1-element box fills all 3 sides; a 3-element box is copied; anything else fails |
| Geometry.ConfigureBox | pycorr/pair_counter.py:263-267 | a box is kept iff one is given, and the kept box is the given one broadcast to 3 sides; it fails iff a given box does not broadcast |
| Geometry.PeriodicIffBoxGiven | pycorr/pair_counter.py:163-165 | a configured counter is periodic exactly when a box size was passed |
| Geometry.PeriodicInverted | pycorr/pair_counter.py:163-167 | a given box of side 1000 is reported non-periodic and is not broadcast, as written; the intended configuration makes it a periodic 3-vector |
| Catalog.ResolvePositionType | pycorr/pair_counter.py:168-171 | the type is lower-cased; auto becomes rd for theta and xyz otherwise |
| Catalog.ConvertPositions | pycorr/pair_counter.py:174-187 | fails with the position-type error iff the type is outside xyz/rdz/rd for theta, or outside rdd/xyz for other modes |
| Catalog.ScanFromPasses | pycorr/pair_counter.py:190-196 | the comparison loop passes iff every array matches the first in length and dtype |
| Catalog.ValidatePositions | pycorr/pair_counter.py:173-197 | accepted positions are the converted arrays, 2 for theta and 3 otherwise, all of one length and dtype; a failure is one of the four position errors |
| Catalog.ThetaRejectsRdd | pycorr/pair_counter.py:174-187 | in theta mode the type rdd is refused with the position-type error; other modes convert rdd to Cartesian positions |
| Catalog.ValidatePositionsSucceedsIff | pycorr/pair_counter.py:173-197 | `check_positions` succeeds iff the type is supported and the converted arrays have the right count, one length and one dtype |
| Catalog.CheckPositions | pycorr/pair_counter.py:173-197 | the loop of `check_positions` returns exactly the validator's result, error included |
| Catalog.ValidateCatalogs | pycorr/pair_counter.py:167-207 | with the position type resolved once for both catalogs, validation succeeds iff `check_positions` accepts positions1 and, when given, positions2; the stored catalogs are exactly those checked and converted arrays, of the mode's shape; autocorrelation holds iff positions2 is None; errors are position errors |
| Catalog.ParseWeightType | pycorr/pair_counter.py:269-273 | accepts exactly None, 'auto' and 'pair_product'; else the weight-type error |
| Catalog.ValidateWeights | pycorr/pair_counter.py:209-246 | accepted weighting is none, which drops both weight arrays, or pair_product, which keeps the given arrays with weights1 of the first catalog's length; a failure is one of the six weight errors |
| Catalog.WeightPresenceRules | pycorr/pair_counter.py:213-226 | weights2 without positions2, weights2 without weights1, and weights1 alone in a cross-correlation each raise their own error |
| Catalog.ValidateWeightsResult | pycorr/pair_counter.py:228-246 | auto resolves to None iff weights1 is absent, else to pair_product; None discards the weights; pair_product keeps weights of the catalog sizes |
| Catalog.ValidateWeightsSucceedsIff | pycorr/pair_counter.py:209-246 | weight validation succeeds iff the type is allowed, the presence rules hold and any weights in force have the catalogs' lengths |
| Normalization.Norm | pycorr/pair_counter.py:275-283 | unweighted: N(N-1) or N1·N2; pair_product: (Σw)²−Σw² or Σw1·Σw2 |
| Normalization.PrefixSumsAreSums | pycorr/pair_counter.py:282 | running sums over the whole array equal `w.sum()` and `(w**2).sum()` |
| Normalization.RowValue | pycorr/pair_counter.py:282 | the products of w_i with every other weight add up to w_i·Σw − w_i² |
| Normalization.OrderedPairSumOfRows | pycorr/pair_counter.py:282 | once each row is known, the ordered-pair sum is the sum of the rows less the sum of squares |
| Normalization.WeightedAutoNormIsOrderedPairSum | pycorr/pair_counter.py:281-282 | (Σw)²−Σw² equals the sum of w_i·w_j over ordered pairs i ≠ j |
| Normalization.WeightedAutoNormNonNegative | pycorr/pair_counter.py:281-282 | with non-negative weights the autocorrelation normalization is non-negative |
| Normalization.UnitWeightsGivePairCounts | pycorr/pair_counter.py:277-283 | with unit weights the weighted forms equal N(N-1) and N1·N2 |
| Normalization.UnweightedAutoNormCountsOrderedPairs | pycorr/pair_counter.py:278-279 | N(N-1) is the number of ordered pairs of distinct objects |
| Normalization.NormalizedWcounts | pycorr/pair_counter.py:285-287 | same shape as the counts, and every cell times the normalization gives the count back |
| Normalization.NormalizedTotal | pycorr/pair_counter.py:285-287 | the normalized counts sum to the total count over the normalization |
| Arrays.DiffTelescopes | pycorr/pair_counter.py:335 | the first differences of an array sum to its last value minus its first |
| Arrays.TotalScale | pycorr/pair_counter.py:349 | scaling every cell scales the total, in 1-D and 2-D |
| Rebinning.CheckFactors | pycorr/pair_counter.py:297-300 | a scalar factor becomes a 1-tuple; it succeeds iff there is one factor per dimension (else the factor-count error) and each factor is positive and divides its extent |
| Rebinning.RebinSum | pycorr/pair_counter.py:301-302 | the merged counts have shape `s // f` per dimension |
| Rebinning.BlockSumsAt | pycorr/pair_counter.py:302 | merged bin k is the sum of bins k·f up to k·f+f |
| Rebinning.BlockSumsConserve | pycorr/pair_counter.py:302 | merging adjacent bins keeps the total in one dimension |
| Rebinning.RebinSumPlaneAt | pycorr/pair_counter.py:302 | in 2-D, merged cell (p, q) is the total of the f0 by f1 block of cells it replaces: rows p·f0 up to p·f0+f0, columns q·f1 up to q·f1+f1 |
| Rebinning.RebinSumConserves | pycorr/tests/test_twopoint_jackknife.py:233-234 | rebinning keeps the total weighted count, in 1-D and 2-D |
| Rebinning.RebinSepLineAt | pycorr/pair_counter.py:303 | merged bin k holds the count-weighted mean of the separations it merges |
| Rebinning.RebinSepPlaneAt | pycorr/pair_counter.py:303 | in 2-D, merged cell (p, q) holds the total of sep·wcounts over its f0 by f1 block divided by the block's total count |
| Rebinning.RebinSepKeepsMoment | pycorr/pair_counter.py:303 | the total of sep·wcounts is the same before and after rebinning |
| Rebinning.QuotientTimesDivisor | pycorr/pair_counter.py:303 | multiplying the merged mean back by the merged counts gives the merged moment |
| Rebinning.RebinSepAsWrittenWrong | pycorr/pair_counter.py:303 | separations 1 and 3 with one pair each give 4 as written, where the weighted mean is 2; four bins merged in pairs fail to broadcast |
| Analytic.AnalyticNorm | pycorr/pair_counter.py:351-354 | n1(n1−1) without n2 and n1·n2 with it, the base engine's unweighted normalization, never negative |
| Analytic.SphereVolumes | pycorr/pair_counter.py:334 | 4/3·π·r³ at every edge |
| Analytic.CylinderAreas | pycorr/pair_counter.py:342-345 | π·r²·length at every edge |
| Analytic.DoubleDiff | pycorr/pair_counter.py:339 | cell (i, j) is the difference over i of the difference over j |
| Analytic.DoubleDiffFactorises | pycorr/pair_counter.py:336-343 | the double difference of `a[:, None] * b` at (i, j) is diff(a)[i]·diff(b)[j] |
| Analytic.DoubleDiffIsOuterOfDiffs | pycorr/pair_counter.py:338-339 | as whole arrays, the double difference of the outer product is the outer product of the differences |
| Analytic.TotalOuter | pycorr/pair_counter.py:338 | an outer product sums to the product of the two sums |
| Analytic.PlaneDiffProduct | pycorr/pair_counter.py:336-343 | the double differences sum to (Σ diff a)·(Σ diff b) |
| Analytic.ShellVolumes | pycorr/pair_counter.py:332-348 | `dv` exists exactly for s, smu, rppi, and rp with an x/y/z line of sight; 1-D only for s; other modes raise |
| Analytic.AnalyticCounts | pycorr/pair_counter.py:349 | the counts are `dv` scaled by the normalization over the box volume |
| Analytic.SphereCounts | pycorr/pair_counter.py:333-349 | in mode s the counts are the first differences of the sphere volumes, scaled by norm over the box volume |
| Analytic.SphereShellCount | pycorr/pair_counter.py:333-335 | in mode s, bin i holds norm/volume times the shell volume, and the shell volume is 4/3·π·r_{i+1}³ − 4/3·π·r_i³ |
| Analytic.LineTotal | pycorr/pair_counter.py:335 | scaled first differences sum to the scale times the last value minus the first |
| Analytic.SphereCountsTotal | pycorr/pair_counter.py:333-349 | in mode s the counts sum to norm/volume · (v(last) − v(first)) |
| Analytic.PlaneCounts | pycorr/pair_counter.py:336-349 | in modes smu and rppi the counts are the scaled double differences of the radial volume times the second edges |
| Analytic.ScaledPlaneTotal | pycorr/pair_counter.py:349 | scaling a 2-D grid of known total scales the total |
| Analytic.ColumnCounts | pycorr/pair_counter.py:344-349 | in mode rp the counts are one column of scaled cylinder differences, using the box side along the line of sight |
| Analytic.ColumnTotalScaled | pycorr/pair_counter.py:344-349 | that column sums to the scale times the last volume minus the first |
| PairCounter.CatalogWeightsFit | pycorr/pair_counter.py:238-246 | accepted weights fit the catalogs: none without weighting, catalog-length arrays with pair_product |
| PairCounter.Configure | pycorr/pair_counter.py:117-121 | runs the setters in order and reports the first failing setter's error; succeeds iff all of them pass; the result satisfies every setter's guarantee, is periodic iff a box was given, and is autocorrelation iff positions2 is None; its catalogs, weighting, edges, bin type, line of sight and box are exactly what the setters' validators return |
| PairCounter.DefaultSepFitsRun | pycorr/pair_counter.py:128-129 | when the engine does not output separations, the default separations exist and have the counts' shape |
| PairCounter.TwoPointCounterEngine.Normalization | pycorr/pair_counter.py:275-283 | the normalization is the (weighted) number of ordered pairs of distinct objects in each of the four cases |
| PairCounter.TwoPointCounterEngine.NormalizedCounts | pycorr/pair_counter.py:285-287 | same shape as the counts, every cell the count over the normalization, and the total equal to the count total over the normalization |
| PairCounter.TwoPointCounterEngine.GetState | pycorr/pair_counter.py:289-294 | the state dictionary holds the stored counts, separations, edges, box, mode, line of sight and `output_sepavg`; periodic iff a box is kept; the bin type by its name (lin, custom or auto); the weight type as None or pair_product |
| PairCounter.TwoPointCounterEngine.SetPositions | pycorr/pair_counter.py:167-207 | succeeds iff the catalogs validate; then stores them; on error keeps the old catalogs; nothing else changes |
| PairCounter.TwoPointCounterEngine.SetWeights | pycorr/pair_counter.py:209-246 | succeeds iff the weights validate against the stored catalogs; then stores a weighting that fits them |
| PairCounter.TwoPointCounterEngine.SetEdges | pycorr/pair_counter.py:133-153 | succeeds iff the edges configure; then stores edges and bin type of the mode's dimensionality |
| PairCounter.TwoPointCounterEngine.SetLos | pycorr/pair_counter.py:257-261 | the outcome is the los check; on success the line of sight is stored |
| PairCounter.TwoPointCounterEngine.SetBoxsize | pycorr/pair_counter.py:263-267 | succeeds iff the box configures; then the counter is periodic iff a box was given |
| PairCounter.TwoPointCounterEngine.SetDefaultSep | pycorr/pair_counter.py:248-255 | succeeds iff the default separation exists; then stores it |
| PairCounter.TwoPointCounterEngine.SetUp | pycorr/pair_counter.py:117-121 | the setters in order: passes iff `Configure` succeeds, with its error otherwise, and then holds exactly its configuration |
| PairCounter.TwoPointCounterEngine.Record | pycorr/pair_counter.py:123-131 | keeps the engine's counts, keeps its separations or takes the bin midpoints, and fixes the normalization; the counter is then valid |
| PairCounter.TwoPointCounterEngine.Create | pycorr/pair_counter.py:112-131 | construction fails exactly when the configuration does, with its error; otherwise a fresh valid counter with that configuration, the engine's counts of the binning's shape, and the kept or default separations |
| PairCounter.TwoPointCounterEngine.Rebin | pycorr/pair_counter.py:296-303 | fails iff the factors are wrong, changing nothing; otherwise counts become the block sums with their total kept, sep becomes the count-weighted mean, and the configuration and normalization are unchanged |
| PairCounter.SelectEngine | pycorr/pair_counter.py:306-316 | the name corrfunc in any letter case selects Corrfunc; any other name raises; an engine object is returned unchanged |
| PairCounter.SelectEngineIgnoresCase | pycorr/pair_counter.py:310 | two names equal up to case select the same engine |
| PairCounter.AnalyticConfigure | pycorr/pair_counter.py:321-350 | errors in `__init__`'s order (edges, box, los), then the mode: an off-axis rp gives the axis error and any other unsupported mode the no-analytic-solution error; once edges, box and los pass, a supported mode with a default separation succeeds; the stored edges, bin type and box are exactly those `_set_edges` with auto, `_set_bin_type` and the box broadcast produce, and the counts are `norm·dv/prod(box)` over them with midpoint separations |
| PairCounter.AnalyticTwoPointCounter.Normalization | pycorr/pair_counter.py:351-354 | n1(n1−1) for an autocorrelation, n1·n2 otherwise |
| PairCounter.AnalyticTwoPointCounter.Create | pycorr/pair_counter.py:321-330 | construction fails exactly when the configuration does; otherwise the counter holds its fields, is an autocorrelation iff n2 is None |

## Left out

- `run` and the Corrfunc engine are not part of this model. Their counts and mean
  separations are parameters of `Create`, constrained only by shape. The dispatch returns
  the marker `Corrfunc` instead of building the engine.
- `nthreads` and the `OMP_NUM_THREADS` environment lookup are left out, as is the
  `attrs` dictionary of keyword arguments. They are I/O and bookkeeping.
- `utils.cartesian_to_sky` and `utils.sky_to_cartesian` are not part of this model.
  They are function parameters (`Converters`), and their output goes through the same
  count, length and dtype checks.
- `utils.rebin` is not part of this model. Blockwise sums are defined directly.
- All arithmetic is over `real`. IEEE rounding, NaN and infinities are not modelled,
  and π is an abstract positive constant.
- Numpy dtypes are opaque tags compared for equality.
- `str.lower` is modelled for ASCII letters only.
- PairCounter.TwoPointCounterEngine.NormalizedCounts: requires a nonzero normalization,
  where numpy would produce inf or NaN.
- PairCounter.TwoPointCounterEngine.Rebin: requires every merged count to be nonzero,
  because the source divides by them and would produce NaN. It also rejects factors that
  are not positive or do not divide the extent, which the source does not check.
  `new_shape` is computed and never used in the source. The model states the shape of
  the result instead.
- PairCounter.AnalyticConfigure: requires a box of nonzero volume, where the source
  would divide by zero. The analytic counter always needs a box.
- PairCounter.TwoPointCounterEngine.SetPositions: the source assigns `positions1`
  before checking it. The model keeps the old catalogs on failure, because a failed
  setter ends construction anyway. The other setters do the same.
- Geometry.AxisIndex: differs from `str.index` for strings that are not an allowed
  line of sight (`''`, `'xy'`, `'xyz'` are found by `str.index`). Only allowed lines of
  sight reach that call, because `_set_los` runs first.
- Python default arguments (`n1=10`, `los='z'`, `bin_type='auto'`,
  `position_type='auto'`, `weight_type='auto'`, `los='midpoint'`,
  `output_sepavg=True`) are explicit parameters of the model.
- The parameter documentation lists position type `rdd` for every mode. In theta mode
  the code accepts `xyz`, `rdz` and `rd` and refuses `rdd`. The model follows the code
  (`Catalog.ThetaRejectsRdd`).
- `positions2` for an autocorrelation is `None` in the model rather than a list of
  `None`s.
- Analytic.PlaneCounts: the 2-D total is stated in parts, not as one lemma about
  `AnalyticCounts` in modes smu/rppi. The parts are `PlaneCounts` (the scaled double
  difference), `PlaneDiffProduct` (its sum factorises), `DiffTelescopes` (each factor
  telescopes) and `ScaledPlaneTotal`.
- The jackknife counter, `concatenate`, `realization`, `save`/`load`, the subsamplers
  and MPI are not part of this model.

## Findings

| source | as written | input that shows it | evidently intended | confidence | as-written member | corrected member |
|---|---|---|---|---|---|---|
| pycorr/pair_counter.py:163-167 | `periodic` returns `boxsize is None`, so `_set_boxsize` broadcasts only when no box is given | `boxsize=1000`: reported non-periodic and stored as a scalar | periodic iff a box is given, a given box broadcast to 3 sides | high, not executed | Geometry.PeriodicAsWritten, Geometry.PeriodicInverted | Geometry.ConfigureBox, Geometry.PeriodicIffBoxGiven |
| pycorr/pair_counter.py:251-253 | `sep[...] = midpoints` broadcasts the first-dimension midpoints along the last axis | edges [0,1,2] by [0,0.5,1] give [[0.5,1.5],[0.5,1.5]]; 3 by 2 bins raise | `sep[i][j]` is the midpoint of first-dimension bin i | high, not executed | Binning.DefaultSep2AsWritten, Binning.DefaultSep2AsWrittenWrongCell | Binning.DefaultSep, Binning.DefaultSepInsideBin |
| pycorr/pair_counter.py:302-303 | the old `sep` is multiplied by the already rebinned `wcounts` | seps [1,3], counts [1,1], factor 2 give 4; four bins by 2 cannot broadcast | weight by the counts before merging: the count-weighted mean | high, not executed | Rebinning.RebinSepLineAsWritten, Rebinning.RebinSepAsWrittenWrong | Rebinning.RebinSep, Rebinning.RebinSepKeepsMoment |
