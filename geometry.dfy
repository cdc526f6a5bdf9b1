/** Line of sight and box geometry of a pair counter (`_set_los`, `_set_boxsize`,
    `periodic`). */
module Geometry {
  import opened Outcomes

  /** The allowed lines of sight (no case folding). */
  predicate AllowedLos(los: string)
  {
    los in ["midpoint", "endpoint", "firstpoint", "x", "y", "z"]
  }

  /** `_set_los`. */
  function CheckLos(los: string): (o: Outcome)
    ensures o.Pass? <==>
      los == "midpoint" || los == "endpoint" || los == "firstpoint" || los == "x" || los == "y" || los == "z"
    ensures o.Fail? ==> o.error == LosNotAllowed
  {
    Need(AllowedLos(los), LosNotAllowed)
  }

  /** `'xyz'.index(los)`: the box side along a Cartesian line of sight. */
  function AxisIndex(los: string): (r: Result<nat>)
    ensures r.Ok? <==> los == "x" || los == "y" || los == "z"
    ensures r.Ok? ==> r.value < 3 && ["x", "y", "z"][r.value] == los
  {
    if los == "x" then Ok(0) else if los == "y" then Ok(1) else if los == "z" then Ok(2) else Err(LosNotAxis)
  }

  /** The `boxsize` argument: one side length, or an array of them. */
  datatype BoxArg = Scalar(side: real) | Sides(sides: seq<real>)

  /** `b = np.empty(3); b[:] = boxsize`: a scalar or a 1-element array is repeated on
      all three sides, a 3-element array is copied, anything else does not broadcast. */
  function BroadcastBox(box: BoxArg): (r: Result<seq<real>>)
    ensures r.Ok? <==> box.Scalar? || |box.sides| == 1 || |box.sides| == 3
    ensures r.Ok? ==> |r.value| == 3
    ensures r.Ok? && box.Scalar? ==> forall k :: 0 <= k < 3 ==> r.value[k] == box.side
    ensures r.Ok? && box.Sides? ==> forall k :: 0 <= k < 3 ==> r.value[k] == box.sides[if |box.sides| == 1 then 0 else k]
  {
    match box
    case Scalar(x) => Ok([x, x, x])
    case Sides(s) =>
      if |s| == 3 then Ok(s)
      else if |s| == 1 then Ok([s[0], s[0], s[0]])
      else Err(BoxShape)
  }

  /** `_set_boxsize` as documented: a given box is broadcast to three sides, no box
      means no periodic wrapping. */
  function ConfigureBox(box: Option<BoxArg>): (r: Result<Option<seq<real>>>)
    ensures r.Ok? ==> (r.value.Some? <==> box.Some?)
    ensures r.Ok? && r.value.Some? ==> |r.value.value| == 3
    ensures r.Err? <==> box.Some? && BroadcastBox(box.value).Err?
    ensures r.Ok? && box.Some? ==> r.value == Some(BroadcastBox(box.value).value)
  {
    match box
    case None => Ok(None)
    case Some(b) =>
      var sides :- BroadcastBox(b);
      Ok(Some(sides))
  }

  /** `periodic` as documented: periodic wrapping iff a box is given. */
  function Periodic(boxsize: Option<seq<real>>): bool
  {
    boxsize.Some?
  }

  /** A configured box is periodic exactly when a box size was passed. */
  lemma {:induction false} PeriodicIffBoxGiven(box: Option<BoxArg>)
    requires ConfigureBox(box).Ok?
    ensures Periodic(ConfigureBox(box).value) <==> box.Some?
  {
  }

  /** `periodic` AS WRITTEN: `return self.boxsize is None`. */
  function PeriodicAsWritten(boxsize: Option<BoxArg>): bool
  {
    boxsize.None?
  }

  /** A box of side 1000 is reported non-periodic by the code as written, so
      `_set_boxsize`, which broadcasts only when `periodic` holds, stores it untouched
      and instead broadcasts when no box is given; the documented behaviour makes it a
      periodic 3-vector. */
  lemma {:induction false} PeriodicInverted()
    ensures !PeriodicAsWritten(Some(Scalar(1000.0)))
    ensures PeriodicAsWritten(None)
    ensures ConfigureBox(Some(Scalar(1000.0))) == Ok(Some([1000.0, 1000.0, 1000.0]))
    ensures Periodic(ConfigureBox(Some(Scalar(1000.0))).value)
  {
  }
}
