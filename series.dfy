/** A roll-decay time series: rows indexed by strictly increasing time, with a
    roll angle and optional rate and acceleration columns, and the reductions
    over real sequences (first arg-max, first arg-min, last index at or above a
    bound) that the transformers and the spectral pick use. */
module Series {
  import opened Common

  /** One sample: time [s], roll angle [rad], roll rate [rad/s], roll
      acceleration [rad/s2]. A column the frame does not have leaves its field
      without meaning. */
  datatype Row = Row(t: real, phi: real, phi1d: real, phi2d: real)

  /** A frame: the rows, and whether the `phi1d` and `phi2d` columns exist.
      The `phi` column always exists. */
  datatype Frame = Frame(rows: seq<Row>, hasPhi1d: bool, hasPhi2d: bool)

  predicate StrictlyIncreasing(ts: seq<real>)
  {
    forall i, j :: 0 <= i < j < |ts| ==> ts[i] < ts[j]
  }

  function Times(rows: seq<Row>): (ts: seq<real>)
    ensures |ts| == |rows| && forall i :: 0 <= i < |rows| ==> ts[i] == rows[i].t
  {
    seq(|rows|, i requires 0 <= i < |rows| => rows[i].t)
  }

  function Phis(rows: seq<Row>): (ps: seq<real>)
    ensures |ps| == |rows| && forall i :: 0 <= i < |rows| ==> ps[i] == rows[i].phi
  {
    seq(|rows|, i requires 0 <= i < |rows| => rows[i].phi)
  }

  function AbsPhis(rows: seq<Row>): (ps: seq<real>)
    ensures |ps| == |rows| && forall i :: 0 <= i < |rows| ==> ps[i] == Abs(rows[i].phi)
  {
    seq(|rows|, i requires 0 <= i < |rows| => Abs(rows[i].phi))
  }

  /** `X.shape[1]`: the number of columns besides the time index. */
  function NumColumns(x: Frame): nat
  {
    1 + (if x.hasPhi1d then 1 else 0) + (if x.hasPhi2d then 1 else 0)
  }

  /** `X[key]` for the three column names; any other name, or an absent
      column, raises KeyError. */
  function Column(x: Frame, key: string): (r: Result<seq<real>>)
    ensures r.Ok? ==> |r.value| == |x.rows|
    ensures r.Ok? <==> key == "phi" || (key == "phi1d" && x.hasPhi1d) || (key == "phi2d" && x.hasPhi2d)
    ensures r.Err? ==> r.error == MissingColumn(key)
    ensures key == "phi" ==> r == Ok(Phis(x.rows))
    ensures r.Ok? && key == "phi1d" ==> forall i :: 0 <= i < |x.rows| ==> r.value[i] == x.rows[i].phi1d
    ensures r.Ok? && key == "phi2d" ==> forall i :: 0 <= i < |x.rows| ==> r.value[i] == x.rows[i].phi2d
  {
    if key == "phi" then Ok(Phis(x.rows))
    else if key == "phi1d" && x.hasPhi1d then
      Ok(seq(|x.rows|, i requires 0 <= i < |x.rows| => x.rows[i].phi1d))
    else if key == "phi2d" && x.hasPhi2d then
      Ok(seq(|x.rows|, i requires 0 <= i < |x.rows| => x.rows[i].phi2d))
    else Err(MissingColumn(key))
  }

  /** `idxmax` / `np.argmax`: the first position holding the largest value. */
  function FirstArgMax(xs: seq<real>): (k: nat)
    requires |xs| > 0
    ensures k < |xs|
    ensures forall j :: 0 <= j < |xs| ==> xs[j] <= xs[k]
    ensures forall j :: 0 <= j < k ==> xs[j] < xs[k]
  {
    if |xs| == 1 then 0
    else
      var k' := FirstArgMax(xs[..|xs| - 1]);
      if xs[|xs| - 1] > xs[k'] then |xs| - 1 else k'
  }

  /** `idxmin`: the first position holding the smallest value. */
  function FirstArgMin(xs: seq<real>): (k: nat)
    requires |xs| > 0
    ensures k < |xs|
    ensures forall j :: 0 <= j < |xs| ==> xs[k] <= xs[j]
    ensures forall j :: 0 <= j < k ==> xs[k] < xs[j]
  {
    if |xs| == 1 then 0
    else
      var k' := FirstArgMin(xs[..|xs| - 1]);
      if xs[|xs| - 1] < xs[k'] then |xs| - 1 else k'
  }

  /** The last position whose value is at least `bound`, if any
      (`series.loc[series >= bound].index[-1]`). */
  function LastAtLeast(xs: seq<real>, bound: real): (o: Option<nat>)
    ensures o.None? <==> forall i :: 0 <= i < |xs| ==> xs[i] < bound
    ensures o.Some? ==> o.value < |xs| && xs[o.value] >= bound
    ensures o.Some? ==> forall j :: o.value < j < |xs| ==> xs[j] < bound
  {
    if |xs| == 0 then None
    else if xs[|xs| - 1] >= bound then Some(|xs| - 1)
    else LastAtLeast(xs[..|xs| - 1], bound)
  }
}
