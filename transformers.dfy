/** The two pre-processing transformers of a roll-decay pipeline: the cutter,
    which trims a free-decay record to the part the estimators can use, and the
    Froude scaler, which converts a model-scale record to full scale. */
module Transformers {
  import opened Common
  import opened Series

  /** np.deg2rad(90) as the float it evaluates to. */
  const DefaultPhiMax: real := 1.5707963267948966
  const DefaultPhiMin: real := 0.0

  // ---------------------------------------------------------------- cutting

  /** The threshold checks of CutTransformer.fit. On an empty record pandas'
      minimum and maximum are NaN, every comparison with NaN is false, and
      nothing is raised. */
  function FitCheck(rows: seq<Row>, phiMax: real, phiMin: real): (r: Outcome)
    ensures r == Fail(PhiMaxTooSmall) <==>
      |rows| > 0 && forall i :: 0 <= i < |rows| ==> phiMax < Abs(rows[i].phi)
    ensures r == Fail(PhiMinTooLarge) <==>
      && (exists i :: 0 <= i < |rows| && Abs(rows[i].phi) <= phiMax)
      && (forall i :: 0 <= i < |rows| ==> Abs(rows[i].phi) < phiMin)
    ensures r.Fail? ==> r == Fail(PhiMaxTooSmall) || r == Fail(PhiMinTooLarge)
  {
    var a := AbsPhis(rows);
    if |rows| == 0 then Pass
    else if phiMax < a[FirstArgMin(a)] then Fail(PhiMaxTooSmall)
    else if phiMin > a[FirstArgMax(a)] then Fail(PhiMinTooLarge)
    else Pass
  }

  /** Step 1 starts at the first row where |phi| is largest (`idxmax`). */
  function PeakIndex(rows: seq<Row>): (k: nat)
    requires |rows| > 0
    ensures k < |rows|
  {
    FirstArgMax(AbsPhis(rows))
  }

  /** Step 2 starts at the first opposite extreme: the first minimum of phi
      when the record starts positive, else the first maximum. */
  function OppositeIndex(rows: seq<Row>): (k: nat)
    requires |rows| > 0
    ensures k < |rows|
  {
    if rows[0].phi > 0.0 then FirstArgMin(Phis(rows)) else FirstArgMax(Phis(rows))
  }

  /** Step 3 starts at the last row with |phi| >= phiMax, if there is one. */
  function LargeStart(rows: seq<Row>, phiMax: real): (k: nat)
    ensures k <= |rows| && (|rows| > 0 ==> k < |rows|)
  {
    match LastAtLeast(AbsPhis(rows), phiMax)
    case None => 0
    case Some(k) => k
  }

  /** Step 4 ends after the last row with |phi| >= phiMin, if there is one. */
  function SmallEnd(rows: seq<Row>, phiMin: real): (k: nat)
    ensures k <= |rows| && (|rows| > 0 ==> k > 0)
  {
    match LastAtLeast(AbsPhis(rows), phiMin)
    case None => |rows|
    case Some(k) => k + 1
  }

  function CutToPeak(rows: seq<Row>): (r: seq<Row>)
    requires |rows| > 0
    ensures 0 < |r| <= |rows|
  {
    rows[PeakIndex(rows)..]
  }

  function CutToOpposite(rows: seq<Row>): (r: seq<Row>)
    requires |rows| > 0
    ensures 0 < |r| <= |rows|
  {
    rows[OppositeIndex(rows)..]
  }

  function TrimLarge(rows: seq<Row>, phiMax: real): (r: seq<Row>)
    ensures |r| <= |rows|
    ensures |rows| > 0 ==> |r| > 0
  {
    rows[LargeStart(rows, phiMax)..]
  }

  function TrimSmall(rows: seq<Row>, phiMin: real): (r: seq<Row>)
    ensures |r| <= |rows|
    ensures |rows| > 0 ==> |r| > 0
  {
    rows[..SmallEnd(rows, phiMin)]
  }

  /** The first step starts at the first row of largest |phi|: no row is
      larger, and every dropped row is strictly smaller. */
  lemma PeakStartsCut(rows: seq<Row>)
    requires |rows| > 0
    ensures forall j :: 0 <= j < |rows| ==> Abs(rows[j].phi) <= Abs(CutToPeak(rows)[0].phi)
    ensures forall j :: 0 <= j < |rows| - |CutToPeak(rows)| ==> Abs(rows[j].phi) < Abs(CutToPeak(rows)[0].phi)
  {
    var k := FirstArgMax(AbsPhis(rows));
    assert CutToPeak(rows)[0] == rows[k];
  }

  /** The second step starts at the smallest phi after a positive peak and at
      the largest phi after a negative one, and skips no row that is as extreme. */
  lemma OppositeIsExtreme(rows: seq<Row>)
    requires |rows| > 0
    ensures rows[0].phi > 0.0 ==> forall j :: 0 <= j < |rows| ==> CutToOpposite(rows)[0].phi <= rows[j].phi
    ensures rows[0].phi > 0.0 ==>
      forall j :: 0 <= j < |rows| - |CutToOpposite(rows)| ==> CutToOpposite(rows)[0].phi < rows[j].phi
    ensures rows[0].phi <= 0.0 ==> forall j :: 0 <= j < |rows| ==> rows[j].phi <= CutToOpposite(rows)[0].phi
    ensures rows[0].phi <= 0.0 ==>
      forall j :: 0 <= j < |rows| - |CutToOpposite(rows)| ==> rows[j].phi < CutToOpposite(rows)[0].phi
  {
    var k := if rows[0].phi > 0.0 then FirstArgMin(Phis(rows)) else FirstArgMax(Phis(rows));
    assert CutToOpposite(rows)[0] == rows[k];
  }

  /** The third step keeps the record when no |phi| reaches `phiMax`;
      otherwise it starts at a row that reaches it, and no later row does. */
  lemma TrimLargeBounds(rows: seq<Row>, phiMax: real)
    ensures forall j :: 0 < j < |TrimLarge(rows, phiMax)| ==> Abs(TrimLarge(rows, phiMax)[j].phi) < phiMax
    ensures (forall i :: 0 <= i < |rows| ==> Abs(rows[i].phi) < phiMax) ==> TrimLarge(rows, phiMax) == rows
    ensures (exists i :: 0 <= i < |rows| && Abs(rows[i].phi) >= phiMax) ==> Abs(TrimLarge(rows, phiMax)[0].phi) >= phiMax
  {
    var r := TrimLarge(rows, phiMax);
    match LastAtLeast(AbsPhis(rows), phiMax)
    case None =>
    case Some(k) =>
      forall j | 0 <= j < |r|
        ensures r[j] == rows[k + j]
      {
      }
  }

  /** The fourth step keeps the record when no |phi| reaches `phiMin` (in
      particular when `phiMin <= 0`); otherwise it ends at the last row that
      reaches it. */
  lemma TrimSmallBounds(rows: seq<Row>, phiMin: real)
    ensures (exists i :: 0 <= i < |rows| && Abs(rows[i].phi) >= phiMin) ==>
      Abs(TrimSmall(rows, phiMin)[|TrimSmall(rows, phiMin)| - 1].phi) >= phiMin
    ensures (forall i :: 0 <= i < |rows| ==> Abs(rows[i].phi) < phiMin) ==> TrimSmall(rows, phiMin) == rows
    ensures phiMin <= 0.0 ==> TrimSmall(rows, phiMin) == rows
    ensures forall j :: |TrimSmall(rows, phiMin)| <= j < |rows| ==> Abs(rows[j].phi) < phiMin
  {
    match LastAtLeast(AbsPhis(rows), phiMin)
    case None =>
    case Some(k) =>
      if phiMin <= 0.0 && |rows| > 0 {
        assert AbsPhis(rows)[|rows| - 1] >= phiMin;
      }
  }

  /** CutTransformer.transform on a non-empty record: the four steps in order. */
  function Cut(rows: seq<Row>, phiMax: real, phiMin: real): (r: seq<Row>)
    requires |rows| > 0
    ensures 0 < |r| <= |rows|
  {
    TrimSmall(TrimLarge(CutToOpposite(CutToPeak(rows)), phiMax), phiMin)
  }

  /** The cut is one non-empty contiguous run of the input rows, and it starts
      no earlier than the first row where |phi| is largest. */
  lemma CutIsWindow(rows: seq<Row>, phiMax: real, phiMin: real) returns (lo: nat, hi: nat)
    requires |rows| > 0
    ensures PeakIndex(rows) <= lo < hi <= |rows|
    ensures Cut(rows, phiMax, phiMin) == rows[lo..hi]
  {
    var p := PeakIndex(rows);
    var s1 := rows[p..];
    var k2 := OppositeIndex(s1);
    var s2 := s1[k2..];
    var k3 := LargeStart(s2, phiMax);
    var s3 := s2[k3..];
    var k4 := SmallEnd(s3, phiMin);
    lo := p + k2 + k3;
    hi := lo + k4;
    WindowOfSteps(rows, s1, s2, s3, s3[..k4], p, k2, k3, k4, lo, hi);
  }

  /** Two suffixes and a prefix taken in turn are one window of the original. */
  lemma WindowOfSteps<T>(s: seq<T>, s1: seq<T>, s2: seq<T>, s3: seq<T>, s4: seq<T>,
                         p: nat, k2: nat, k3: nat, k4: nat, lo: nat, hi: nat)
    requires p <= |s| && s1 == s[p..]
    requires k2 <= |s1| && s2 == s1[k2..]
    requires k3 <= |s2| && s3 == s2[k3..]
    requires k4 <= |s3| && s4 == s3[..k4]
    requires lo == p + k2 + k3 && hi == lo + k4
    ensures lo <= hi <= |s| && s4 == s[lo..hi]
  {
    DropDrop(s, p, k2);
    DropDrop(s, p + k2, k3);
    PrefixOfWindow(s, s3, s4, p + k2 + k3, k4);
  }

  lemma DropDrop<T>(s: seq<T>, m: nat, n: nat)
    requires m + n <= |s|
    ensures s[m..][n..] == s[m + n..]
  {
  }

  lemma PrefixOfWindow<T>(s: seq<T>, suffix: seq<T>, prefix: seq<T>, m: nat, n: nat)
    requires m + n <= |s| && suffix == s[m..] && n <= |suffix| && prefix == suffix[..n]
    ensures prefix == s[m..m + n]
  {
  }

  /** Default `phi_min` = 0 never removes a trailing row. */
  lemma DefaultPhiMinKeepsEnd(rows: seq<Row>, phiMax: real)
    requires |rows| > 0
    ensures Cut(rows, phiMax, DefaultPhiMin) == TrimLarge(CutToOpposite(CutToPeak(rows)), phiMax)
  {
    TrimSmallBounds(TrimLarge(CutToOpposite(CutToPeak(rows)), phiMax), DefaultPhiMin);
  }

  class CutTransformer {
    var phiMax: real
    var phiMin: real
    /** `n_features_`: absent until `Fit` runs. */
    var nFeatures: Option<nat>

    constructor (phiMax: real, phiMin: real)
      ensures this.phiMax == phiMax && this.phiMin == phiMin && nFeatures == None
    {
      this.phiMax := phiMax;
      this.phiMin := phiMin;
      nFeatures := None;
    }

    /** Records the column count first, then checks the thresholds: a fit that
        raises has already recorded `n_features_`. */
    method Fit(x: Frame) returns (r: Outcome)
      modifies this`nFeatures
      ensures nFeatures == Some(NumColumns(x))
      ensures r == FitCheck(x.rows, phiMax, phiMin)
    {
      nFeatures := Some(NumColumns(x));
      r := FitCheck(x.rows, phiMax, phiMin);
    }

    method Transform(x: Frame) returns (r: Result<Frame>)
      ensures nFeatures.None? ==> r == Err(NotFitted)
      ensures nFeatures.Some? && |x.rows| == 0 ==> r == Err(EmptySeries)
      ensures nFeatures.Some? && |x.rows| > 0 ==>
        r.Ok? && r.value == x.(rows := Cut(x.rows, phiMax, phiMin))
    {
      if nFeatures.None? {
        return Err(NotFitted);
      }
      if |x.rows| == 0 {
        return Err(EmptySeries);
      }
      var cut := CutToPeak(x.rows);
      cut := CutToOpposite(cut);
      cut := TrimLarge(cut, phiMax);
      cut := TrimSmall(cut, phiMin);
      r := Ok(x.(rows := cut));
    }
  }

  /** `CutTransformer()` with its default thresholds: 90 degrees and 0. */
  method DefaultCutTransformer() returns (c: CutTransformer)
    ensures fresh(c) && c.phiMax == DefaultPhiMax && c.phiMin == DefaultPhiMin && c.nFeatures == None
  {
    c := new CutTransformer(DefaultPhiMax, DefaultPhiMin);
  }

  // ---------------------------------------------------------------- scaling

  /** Model-to-full-scale conversion of one row (Froude scaling with scale
      factor `s` and `root * root == s`): time grows by `root`, the rate
      shrinks by `root` and the acceleration by `s`, each only when its column
      exists; the angle is unchanged. */
  function ScaledRow(row: Row, root: real, s: real, hasPhi1d: bool, hasPhi2d: bool): (r: Row)
    requires root > 0.0 && root * root == s
    ensures r.t == row.t * root && r.phi == row.phi
    ensures if hasPhi1d then r.phi1d * root == row.phi1d else r.phi1d == row.phi1d
    ensures if hasPhi2d then r.phi2d * s == row.phi2d else r.phi2d == row.phi2d
  {
    ProductPositive(root, root, s);
    Row(row.t * root,
        row.phi,
        if hasPhi1d then row.phi1d / root else row.phi1d,
        if hasPhi2d then row.phi2d / s else row.phi2d)
  }

  lemma ProductPositive(a: real, b: real, p: real)
    requires a > 0.0 && b > 0.0 && p == a * b
    ensures p > 0.0
  {
  }

  function ScaledRows(rows: seq<Row>, root: real, s: real, hasPhi1d: bool, hasPhi2d: bool): (r: seq<Row>)
    requires root > 0.0 && root * root == s
    ensures |r| == |rows|
    ensures forall i :: 0 <= i < |rows| ==> r[i] == ScaledRow(rows[i], root, s, hasPhi1d, hasPhi2d)
  {
    seq(|rows|, i requires 0 <= i < |rows| => ScaledRow(rows[i], root, s, hasPhi1d, hasPhi2d))
  }

  /** Scaling keeps the time index strictly increasing. */
  lemma ScalingKeepsTimeOrder(rows: seq<Row>, root: real, s: real, hasPhi1d: bool, hasPhi2d: bool)
    requires root > 0.0 && root * root == s
    requires StrictlyIncreasing(Times(rows))
    ensures StrictlyIncreasing(Times(ScaledRows(rows, root, s, hasPhi1d, hasPhi2d)))
  {
    var r := ScaledRows(rows, root, s, hasPhi1d, hasPhi2d);
    forall i, j | 0 <= i < j < |r|
      ensures Times(r)[i] < Times(r)[j]
    {
      assert rows[i].t < rows[j].t by { assert Times(rows)[i] < Times(rows)[j]; }
      MultiplyKeepsOrder(rows[i].t, rows[j].t, root);
      assert Times(r)[i] == rows[i].t * root && Times(r)[j] == rows[j].t * root;
    }
  }

  lemma MultiplyKeepsOrder(a: real, b: real, c: real)
    requires a < b && c > 0.0
    ensures a * c < b * c
  {
    assert (b - a) * c > 0.0;
  }

  /** Scaling back with the reciprocal factor restores the model-scale record. */
  lemma ScalingRoundTrip(rows: seq<Row>, root: real, s: real, hasPhi1d: bool, hasPhi2d: bool)
    requires root > 0.0 && root * root == s
    ensures 1.0 / root > 0.0 && (1.0 / root) * (1.0 / root) == 1.0 / s
    ensures ScaledRows(ScaledRows(rows, root, s, hasPhi1d, hasPhi2d), 1.0 / root, 1.0 / s, hasPhi1d, hasPhi2d) == rows
  {
    ReciprocalScale(root, s);
    var once := ScaledRows(rows, root, s, hasPhi1d, hasPhi2d);
    var twice := ScaledRows(once, 1.0 / root, 1.0 / s, hasPhi1d, hasPhi2d);
    forall i | 0 <= i < |rows|
      ensures twice[i] == rows[i]
    {
      RowRoundTrip(rows[i], root, s, hasPhi1d, hasPhi2d);
    }
  }

  /** The reciprocal of a valid (root, scale factor) pair is one too. */
  lemma ReciprocalScale(root: real, s: real)
    requires root > 0.0 && root * root == s
    ensures 1.0 / root > 0.0 && (1.0 / root) * (1.0 / root) == 1.0 / s
  {
    var inv := 1.0 / root;
    ProductPositive(root, root, s);
    assert inv * root == 1.0;
    assert (1.0 / s) * s == 1.0;
    assert inv * inv == 1.0 / s by {
      assert (inv * inv) * s == (inv * root) * (inv * root);
    }
  }

  lemma RowRoundTrip(row: Row, root: real, s: real, hasPhi1d: bool, hasPhi2d: bool)
    requires root > 0.0 && root * root == s
    ensures 1.0 / root > 0.0 && (1.0 / root) * (1.0 / root) == 1.0 / s
    ensures ScaledRow(ScaledRow(row, root, s, hasPhi1d, hasPhi2d), 1.0 / root, 1.0 / s, hasPhi1d, hasPhi2d) == row
  {
    ReciprocalScale(root, s);
    ProductPositive(root, root, s);
    var once := ScaledRow(row, root, s, hasPhi1d, hasPhi2d);
    var twice := ScaledRow(once, 1.0 / root, 1.0 / s, hasPhi1d, hasPhi2d);
    MultiplyThenUndo(row.t, root, once.t, twice.t);
    if hasPhi1d {
      DivideThenUndo(row.phi1d, root, once.phi1d, twice.phi1d);
    }
    if hasPhi2d {
      DivideThenUndo(row.phi2d, s, once.phi2d, twice.phi2d);
    }
  }

  lemma MultiplyThenUndo(x: real, a: real, y: real, z: real)
    requires a != 0.0 && y == x * a && z == y * (1.0 / a)
    ensures z == x
  {
    assert z == x * (a * (1.0 / a));
  }

  lemma DivideThenUndo(x: real, a: real, y: real, z: real)
    requires a != 0.0 && y == x / a && z == y / (1.0 / a)
    ensures z == x
  {
    assert z == y * a;
  }

  class ScaleFactorTransformer {
    const scaleFactor: real
    /** `np.sqrt(scale_factor)`. */
    const root: real
    /** `n_features_`: absent until `Fit` runs. */
    var nFeatures: Option<nat>

    constructor (scaleFactor: real, root: real)
      requires root > 0.0 && root * root == scaleFactor
      ensures this.scaleFactor == scaleFactor && this.root == root && nFeatures == None
    {
      this.scaleFactor := scaleFactor;
      this.root := root;
      nFeatures := None;
    }

    method Fit(x: Frame)
      modifies this`nFeatures
      ensures nFeatures == Some(NumColumns(x))
    {
      nFeatures := Some(NumColumns(x));
    }

    /** Scales a copy of the frame in place, column by column; the input frame
        is a value and stays as it was. */
    method Transform(x: Frame) returns (r: Result<Frame>)
      requires root > 0.0 && root * root == scaleFactor
      ensures nFeatures.None? ==> r == Err(NotFitted)
      ensures nFeatures.Some? ==>
        r == Ok(Frame(ScaledRows(x.rows, root, scaleFactor, x.hasPhi1d, x.hasPhi2d), x.hasPhi1d, x.hasPhi2d))
    {
      if nFeatures.None? {
        return Err(NotFitted);
      }
      ProductPositive(root, root, scaleFactor);
      var n := |x.rows|;
      var a := new Row[n](i requires 0 <= i < n => x.rows[i]);
      assert a[..] == x.rows;
      ScaleTimes(a, root);
      ghost var timed := a[..];
      if x.hasPhi1d {
        ScaleRates(a, root);
      }
      ghost var rated := a[..];
      if x.hasPhi2d {
        ScaleAccelerations(a, scaleFactor);
      }
      forall k | 0 <= k < n
        ensures a[k] == ScaledRow(x.rows[k], root, scaleFactor, x.hasPhi1d, x.hasPhi2d)
      {
        assert timed[k] == x.rows[k].(t := x.rows[k].t * root);
        assert rated[k] == if x.hasPhi1d then timed[k].(phi1d := timed[k].phi1d / root) else timed[k];
      }
      assert a[..] == ScaledRows(x.rows, root, scaleFactor, x.hasPhi1d, x.hasPhi2d);
      r := Ok(Frame(a[..], x.hasPhi1d, x.hasPhi2d));
    }
  }

  /** Multiplies the time of every row by `root`, in place. */
  method ScaleTimes(a: array<Row>, root: real)
    modifies a
    ensures forall k :: 0 <= k < a.Length ==> a[k] == old(a[k]).(t := old(a[k]).t * root)
  {
    for i := 0 to a.Length
      invariant forall k :: 0 <= k < i ==> a[k] == old(a[k]).(t := old(a[k]).t * root)
      invariant forall k :: i <= k < a.Length ==> a[k] == old(a[k])
    {
      a[i] := a[i].(t := a[i].t * root);
    }
  }

  /** Divides the roll rate of every row by `root`, in place. */
  method ScaleRates(a: array<Row>, root: real)
    requires root != 0.0
    modifies a
    ensures forall k :: 0 <= k < a.Length ==> a[k] == old(a[k]).(phi1d := old(a[k]).phi1d / root)
  {
    for i := 0 to a.Length
      invariant forall k :: 0 <= k < i ==> a[k] == old(a[k]).(phi1d := old(a[k]).phi1d / root)
      invariant forall k :: i <= k < a.Length ==> a[k] == old(a[k])
    {
      a[i] := a[i].(phi1d := a[i].phi1d / root);
    }
  }

  /** Divides the roll acceleration of every row by `s`, in place. */
  method ScaleAccelerations(a: array<Row>, s: real)
    requires s != 0.0
    modifies a
    ensures forall k :: 0 <= k < a.Length ==> a[k] == old(a[k]).(phi2d := old(a[k]).phi2d / s)
  {
    for i := 0 to a.Length
      invariant forall k :: 0 <= k < i ==> a[k] == old(a[k]).(phi2d := old(a[k]).phi2d / s)
      invariant forall k :: i <= k < a.Length ==> a[k] == old(a[k])
    {
      a[i] := a[i].(phi2d := a[i].phi2d / s);
    }
  }
}
