/**
 * The direction-ensemble parameter predictor: per coarse step, learnable tables of
 * interpolation ratios, optional direction and time scales, and mixing weights over
 * `numPoints` candidate directions. `Forward` selects one row of each table, repeats it
 * over the batch and squashes it.
 */
module EpdPredictorModel {
  import opened Outcomes
  import opened Tensors

  const StudentSamplers: set<string> := {"epd", "ipndm"}
  const TeacherSamplers: set<string> := {"heun", "dpm", "dpmpp", "euler", "ipndm"}

  /** Names the four parameter tables, so the random initial draws can be told apart. */
  datatype ParamTable = RatioTable | ScaleDirTable | ScaleTimeTable | WeightTable

  datatype EpdPredictor = EpdPredictor(
    numPoints: int,
    numSteps: int,
    scaleDir: real,
    scaleTime: real,
    alpha: real,
    rParams: Grid,
    scaleDirParams: Grid,
    scaleTimeParams: Grid,
    weightS: Grid)

  /** What construction establishes: checked hyperparameters and (numSteps-1) x numPoints tables. */
  predicate Valid(p: EpdPredictor) {
    && p.numSteps >= 1
    && p.numPoints >= 0
    && p.scaleDir >= 0.0
    && p.scaleTime >= 0.0
    && IsGrid(p.rParams, p.numSteps - 1, p.numPoints)
    && IsGrid(p.scaleDirParams, p.numSteps - 1, p.numPoints)
    && IsGrid(p.scaleTimeParams, p.numSteps - 1, p.numPoints)
    && IsGrid(p.weightS, p.numSteps - 1, p.numPoints)
  }

  /** A table of random draws; the normal generator itself is the parameter `randn`. */
  function Draw(randn: (ParamTable, nat, nat) -> real, t: ParamTable, rows: nat, cols: nat): (g: Grid)
    ensures IsGrid(g, rows, cols)
  {
    seq(rows, i requires 0 <= i < rows => seq(cols, j requires 0 <= j < cols => randn(t, i, j)))
  }

  /**
   * The constructor: four assertions in source order, then four random tables, whose
   * allocation fails when either dimension is negative.
   */
  function NewEpdPredictor(
    numPoints: int, numSteps: int, samplerStu: string, samplerTea: string,
    scaleDir: real, scaleTime: real, alpha: real, randn: (ParamTable, nat, nat) -> real): (r: Result<EpdPredictor>)
    ensures r.Ok? <==>
      && samplerStu in StudentSamplers && samplerTea in TeacherSamplers
      && scaleDir >= 0.0 && scaleTime >= 0.0
      && numSteps >= 1 && numPoints >= 0
    ensures samplerStu !in StudentSamplers ==> r == Err(AssertionFailed(StudentSampler))
    ensures samplerStu in StudentSamplers && samplerTea !in TeacherSamplers ==> r == Err(AssertionFailed(TeacherSampler))
    ensures samplerStu in StudentSamplers && samplerTea in TeacherSamplers && scaleDir < 0.0 ==>
      r == Err(AssertionFailed(ScaleDirNonNegative))
    ensures samplerStu in StudentSamplers && samplerTea in TeacherSamplers && scaleDir >= 0.0 && scaleTime < 0.0 ==>
      r == Err(AssertionFailed(ScaleTimeNonNegative))
    ensures (samplerStu in StudentSamplers && samplerTea in TeacherSamplers && scaleDir >= 0.0 && scaleTime >= 0.0 &&
      (numSteps < 1 || numPoints < 0)) ==> r == Err(NegativeDimension)
    ensures r.Ok? ==> Valid(r.value)
    ensures r.Ok? ==> r.value.numPoints == numPoints && r.value.numSteps == numSteps && r.value.alpha == alpha
    ensures r.Ok? ==> r.value.scaleDir == scaleDir && r.value.scaleTime == scaleTime
  {
    if samplerStu !in StudentSamplers then Err(AssertionFailed(StudentSampler))
    else if samplerTea !in TeacherSamplers then Err(AssertionFailed(TeacherSampler))
    else if scaleDir < 0.0 then Err(AssertionFailed(ScaleDirNonNegative))
    else if scaleTime < 0.0 then Err(AssertionFailed(ScaleTimeNonNegative))
    else if numSteps - 1 < 0 || numPoints < 0 then Err(NegativeDimension)
    else
      var rows, cols := numSteps - 1, numPoints;
      Ok(EpdPredictor(numPoints, numSteps, scaleDir, scaleTime, alpha,
        Draw(randn, RatioTable, rows, cols), Draw(randn, ScaleDirTable, rows, cols),
        Draw(randn, ScaleTimeTable, rows, cols), Draw(randn, WeightTable, rows, cols)))
  }

  /**
   * The scale multiplier `2 * v * s + (1 - s)` around a squashed value `v`: strictly
   * inside (1-s, 1+s), and exactly 1 at the neutral value 1/2 or when the scale is 0.
   */
  function ScaleMap(s: real, v: real): (r: real)
    ensures s > 0.0 && 0.0 < v < 1.0 ==> 1.0 - s < r < 1.0 + s
    ensures v == 0.5 ==> r == 1.0
    ensures s == 0.0 ==> r == 1.0
  {
    2.0 * v * s + (1.0 - s)
  }

  /** `forward` returns either the ratio alone or a tuple starting with it. */
  datatype EpdOutput = RatioOnly(r: Grid) | Tuple(parts: seq<Grid>)

  /** The parts of a tuple output, by position: the ratio first, the weight last. */
  function RatioPart(out: EpdOutput): Grid
    requires out.Tuple? && |out.parts| >= 2
  {
    out.parts[0]
  }

  function ScaleDirPart(out: EpdOutput): Grid
    requires out.Tuple? && |out.parts| >= 2
  {
    out.parts[1]
  }

  function ScaleTimePart(out: EpdOutput): Grid
    requires out.Tuple? && |out.parts| >= 2
  {
    out.parts[|out.parts| - 2]
  }

  function WeightPart(out: EpdOutput): Grid
    requires out.Tuple? && |out.parts| >= 2
  {
    out.parts[|out.parts| - 1]
  }

  /**
   * One call of `forward`. The tuple is (ratio, [scale_dir], [scale_time], weight): the
   * weight is always appended, so the ratio-only branch never fires. Every part has
   * `batchSize` identical rows built from row `stepIdx` of its table.
   */
  function Forward(
    p: EpdPredictor, batchSize: nat, stepIdx: int,
    sigmoid: real -> real, softmax: seq<real> -> seq<real>): (out: EpdOutput)
    requires Valid(p) && 0 <= stepIdx < p.numSteps - 1
    requires IsNormalizing(softmax)
    ensures out.Tuple?
    ensures |out.parts| == 2 + Indicator(p.scaleDir != 0.0) + Indicator(p.scaleTime != 0.0)
    ensures forall k :: 0 <= k < |out.parts| ==> IsGrid(out.parts[k], batchSize, p.numPoints)
    ensures IsGrid(RatioPart(out), batchSize, p.numPoints)
    ensures IsGrid(WeightPart(out), batchSize, p.numPoints)
    ensures IsGrid(ScaleDirPart(out), batchSize, p.numPoints)
    ensures IsGrid(ScaleTimePart(out), batchSize, p.numPoints)
    ensures forall b, j :: 0 <= b < batchSize && 0 <= j < p.numPoints ==>
      RatioPart(out)[b][j] == sigmoid(p.rParams[stepIdx][j])
    ensures p.scaleDir != 0.0 ==> forall b, j :: 0 <= b < batchSize && 0 <= j < p.numPoints ==>
      ScaleDirPart(out)[b][j] == ScaleMap(p.scaleDir, sigmoid(0.5 * p.scaleDirParams[stepIdx][j]))
    ensures p.scaleTime != 0.0 ==> forall b, j :: 0 <= b < batchSize && 0 <= j < p.numPoints ==>
      ScaleTimePart(out)[b][j] == ScaleMap(p.scaleTime, sigmoid(0.5 * p.scaleTimeParams[stepIdx][j]))
    ensures forall b :: 0 <= b < batchSize ==> WeightPart(out)[b] == softmax(p.weightS[stepIdx])
  {
    var weight := MapRows(softmax, Repeat(p.weightS[stepIdx], batchSize));
    var r := MapEntries(sigmoid, Repeat(p.rParams[stepIdx], batchSize));
    var sd := if p.scaleDir != 0.0 then
        [MapEntries(x => ScaleMap(p.scaleDir, sigmoid(0.5 * x)), Repeat(p.scaleDirParams[stepIdx], batchSize))]
      else [];
    var st := if p.scaleTime != 0.0 then
        [MapEntries(x => ScaleMap(p.scaleTime, sigmoid(0.5 * x)), Repeat(p.scaleTimeParams[stepIdx], batchSize))]
      else [];
    var params := sd + st + [weight];
    if params != [] then Tuple([r] + params) else RatioOnly(r)
  }

  /**
   * With a squashing sigmoid and a normalising softmax, the ratio lies in (0, 1), each
   * enabled scale in (1-s, 1+s), and each weight in (0, 1].
   */
  lemma ForwardBounds(
    p: EpdPredictor, batchSize: nat, stepIdx: int,
    sigmoid: real -> real, softmax: seq<real> -> seq<real>)
    requires Valid(p) && 0 <= stepIdx < p.numSteps - 1
    requires IsSquashing(sigmoid) && IsNormalizing(softmax)
    ensures var out := Forward(p, batchSize, stepIdx, sigmoid, softmax);
      && (forall b, j :: 0 <= b < batchSize && 0 <= j < p.numPoints ==> 0.0 < RatioPart(out)[b][j] < 1.0)
      && (p.scaleDir != 0.0 ==> forall b, j :: 0 <= b < batchSize && 0 <= j < p.numPoints ==>
            1.0 - p.scaleDir < ScaleDirPart(out)[b][j] < 1.0 + p.scaleDir)
      && (p.scaleTime != 0.0 ==> forall b, j :: 0 <= b < batchSize && 0 <= j < p.numPoints ==>
            1.0 - p.scaleTime < ScaleTimePart(out)[b][j] < 1.0 + p.scaleTime)
      && (forall b, j :: 0 <= b < batchSize && 0 <= j < p.numPoints ==> 0.0 < WeightPart(out)[b][j] <= 1.0)
  {
    var out := Forward(p, batchSize, stepIdx, sigmoid, softmax);
    forall b, j | 0 <= b < batchSize && 0 <= j < p.numPoints
      ensures 0.0 < RatioPart(out)[b][j] < 1.0
      ensures 0.0 < WeightPart(out)[b][j] <= 1.0
      ensures p.scaleDir != 0.0 ==> 1.0 - p.scaleDir < ScaleDirPart(out)[b][j] < 1.0 + p.scaleDir
      ensures p.scaleTime != 0.0 ==> 1.0 - p.scaleTime < ScaleTimePart(out)[b][j] < 1.0 + p.scaleTime
    {
      var x := p.rParams[stepIdx][j];
      assert 0.0 < sigmoid(x) < 1.0;
      assert WeightPart(out)[b] == softmax(p.weightS[stepIdx]);
      assert |p.weightS[stepIdx]| == p.numPoints;
      assert 0.0 < sigmoid(0.5 * p.scaleDirParams[stepIdx][j]) < 1.0;
      assert 0.0 < sigmoid(0.5 * p.scaleTimeParams[stepIdx][j]) < 1.0;
    }
  }

  /**
   * `forward` reads only row `stepIdx` of each table: two predictors with the same
   * hyperparameters that agree on that row give the same output, whatever their other rows.
   */
  lemma ForwardReadsOnlyRow(
    p: EpdPredictor, q: EpdPredictor, batchSize: nat, stepIdx: int,
    sigmoid: real -> real, softmax: seq<real> -> seq<real>)
    requires Valid(p) && Valid(q) && IsNormalizing(softmax)
    requires 0 <= stepIdx < p.numSteps - 1 && 0 <= stepIdx < q.numSteps - 1
    requires p.numPoints == q.numPoints && p.scaleDir == q.scaleDir && p.scaleTime == q.scaleTime
    requires p.rParams[stepIdx] == q.rParams[stepIdx]
    requires p.scaleDirParams[stepIdx] == q.scaleDirParams[stepIdx]
    requires p.scaleTimeParams[stepIdx] == q.scaleTimeParams[stepIdx]
    requires p.weightS[stepIdx] == q.weightS[stepIdx]
    ensures Forward(p, batchSize, stepIdx, sigmoid, softmax) == Forward(q, batchSize, stepIdx, sigmoid, softmax)
  {
  }
}
