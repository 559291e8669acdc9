/**
 * The noise-ensemble parameter predictor: per coarse step, a noise magnitude and a
 * mixing logit for each of `numPoints` candidates. Logits are optionally damped by the
 * squared noise magnitude, which can only lower them.
 */
module NoisePredictorModel {
  import opened Outcomes
  import opened Tensors

  datatype NoisePredictor = NoisePredictor(
    numPoints: int,
    numSteps: int,
    noiseMax: real,
    noiseDamping: real,
    alpha: real,
    sigmaParams: Grid,
    weightParams: Grid)

  predicate Valid(p: NoisePredictor) {
    && p.numSteps >= 1
    && p.numPoints >= 0
    && IsGrid(p.sigmaParams, p.numSteps - 1, p.numPoints)
    && IsGrid(p.weightParams, p.numSteps - 1, p.numPoints)
  }

  function Zeros(rows: nat, cols: nat): (g: Grid)
    ensures IsGrid(g, rows, cols)
    ensures forall i, j :: 0 <= i < rows && 0 <= j < cols ==> g[i][j] == 0.0
  {
    seq(rows, _ => seq(cols, _ => 0.0))
  }

  /**
   * The constructor: `num_steps` must be given and at least 1; both tables start at zero
   * with shape (numSteps-1) x numPoints, which cannot be allocated for negative numPoints.
   */
  function NewNoisePredictor(
    numPoints: int, numSteps: Option<int>, noiseMax: real, noiseDamping: real, alpha: real): (r: Result<NoisePredictor>)
    ensures r.Ok? <==> numSteps.Some? && numSteps.value >= 1 && numPoints >= 0
    ensures (numSteps.None? || numSteps.value < 1) ==> r == Err(AssertionFailed(NumStepsAtLeastOne))
    ensures numSteps.Some? && numSteps.value >= 1 && numPoints < 0 ==> r == Err(NegativeDimension)
    ensures r.Ok? ==> Valid(r.value) && r.value.numSteps == numSteps.value && r.value.numPoints == numPoints
    ensures r.Ok? ==> r.value.noiseMax == noiseMax && r.value.noiseDamping == noiseDamping && r.value.alpha == alpha
    ensures r.Ok? ==> forall i, j :: 0 <= i < numSteps.value - 1 && 0 <= j < numPoints ==>
      r.value.sigmaParams[i][j] == 0.0 && r.value.weightParams[i][j] == 0.0
  {
    if numSteps.None? || numSteps.value < 1 then Err(AssertionFailed(NumStepsAtLeastOne))
    else if numPoints < 0 then Err(NegativeDimension)
    else
      var rows := numSteps.value - 1;
      Ok(NoisePredictor(numPoints, numSteps.value, noiseMax, noiseDamping, alpha,
        Zeros(rows, numPoints), Zeros(rows, numPoints)))
  }

  /** `sigmoid(sigma_params[i]) * noise_max`, repeated over the batch. */
  function Sigma(p: NoisePredictor, batchSize: nat, i: int, sigmoid: real -> real): (g: Grid)
    requires Valid(p) && 0 <= i < p.numSteps - 1
    ensures IsGrid(g, batchSize, p.numPoints)
    ensures forall b, j :: 0 <= b < batchSize && 0 <= j < p.numPoints ==>
      g[b][j] == sigmoid(p.sigmaParams[i][j]) * p.noiseMax
  {
    Repeat(MapRow(x => sigmoid(x) * p.noiseMax, p.sigmaParams[i]), batchSize)
  }

  /** With positive damping a logit never rises: the subtracted term is a nonnegative multiple of a square. */
  lemma DampingLowers(w: real, d: real, s: real)
    requires d > 0.0
    ensures w - d * (s * s) <= w
  {
    assert s * s >= 0.0;
  }

  /** The mixing logits: row `i` of the weight table, damped by `noiseDamping * sigma^2` when the damping is positive. */
  function Logits(p: NoisePredictor, batchSize: nat, i: int, sigmoid: real -> real): (g: Grid)
    requires Valid(p) && 0 <= i < p.numSteps - 1
    ensures IsGrid(g, batchSize, p.numPoints)
    ensures p.noiseDamping <= 0.0 ==> forall b :: 0 <= b < batchSize ==> g[b] == p.weightParams[i]
    ensures p.noiseDamping > 0.0 ==> forall b, j :: 0 <= b < batchSize && 0 <= j < p.numPoints ==>
      g[b][j] == p.weightParams[i][j] - p.noiseDamping * (
        (sigmoid(p.sigmaParams[i][j]) * p.noiseMax) * (sigmoid(p.sigmaParams[i][j]) * p.noiseMax))
  {
    var sigma := Sigma(p, batchSize, i, sigmoid);
    var logits := Repeat(p.weightParams[i], batchSize);
    if p.noiseDamping > 0.0 then
      seq(batchSize, b requires 0 <= b < batchSize =>
        seq(p.numPoints, j requires 0 <= j < p.numPoints =>
          logits[b][j] - p.noiseDamping * (sigma[b][j] * sigma[b][j])))
    else logits
  }

  datatype NoiseOutput = NoiseOutput(sigma: Grid, weights: Grid)

  /**
   * One call of `forward`: the noise magnitudes and the softmax of the logits, both
   * batchSize x numPoints. A step index passed as a one-element tensor is read as its
   * integer value, so the index is an integer here.
   */
  function Forward(
    p: NoisePredictor, batchSize: nat, stepIdx: int,
    sigmoid: real -> real, softmax: seq<real> -> seq<real>): (out: NoiseOutput)
    requires Valid(p) && 0 <= stepIdx < p.numSteps - 1
    requires IsNormalizing(softmax)
    ensures IsGrid(out.sigma, batchSize, p.numPoints)
    ensures IsGrid(out.weights, batchSize, p.numPoints)
    ensures forall b, j :: 0 <= b < batchSize && 0 <= j < p.numPoints ==>
      out.sigma[b][j] == sigmoid(p.sigmaParams[stepIdx][j]) * p.noiseMax
    ensures forall b :: 0 <= b < batchSize ==>
      out.weights[b] == softmax(Logits(p, batchSize, stepIdx, sigmoid)[b])
  {
    NoiseOutput(Sigma(p, batchSize, stepIdx, sigmoid), MapRows(softmax, Logits(p, batchSize, stepIdx, sigmoid)))
  }

  /** With a squashing sigmoid and a positive noise_max, every noise magnitude is in (0, noise_max). */
  lemma SigmaBounds(p: NoisePredictor, batchSize: nat, i: int, sigmoid: real -> real)
    requires Valid(p) && 0 <= i < p.numSteps - 1
    requires IsSquashing(sigmoid) && p.noiseMax > 0.0
    ensures forall b, j :: 0 <= b < batchSize && 0 <= j < p.numPoints ==>
      0.0 < Sigma(p, batchSize, i, sigmoid)[b][j] < p.noiseMax
  {
    var g := Sigma(p, batchSize, i, sigmoid);
    forall b, j | 0 <= b < batchSize && 0 <= j < p.numPoints
      ensures 0.0 < g[b][j] < p.noiseMax
    {
      var x := p.sigmaParams[i][j];
      var v := sigmoid(x);
      assert 0.0 < v < 1.0;
      assert g[b][j] == v * p.noiseMax;
      assert p.noiseMax - v * p.noiseMax == (1.0 - v) * p.noiseMax;
    }
  }

  /**
   * Without damping the logits are exactly the repeated weight row, so the weights do not
   * depend on the noise table at all.
   */
  lemma UndampedWeightsIgnoreSigma(
    p: NoisePredictor, q: NoisePredictor, batchSize: nat, i: int,
    sigmoid: real -> real, softmax: seq<real> -> seq<real>)
    requires Valid(p) && Valid(q) && IsNormalizing(softmax)
    requires 0 <= i < p.numSteps - 1
    requires p.noiseDamping <= 0.0
    requires q == p.(sigmaParams := q.sigmaParams)
    ensures forall b :: 0 <= b < batchSize ==> Logits(p, batchSize, i, sigmoid)[b] == p.weightParams[i]
    ensures Forward(p, batchSize, i, sigmoid, softmax).weights
         == Forward(q, batchSize, i, sigmoid, softmax).weights
  {
  }

  /** With positive damping no logit exceeds the raw weight parameter it was computed from. */
  lemma DampingNeverIncreasesLogits(p: NoisePredictor, batchSize: nat, i: int, sigmoid: real -> real)
    requires Valid(p) && 0 <= i < p.numSteps - 1
    requires p.noiseDamping > 0.0
    ensures forall b, j :: 0 <= b < batchSize && 0 <= j < p.numPoints ==>
      Logits(p, batchSize, i, sigmoid)[b][j] <= p.weightParams[i][j]
  {
    var g := Logits(p, batchSize, i, sigmoid);
    forall b, j | 0 <= b < batchSize && 0 <= j < p.numPoints
      ensures g[b][j] <= p.weightParams[i][j]
    {
      DampingLowers(p.weightParams[i][j], p.noiseDamping, sigmoid(p.sigmaParams[i][j]) * p.noiseMax);
    }
  }
}
