/**
 * The per-step distillation loss: an elementwise squared error between the student's and
 * the teacher's sample, replaced at the terminal coarse step by a weighted perceptual
 * loss computed on images rescaled into the pixel range [0, 255].
 */
module StepLossTerms {
  import opened Outcomes
  import opened Tensors

  /** Datasets whose samples live in a latent space and are decoded before scoring. */
  const LatentDatasets: set<string> := {"lsun_bedroom_ldm", "ms_coco"}

  /** `dataset in [...]`; the default `None` is not a latent dataset. */
  function IsLatent(dataset: Option<string>): (b: bool)
    ensures b <==> dataset.Some? && dataset.value in LatentDatasets
  {
    match dataset
    case None => false
    case Some(name) => name == "lsun_bedroom_ldm" || name == "ms_coco"
  }

  /** The first-stage decoders of a latent model: the student side keeps gradients. */
  datatype Decoder = Decoder(differentiable: Tensor -> Tensor, plain: Tensor -> Tensor)

  /** `x.clip(lo, hi)` for one value. */
  function Clip(x: real, lo: real, hi: real): (r: real)
    requires lo <= hi
    ensures lo <= r <= hi
    ensures lo <= x <= hi ==> r == x
    ensures x < lo ==> r == lo
    ensures x > hi ==> r == hi
  {
    if x < lo then lo else if x > hi then hi else x
  }

  /** `(x * 127.5 + 128).clip(0, 255)` for one value. */
  function ToPixel(v: real): real {
    Clip(v * 127.5 + 128.0, 0.0, 255.0)
  }

  /** The rescaling of a whole sample into the pixel range. */
  function ToPixelRange(x: Tensor): (y: Tensor)
    ensures |y| == |x|
    ensures forall k :: 0 <= k < |x| ==> y[k] == ToPixel(x[k])
  {
    seq(|x|, k requires 0 <= k < |x| => ToPixel(x[k]))
  }

  /**
   * Every rescaled value is a pixel value; inside [-128/127.5, 127/127.5] the map is the
   * affine one, below it saturates at 0 and above it at 255.
   */
  lemma PixelRange(v: real)
    ensures 0.0 <= ToPixel(v) <= 255.0
    ensures -128.0 / 127.5 <= v <= 127.0 / 127.5 ==> ToPixel(v) == v * 127.5 + 128.0
    ensures v < -128.0 / 127.5 ==> ToPixel(v) == 0.0
    ensures v > 127.0 / 127.5 ==> ToPixel(v) == 255.0
  {
  }

  /** The rescaling never reverses the order of two values. */
  lemma PixelMonotone(u: real, v: real)
    requires u <= v
    ensures ToPixel(u) <= ToPixel(v)
  {
  }

  /** `(student_out - teacher_out) ** 2`, elementwise. */
  function SquaredError(s: Tensor, t: Tensor): (l: Tensor)
    requires |s| == |t|
    ensures |l| == |s|
    ensures forall k :: 0 <= k < |l| ==> l[k] == (s[k] - t[k]) * (s[k] - t[k])
  {
    seq(|s|, k requires 0 <= k < |s| => (s[k] - t[k]) * (s[k] - t[k]))
  }

  lemma SquareNonNegative(d: real)
    ensures d * d >= 0.0
  {
    if d < 0.0 {
      assert d * d == (-d) * (-d);
    }
  }

  /** The squared error is nonnegative everywhere and vanishes where the student matches the teacher. */
  lemma SquaredErrorProperties(s: Tensor, t: Tensor)
    requires |s| == |t|
    ensures forall k :: 0 <= k < |s| ==> SquaredError(s, t)[k] >= 0.0
    ensures s == t ==> forall k :: 0 <= k < |s| ==> SquaredError(s, t)[k] == 0.0
  {
    var l := SquaredError(s, t);
    forall k | 0 <= k < |s|
      ensures l[k] >= 0.0
    {
      SquareNonNegative(s[k] - t[k]);
    }
  }

  /**
   * `loss + alpha * inception_loss - loss`: over the reals the squared error cancels and
   * every entry is the weighted perceptual loss.
   */
  function TerminalLoss(l: Tensor, alpha: real, perceptual: real): (r: Tensor)
    ensures |r| == |l|
    ensures forall k :: 0 <= k < |l| ==> r[k] == alpha * perceptual
  {
    seq(|l|, k requires 0 <= k < |l| => l[k] + alpha * perceptual - l[k])
  }

  /** What one step produces: the loss tensor and the (possibly decoded and rescaled) student sample. */
  datatype StepLoss = StepLoss(loss: Tensor, studentOut: Tensor)

  /**
   * The loss of one coarse step. Away from the terminal step it is the squared error and
   * the student sample is returned untouched. At the terminal step both samples are decoded
   * when the dataset is latent, rescaled into [0, 255], scored by the perceptual loss, and
   * the loss becomes `alpha` times that score; the rescaled student sample is returned.
   */
  function ComputeStepLoss(
    studentOut: Tensor, teacherOut: Tensor, terminal: bool, alpha: real, latent: bool,
    decoder: Decoder, perceptual: (Tensor, Tensor) -> real): (r: StepLoss)
    requires |studentOut| == |teacherOut|
    ensures |r.loss| == |studentOut|
    ensures !terminal ==> r.studentOut == studentOut
    ensures !terminal ==> forall k :: 0 <= k < |studentOut| ==>
      r.loss[k] == (studentOut[k] - teacherOut[k]) * (studentOut[k] - teacherOut[k])
    ensures terminal ==> forall k :: 0 <= k < |r.studentOut| ==> 0.0 <= r.studentOut[k] <= 255.0
    ensures terminal ==> r.studentOut == ToPixelRange(if latent then decoder.differentiable(studentOut) else studentOut)
    ensures terminal ==> forall k :: 0 <= k < |r.loss| ==> r.loss[k] == alpha * perceptual(
      ToPixelRange(if latent then decoder.differentiable(studentOut) else studentOut),
      ToPixelRange(if latent then decoder.plain(teacherOut) else teacherOut))
  {
    var loss := SquaredError(studentOut, teacherOut);
    if terminal then
      var s := ToPixelRange(if latent then decoder.differentiable(studentOut) else studentOut);
      var t := ToPixelRange(if latent then decoder.plain(teacherOut) else teacherOut);
      forall k | 0 <= k < |s| ensures 0.0 <= s[k] <= 255.0 {
        PixelRange((if latent then decoder.differentiable(studentOut) else studentOut)[k]);
      }
      StepLoss(TerminalLoss(loss, alpha, perceptual(s, t)), s)
    else
      StepLoss(loss, studentOut)
  }

  /**
   * Away from the terminal step the loss is nonnegative and zero where the samples agree;
   * at the terminal step it no longer depends on the squared error at all, only on the
   * two samples' perceptual score, so it is nonnegative when alpha and the score are.
   */
  lemma StepLossSign(
    studentOut: Tensor, teacherOut: Tensor, terminal: bool, alpha: real, latent: bool,
    decoder: Decoder, perceptual: (Tensor, Tensor) -> real)
    requires |studentOut| == |teacherOut|
    requires alpha >= 0.0
    requires forall a, b :: perceptual(a, b) >= 0.0
    ensures forall k :: 0 <= k < |studentOut| ==>
      ComputeStepLoss(studentOut, teacherOut, terminal, alpha, latent, decoder, perceptual).loss[k] >= 0.0
    ensures !terminal && studentOut == teacherOut ==> forall k :: 0 <= k < |studentOut| ==>
      ComputeStepLoss(studentOut, teacherOut, terminal, alpha, latent, decoder, perceptual).loss[k] == 0.0
  {
    var r := ComputeStepLoss(studentOut, teacherOut, terminal, alpha, latent, decoder, perceptual);
    SquaredErrorProperties(studentOut, teacherOut);
    if terminal {
      var s := ToPixelRange(if latent then decoder.differentiable(studentOut) else studentOut);
      var t := ToPixelRange(if latent then decoder.plain(teacherOut) else teacherOut);
      var score := perceptual(s, t);
      assert score >= 0.0;
      assert alpha * score >= 0.0;
    } else {
      forall k | 0 <= k < |studentOut|
        ensures r.loss[k] >= 0.0
      {
        assert r.loss[k] == SquaredError(studentOut, teacherOut)[k];
      }
    }
  }
}
