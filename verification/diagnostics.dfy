/**
 * What a loss call reads from the predictor it is handed, and the layout of the
 * per-step diagnostic line: which statistic of which candidate point appears, in which
 * order. The numbers in the line are means of float tensors and are not modelled.
 */
module Diagnostics {
  import opened Outcomes
  import opened Tensors

  /** The predictor attributes the loss reads. */
  datatype PredictorAttrs = PredictorAttrs(numPoints: int, alpha: real, scaleDir: real, scaleTime: real)

  /** A predictor as handed to the loss: the module itself, or wrapped by a data-parallel container as `.module`. */
  datatype PredictorHandle = Bare(attrs: PredictorAttrs) | Wrapped(inner: PredictorAttrs)

  /**
   * `try: predictor.num_points ... except: predictor.module.num_points`: a bare
   * predictor answers directly, a wrapped one through its `.module`.
   */
  function Unwrap(h: PredictorHandle): (a: PredictorAttrs)
    ensures h.Bare? ==> a == h.attrs
    ensures h.Wrapped? ==> a == h.inner
  {
    match h
    case Bare(a) => a
    case Wrapped(a) => a
  }

  /**
   * The scale-flag reads of the ensemble loss as written: `predictor.module.scale_time`
   * and `predictor.module.scale_dir`, with no fallback, so a bare predictor has no
   * answer (an AttributeError).
   */
  function ScaleFlagsAsWritten(h: PredictorHandle): (r: Option<(bool, bool)>)
    ensures r.Some? <==> h.Wrapped?
    ensures h.Wrapped? ==> r.value == (h.inner.scaleTime != 0.0, h.inner.scaleDir != 0.0)
  {
    match h
    case Bare(_) => None
    case Wrapped(a) => Some((a.scaleTime != 0.0, a.scaleDir != 0.0))
  }

  /** The scale-flag reads with the same fallback as the `num_points`/`alpha` reads. */
  function ScaleFlags(h: PredictorHandle): (r: (bool, bool))
    ensures r.0 <==> Unwrap(h).scaleTime != 0.0
    ensures r.1 <==> Unwrap(h).scaleDir != 0.0
  {
    var a := Unwrap(h);
    (a.scaleTime != 0.0, a.scaleDir != 0.0)
  }

  /**
   * On a bare predictor the `num_points` and `alpha` reads succeed while the scale-flag
   * reads as written fail; wherever the as-written reads succeed, the corrected ones agree.
   */
  lemma ScaleFlagsAsWrittenFailsOnBare(a: PredictorAttrs)
    ensures Unwrap(Bare(a)).numPoints == a.numPoints && Unwrap(Bare(a)).alpha == a.alpha
    ensures ScaleFlagsAsWritten(Bare(a)) == None
    ensures ScaleFlags(Bare(a)) == (a.scaleTime != 0.0, a.scaleDir != 0.0)
  {
  }

  /**
   * The fallback makes the container invisible: a wrapped predictor yields the same
   * `num_points`, `alpha` and scale flags as the same predictor handed over bare.
   */
  lemma WrappingTransparent(a: PredictorAttrs)
    ensures Unwrap(Wrapped(a)) == Unwrap(Bare(a)) == a
    ensures ScaleFlags(Wrapped(a)) == ScaleFlags(Bare(a))
  {
  }

  lemma ScaleFlagsAgreeWhenWrapped(h: PredictorHandle)
    ensures ScaleFlagsAsWritten(h).Some? ==> ScaleFlagsAsWritten(h).value == ScaleFlags(h)
  {
  }

  /** Which statistic a column reports: weight, ratio, time scale, direction scale, noise magnitude. */
  datatype StatKind = Weight | Ratio | ScaleTime | ScaleDir | Sigma

  /** One `| w3: ...` column: a statistic of one candidate point. */
  datatype Stat = Stat(kind: StatKind, point: nat)

  /** The columns of one `for i in range(num_points)` loop; a negative count gives none. */
  function Block(kind: StatKind, numPoints: int): (b: seq<Stat>)
    ensures |b| == (if numPoints < 0 then 0 else numPoints)
    ensures forall i :: 0 <= i < |b| ==> b[i] == Stat(kind, i)
  {
    if numPoints <= 0 then [] else Block(kind, numPoints - 1) + [Stat(kind, numPoints - 1)]
  }

  /** The columns of the ensemble loss: weights, ratios, then time scales and direction scales when enabled. */
  function EnsembleColumns(numPoints: int, scaleTime: bool, scaleDir: bool): seq<Stat> {
    Block(Weight, numPoints) + Block(Ratio, numPoints)
      + (if scaleTime then Block(ScaleTime, numPoints) else [])
      + (if scaleDir then Block(ScaleDir, numPoints) else [])
  }

  /** The columns of the noise-ensemble loss: weights when returned, then noise magnitudes when returned. */
  function NoiseColumns(numPoints: int, hasWeight: bool, hasSigma: bool): seq<Stat> {
    (if hasWeight then Block(Weight, numPoints) else [])
      + (if hasSigma then Block(Sigma, numPoints) else [])
  }

  /** One column loop: appends the columns of `kind` for points 0 .. numPoints-1, in order. */
  method AppendColumns(line: seq<Stat>, kind: StatKind, numPoints: int) returns (r: seq<Stat>)
    ensures r == line + Block(kind, numPoints)
  {
    r := line;
    var i := 0;
    while i < numPoints
      invariant 0 <= i <= (if numPoints < 0 then 0 else numPoints)
      invariant r == line + Block(kind, i)
    {
      r := r + [Stat(kind, i)];
      i := i + 1;
    }
  }

  /** The four column loops of the ensemble loss, the last two guarded by the predictor's scale flags. */
  method EnsembleReport(numPoints: int, scaleTime: bool, scaleDir: bool) returns (line: seq<Stat>)
    ensures line == EnsembleColumns(numPoints, scaleTime, scaleDir)
  {
    line := AppendColumns([], Weight, numPoints);
    line := AppendColumns(line, Ratio, numPoints);
    if scaleTime {
      line := AppendColumns(line, ScaleTime, numPoints);
    }
    if scaleDir {
      line := AppendColumns(line, ScaleDir, numPoints);
    }
  }

  /** The two column loops of the noise-ensemble loss, each guarded by whether the solver returned that table. */
  method NoiseReport(numPoints: int, hasWeight: bool, hasSigma: bool) returns (line: seq<Stat>)
    ensures line == NoiseColumns(numPoints, hasWeight, hasSigma)
  {
    line := [];
    if hasWeight {
      line := AppendColumns(line, Weight, numPoints);
    }
    if hasSigma {
      line := AppendColumns(line, Sigma, numPoints);
    }
  }

  /** A column loop reports exactly the points below its count, each once, for its one statistic. */
  lemma BlockMembers(kind: StatKind, numPoints: int)
    ensures forall c :: c in Block(kind, numPoints) <==> c.kind == kind && c.point < numPoints
  {
    var b := Block(kind, numPoints);
    forall c: Stat | c.kind == kind && c.point < numPoints
      ensures c in b
    {
      assert b[c.point] == c;
    }
  }

  /** The ensemble line has one column per point for each reported statistic, weights first and ratios second. */
  lemma EnsembleColumnsOrder(numPoints: nat, scaleTime: bool, scaleDir: bool)
    ensures |EnsembleColumns(numPoints, scaleTime, scaleDir)| == (2 + Indicator(scaleTime) + Indicator(scaleDir)) * numPoints
    ensures forall i :: 0 <= i < numPoints ==>
      EnsembleColumns(numPoints, scaleTime, scaleDir)[i] == Stat(Weight, i)
      && EnsembleColumns(numPoints, scaleTime, scaleDir)[numPoints + i] == Stat(Ratio, i)
  {
    var w, r := Block(Weight, numPoints), Block(Ratio, numPoints);
    var st := if scaleTime then Block(ScaleTime, numPoints) else [];
    var sd := if scaleDir then Block(ScaleDir, numPoints) else [];
    assert EnsembleColumns(numPoints, scaleTime, scaleDir) == w + r + st + sd;
  }

  /**
   * A column is reported exactly when it names a point below numPoints and its statistic
   * is a weight, a ratio, or a scale whose flag is set.
   */
  lemma EnsembleColumnsMembers(numPoints: int, scaleTime: bool, scaleDir: bool)
    ensures forall c :: c in EnsembleColumns(numPoints, scaleTime, scaleDir) <==>
      c.point < numPoints
      && (c.kind == Weight || c.kind == Ratio || (c.kind == ScaleTime && scaleTime) || (c.kind == ScaleDir && scaleDir))
  {
    BlockMembers(Weight, numPoints);
    BlockMembers(Ratio, numPoints);
    BlockMembers(ScaleTime, numPoints);
    BlockMembers(ScaleDir, numPoints);
  }

  /** The noise-ensemble line reports a statistic exactly when the solver returned its table. */
  lemma NoiseColumnsMembers(numPoints: int, hasWeight: bool, hasSigma: bool)
    ensures forall c :: c in NoiseColumns(numPoints, hasWeight, hasSigma) <==>
      c.point < numPoints && ((c.kind == Weight && hasWeight) || (c.kind == Sigma && hasSigma))
  {
    BlockMembers(Weight, numPoints);
    BlockMembers(Sigma, numPoints);
  }
}
