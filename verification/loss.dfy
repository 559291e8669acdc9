/**
 * The distillation loss object. It resolves the student and teacher solvers once, caches
 * the coarse schedule and the teacher-slice indices on first use, threads the student
 * solver's history buffers from one coarse step to the next, and turns each student step
 * into a loss against the matching teacher target.
 *
 * The solvers, the schedule generator, the first-stage decoders and the perceptual score
 * are function parameters: their implementations are not part of this model.
 */
module DistillationLoss {
  import opened Outcomes
  import opened Tensors
  import opened SolverDispatch
  import opened TeacherSlicing
  import opened StepLossTerms
  import opened Diagnostics
  import EpdPredictorModel

  /** The solver settings the loss stores at construction and forwards to every solver call. */
  datatype SolverOptions = SolverOptions(
    scheduleType: string,
    scheduleRho: real,
    afs: bool,
    maxOrder: int,
    sigmaMin: real,
    sigmaMax: real,
    predictX0: bool,
    lowerOrderFinal: bool)

  /** The history of model outputs and their times that a multistep student solver carries between steps. */
  datatype History = History(model: seq<Tensor>, times: seq<real>)

  /** What the schedule generator is asked for. */
  datatype ScheduleRequest = ScheduleRequest(
    numSteps: int, sigmaMin: real, sigmaMax: real, scheduleType: string, scheduleRho: real)

  /** The settings the loss forwards unchanged to both the teacher and the student solver. */
  datatype SamplerSettings = SamplerSettings(
    scheduleType: string,
    scheduleRho: real,
    predictX0: bool,
    lowerOrderFinal: bool,
    maxOrder: int)

  /**
   * The teacher call: a full fine trajectory between the configured sigmas, with all
   * intermediates, always without the analytical first step and without a predictor.
   */
  datatype TeacherRequest = TeacherRequest(
    solver: SolverKind,
    x: Tensor,
    numSteps: int,
    sigmaMin: real,
    sigmaMax: real,
    afs: bool,
    returnInters: bool,
    settings: SamplerSettings)

  /**
   * A student call: one coarse interval run as a two-point schedule from `sigmaMax` down to
   * `sigmaMin`, in training mode, with the configured `afs`, the step index, and the total
   * step count and history buffers where the loss passes them. The predictor the loss
   * hands over is part of the `student` function parameter.
   */
  datatype StudentRequest = StudentRequest(
    solver: SolverKind,
    x: Tensor,
    numSteps: int,
    totalSteps: Option<int>,
    sigmaMin: real,
    sigmaMax: real,
    afs: bool,
    stepIdx: int,
    history: Option<History>,
    settings: SamplerSettings)

  /** The ensemble student's reply: the sample, the new history, and the four predictor outputs it used. */
  datatype EnsembleReply = EnsembleReply(
    out: Tensor, history: History, r: Grid, scaleDir: Grid, scaleTime: Grid, weight: Grid)

  /** The noise-ensemble student's reply: the sample and, when available, the noise magnitudes and weights. */
  datatype NoiseReply = NoiseReply(out: Tensor, sigma: Option<Grid>, weight: Option<Grid>)

  /** A schedule of `numSteps` positive noise levels, as the schedule generator produces. */
  predicate IsSchedule(t: seq<real>, numSteps: int) {
    |t| == numSteps && forall k :: 0 <= k < |t| ==> t[k] > 0.0
  }

  /** With intermediates requested, a solver returns one sample per schedule point. */
  ghost predicate ReturnsTrajectory(teacher: TeacherRequest -> seq<Tensor>) {
    forall q :: |teacher(q)| == q.numSteps
  }

  /** A student solver returns a sample of the shape of its input. */
  ghost predicate KeepsShape(student: StudentRequest -> EnsembleReply) {
    forall q :: |student(q).out| == |q.x|
  }

  ghost predicate NoiseKeepsShape(student: StudentRequest -> NoiseReply) {
    forall q :: |student(q).out| == |q.x|
  }

  /** `tensor_in / t`: the sample rescaled by a noise level. */
  function Div(x: Tensor, t: real): (y: Tensor)
    requires t != 0.0
    ensures |y| == |x|
  {
    seq(|x|, k requires 0 <= k < |x| => x[k] / t)
  }

  /** The history a student call receives: none at coarse step 0, otherwise the buffers as they stand. */
  function PassedHistory(h: History, stepIdx: int): (r: History)
    ensures stepIdx == 0 ==> r.model == [] && r.times == []
    ensures stepIdx != 0 ==> r == h
  {
    if stepIdx == 0 then History([], []) else h
  }

  /** One ensemble-loss call as seen by the buffers: its step index and what the solver makes of the history it is given. */
  datatype StepCall = StepCall(stepIdx: int, solve: History -> History)

  /** The buffers after one call: the solver's returned history, from the history the call passed it. */
  function Advance(h: History, c: StepCall): History {
    c.solve(PassedHistory(h, c.stepIdx))
  }

  /** The buffers after a run of calls. */
  function Replay(h: History, calls: seq<StepCall>): History
    decreases |calls|
  {
    if calls == [] then h else Replay(Advance(h, calls[0]), calls[1..])
  }

  /**
   * Nothing leaks across a reset: once a run contains a call at coarse step 0, the buffers
   * at its end do not depend on the buffers it started from.
   */
  lemma {:induction false} ReplayForgetsBeforeReset(h1: History, h2: History, calls: seq<StepCall>, j: nat)
    requires j < |calls| && calls[j].stepIdx == 0
    ensures Replay(h1, calls) == Replay(h2, calls)
    decreases j
  {
    if j == 0 {
      assert Advance(h1, calls[0]) == Advance(h2, calls[0]);
    } else {
      ReplayForgetsBeforeReset(Advance(h1, calls[0]), Advance(h2, calls[0]), calls[1..], j - 1);
    }
  }

  /** Every call but one at step 0 hands the solver exactly the buffers the previous call left. */
  lemma {:induction false} ReplayStep(h: History, calls: seq<StepCall>, c: StepCall)
    ensures Replay(h, calls + [c]) == c.solve(if c.stepIdx == 0 then History([], []) else Replay(h, calls))
    decreases |calls|
  {
    if calls == [] {
      assert [c][1..] == [];
    } else {
      assert (calls + [c])[1..] == calls[1..] + [c];
      ReplayStep(Advance(h, calls[0]), calls[1..], c);
    }
  }

  /** The loss object; the noise-ensemble loss shares its state and differs only in its call. */
  class EpdLoss {
    const numSteps: int
    const solverStu: SolverKind
    const solverTea: SolverKind
    const M: int
    const options: SolverOptions

    var numStepsTeacher: Option<int>
    var teaSlice: Option<seq<int>>
    var tSteps: Option<seq<real>>
    var bufferModel: seq<Tensor>
    var bufferT: seq<real>

    /** The caches, once set, hold what the configuration determines. */
    predicate Valid()
      reads this
    {
      && (teaSlice.Some? <==> numStepsTeacher.Some?)
      && (teaSlice.Some? ==> teaSlice.value == TeaSlice(M, numSteps))
      && (numStepsTeacher.Some? ==> numStepsTeacher.value == NumStepsTeacher(M, numSteps))
      && (tSteps.Some? ==> IsSchedule(tSteps.value, numSteps))
    }

    function Buffers(): History
      reads this
    {
      History(bufferModel, bufferT)
    }

    constructor (numSteps: int, solverStu: SolverKind, solverTea: SolverKind, M: int, options: SolverOptions)
      ensures this.numSteps == numSteps && this.M == M && this.options == options
      ensures this.solverStu == solverStu && this.solverTea == solverTea
      ensures Valid()
      ensures numStepsTeacher.None? && teaSlice.None? && tSteps.None?
      ensures bufferModel == [] && bufferT == []
    {
      this.numSteps := numSteps;
      this.solverStu := solverStu;
      this.solverTea := solverTea;
      this.M := M;
      this.options := options;
      numStepsTeacher := None;
      teaSlice := None;
      tSteps := None;
      bufferModel := [];
      bufferT := [];
    }

    /** The stored settings both solvers receive as they are. */
    function Settings(): SamplerSettings {
      SamplerSettings(options.scheduleType, options.scheduleRho, options.predictX0, options.lowerOrderFinal, options.maxOrder)
    }

    /** The schedule the loss asks for: `numSteps` points between the configured sigmas. */
    function ScheduleRequestOf(): ScheduleRequest {
      ScheduleRequest(numSteps, options.sigmaMin, options.sigmaMax, options.scheduleType, options.scheduleRho)
    }

    /** The teacher call for a noise sample: scaled by the first coarse level, over the whole fine schedule. */
    function TeacherRequestFor(x: Tensor): TeacherRequest
      reads this
      requires Valid() && tSteps.Some? && numSteps >= 1
    {
      TeacherRequest(solverTea, Div(x, tSteps.value[0]), NumStepsTeacher(M, numSteps),
        options.sigmaMin, options.sigmaMax, false, true, Settings())
    }

    function TeacherTrajectory(x: Tensor, teacher: TeacherRequest -> seq<Tensor>): seq<Tensor>
      reads this
      requires Valid() && tSteps.Some? && numSteps >= 1
    {
      teacher(TeacherRequestFor(x))
    }

    /**
     * The teacher targets for a batch: computes the schedule and the slice only while
     * they are unset, runs the teacher over the fine schedule, and keeps the sample at the
     * end of each coarse interval. The history buffers are not touched.
     */
    method GetTeacherTraj(x: Tensor, schedule: ScheduleRequest -> seq<real>, teacher: TeacherRequest -> seq<Tensor>)
      returns (targets: seq<Tensor>)
      requires Valid() && numSteps >= 1 && M >= 0
      requires IsSchedule(schedule(ScheduleRequestOf()), numSteps)
      requires ReturnsTrajectory(teacher)
      modifies this`tSteps, this`teaSlice, this`numStepsTeacher
      ensures Valid()
      ensures tSteps == if old(tSteps).Some? then old(tSteps) else Some(schedule(ScheduleRequestOf()))
      ensures teaSlice == Some(TeaSlice(M, numSteps)) && numStepsTeacher == Some(NumStepsTeacher(M, numSteps))
      ensures old(teaSlice).Some? ==> teaSlice == old(teaSlice) && numStepsTeacher == old(numStepsTeacher)
      ensures |TeacherTrajectory(x, teacher)| == NumStepsTeacher(M, numSteps)
      ensures forall k :: 0 <= k < |TeaSlice(M, numSteps)| ==>
        0 <= TeaSlice(M, numSteps)[k] < |TeacherTrajectory(x, teacher)|
      ensures targets == Gather(TeacherTrajectory(x, teacher), TeaSlice(M, numSteps))
      ensures |targets| == numSteps - 1
    {
      if tSteps.None? {
        tSteps := Some(schedule(ScheduleRequestOf()));
      }
      if teaSlice.None? {
        numStepsTeacher := Some(NumStepsTeacher(M, numSteps));
        teaSlice := Some(TeaSlice(M, numSteps));
      }
      var traj := teacher(TeacherRequestFor(x));
      TeacherTargets(traj, M, numSteps);
      targets := Gather(traj, teaSlice.value);
    }

    /** The student call of one coarse step: from `t_steps[stepIdx]` down to `t_steps[stepIdx + 1]`. */
    function StudentRequestFor(x: Tensor, stepIdx: nat, history: Option<History>, totalSteps: Option<int>): StudentRequest
      reads this
      requires Valid() && tSteps.Some? && stepIdx + 1 < |tSteps.value|
    {
      var tCur := tSteps.value[stepIdx];
      StudentRequest(solverStu, Div(x, tCur), 2, totalSteps, tSteps.value[stepIdx + 1], tCur, options.afs, stepIdx, history, Settings())
    }

    /** What the ensemble student makes of the history it is handed at coarse step `stepIdx`. */
    function SolveAt(x: Tensor, stepIdx: nat, student: StudentRequest -> EnsembleReply): History -> History
      reads this
      requires Valid() && tSteps.Some? && stepIdx + 1 < |tSteps.value|
    {
      var q := StudentRequestFor(x, stepIdx, None, Some(numSteps));
      h => student(q.(history := Some(h))).history
    }

    /** What the ensemble student returns for a step, given the buffers as they stood before the call. */
    function EnsembleStep(x: Tensor, stepIdx: nat, h: History, student: StudentRequest -> EnsembleReply): EnsembleReply
      reads this
      requires Valid() && tSteps.Some? && stepIdx + 1 < |tSteps.value|
    {
      student(StudentRequestFor(x, stepIdx, Some(PassedHistory(h, stepIdx)), Some(numSteps)))
    }

    /**
     * One ensemble training step: empties the buffers at step 0, hands them to the student
     * solver, stores the history it returns, and scores its sample against the teacher
     * target, with the perceptual loss at the terminal step `numSteps - 2`.
     */
    method Call(
      predictor: PredictorHandle, x: Tensor, stepIdx: nat, teacherOut: Tensor, dataset: Option<string>,
      student: StudentRequest -> EnsembleReply, decoder: Decoder, perceptual: (Tensor, Tensor) -> real)
      returns (loss: Tensor, report: seq<Stat>, studentOut: Tensor)
      requires Valid() && tSteps.Some? && stepIdx + 1 < |tSteps.value|
      requires KeepsShape(student) && |teacherOut| == |x|
      modifies this`bufferModel, this`bufferT
      ensures Valid()
      ensures Buffers() == EnsembleStep(x, stepIdx, old(Buffers()), student).history
      ensures Buffers() == Advance(old(Buffers()), StepCall(stepIdx, SolveAt(x, stepIdx, student)))
      ensures |EnsembleStep(x, stepIdx, old(Buffers()), student).out| == |teacherOut|
      ensures loss == ComputeStepLoss(EnsembleStep(x, stepIdx, old(Buffers()), student).out, teacherOut,
        stepIdx == numSteps - 2, Unwrap(predictor).alpha, IsLatent(dataset), decoder, perceptual).loss
      ensures studentOut == ComputeStepLoss(EnsembleStep(x, stepIdx, old(Buffers()), student).out, teacherOut,
        stepIdx == numSteps - 2, Unwrap(predictor).alpha, IsLatent(dataset), decoder, perceptual).studentOut
      ensures report == EnsembleColumns(Unwrap(predictor).numPoints, ScaleFlags(predictor).0, ScaleFlags(predictor).1)
      ensures ScaleFlagsAsWritten(predictor).Some? ==> report == EnsembleColumns(Unwrap(predictor).numPoints,
        ScaleFlagsAsWritten(predictor).value.0, ScaleFlagsAsWritten(predictor).value.1)
    {
      if stepIdx == 0 {
        bufferModel := [];
        bufferT := [];
      }
      var reply := student(StudentRequestFor(x, stepIdx, Some(Buffers()), Some(numSteps)));
      bufferModel := reply.history.model;
      bufferT := reply.history.times;
      var attrs := Unwrap(predictor);
      var step := ComputeStepLoss(reply.out, teacherOut, stepIdx == numSteps - 2, attrs.alpha, IsLatent(dataset), decoder, perceptual);
      loss := step.loss;
      var flags := ScaleFlags(predictor);
      report := EnsembleReport(attrs.numPoints, flags.0, flags.1);
      studentOut := step.studentOut;
    }

    /**
     * One noise-ensemble training step: the same coarse interval and the same loss, but the
     * student is called without the total step count and without history buffers.
     */
    method NoiseEnsembleCall(
      predictor: PredictorHandle, x: Tensor, stepIdx: nat, teacherOut: Tensor, dataset: Option<string>,
      student: StudentRequest -> NoiseReply, decoder: Decoder, perceptual: (Tensor, Tensor) -> real)
      returns (loss: Tensor, report: seq<Stat>, studentOut: Tensor)
      requires Valid() && tSteps.Some? && stepIdx + 1 < |tSteps.value|
      requires NoiseKeepsShape(student) && |teacherOut| == |x|
      ensures |student(StudentRequestFor(x, stepIdx, None, None)).out| == |teacherOut|
      ensures loss == ComputeStepLoss(student(StudentRequestFor(x, stepIdx, None, None)).out, teacherOut,
        stepIdx == numSteps - 2, Unwrap(predictor).alpha, IsLatent(dataset), decoder, perceptual).loss
      ensures studentOut == ComputeStepLoss(student(StudentRequestFor(x, stepIdx, None, None)).out, teacherOut,
        stepIdx == numSteps - 2, Unwrap(predictor).alpha, IsLatent(dataset), decoder, perceptual).studentOut
      ensures report == NoiseColumns(Unwrap(predictor).numPoints,
        student(StudentRequestFor(x, stepIdx, None, None)).weight.Some?,
        student(StudentRequestFor(x, stepIdx, None, None)).sigma.Some?)
    {
      var reply := student(StudentRequestFor(x, stepIdx, None, None));
      var attrs := Unwrap(predictor);
      var step := ComputeStepLoss(reply.out, teacherOut, stepIdx == numSteps - 2, attrs.alpha, IsLatent(dataset), decoder, perceptual);
      loss := step.loss;
      report := NoiseReport(attrs.numPoints, reply.weight.Some?, reply.sigma.Some?);
      studentOut := step.studentOut;
    }
  }

  /**
   * Construction resolves the student solver, then the teacher solver; an unknown name of
   * either is an error, the student's reported first. A new loss has empty buffers and no caches.
   */
  method NewLoss(numSteps: int, samplerStu: string, samplerTea: string, M: int, options: SolverOptions)
    returns (r: Result<EpdLoss>)
    ensures r.Ok? <==> samplerStu in KnownNames && samplerTea in KnownNames
    ensures r.Err? ==> r == Err(ResolveSolvers(samplerStu, samplerTea).error)
    ensures r.Ok? ==> fresh(r.value) && r.value.Valid()
    ensures r.Ok? ==> Name(r.value.solverStu) == samplerStu && Name(r.value.solverTea) == samplerTea
    ensures r.Ok? ==> r.value.numSteps == numSteps && r.value.M == M && r.value.options == options
    ensures r.Ok? ==> r.value.tSteps.None? && r.value.teaSlice.None? && r.value.numStepsTeacher.None?
    ensures r.Ok? ==> r.value.bufferModel == [] && r.value.bufferT == []
  {
    match ResolveSolvers(samplerStu, samplerTea)
    case Err(e) =>
      r := Err(e);
    case Ok(pair) =>
      var loss := new EpdLoss(numSteps, pair.0, pair.1, M, options);
      r := Ok(loss);
  }

  /**
   * The predictor accepts two teacher samplers, 'dpmpp' and 'euler', that the loss cannot
   * resolve, while both student samplers it accepts resolve.
   */
  lemma PredictorAndDispatchNames()
    ensures "dpmpp" in EpdPredictorModel.TeacherSamplers && GetSolverFn("dpmpp") == Err(WrongSolverName("dpmpp"))
    ensures "euler" in EpdPredictorModel.TeacherSamplers && GetSolverFn("euler") == Err(WrongSolverName("euler"))
    ensures forall n :: n in EpdPredictorModel.StudentSamplers ==> GetSolverFn(n).Ok?
    ensures forall n :: n in EpdPredictorModel.TeacherSamplers && n != "dpmpp" && n != "euler" ==> GetSolverFn(n).Ok?
  {
  }

  /**
   * The ensemble diagnostics report one block of columns per part of the predictor's output
   * tuple: weights, ratios and each enabled scale.
   */
  lemma ReportMatchesPredictorOutput(
    p: EpdPredictorModel.EpdPredictor, batchSize: nat, stepIdx: int,
    sigmoid: real -> real, softmax: seq<real> -> seq<real>)
    requires EpdPredictorModel.Valid(p) && 0 <= stepIdx < p.numSteps - 1
    requires IsNormalizing(softmax)
    ensures |EnsembleColumns(p.numPoints, p.scaleTime != 0.0, p.scaleDir != 0.0)|
      == |EpdPredictorModel.Forward(p, batchSize, stepIdx, sigmoid, softmax).parts| * p.numPoints
  {
    EnsembleColumnsOrder(p.numPoints, p.scaleTime != 0.0, p.scaleDir != 0.0);
  }
}
