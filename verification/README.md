# EPD distillation core in Dafny

This project models the training core of EPD, a distillation scheme. A slow "teacher" diffusion sampler produces
a fine trajectory. A fast multistep "student" sampler learns to match that trajectory's
samples at the ends of a few coarse intervals, with the help of a small learnable
*parameter predictor*. The model covers two source files:

- `training/loss.py`:
  - `get_solver_fn`, the lookup from a solver name to one of six solver variants;
  - `EPD_loss`: its construction, `get_teacher_traj` (the lazily cached schedule and teacher-slice indices) and `__call__`. `__call__` covers the history-buffer protocol across coarse steps, the interval `t_steps[i] .. t_steps[i+1]`, the squared-error loss and its replacement by a perceptual loss at the terminal step, and the layout of the diagnostic line;
  - `NoiseEnsembleLoss.__call__`, the same step without history buffers.
- `training/networks.py`:
  - `EPD_predictor`: its configuration assertions, its four `(num_steps-1) x num_points` tables, and `forward`. `forward` selects one row, repeats it over the batch, squashes it, and returns a tuple whose arity depends on `scale_dir`/`scale_time`;
  - `NoiseEnsemblePredictor`: zero-initialised tables, noise magnitudes bounded by `noise_max`, and optional damping of the mixing logits.

Tensors are sequences of reals (`Tensor = seq<real>`, `Grid = seq<seq<real>>` for batch x
points). The logistic sigmoid and the softmax are function parameters constrained only by
their ranges: `Tensors.IsSquashing` says values lie in (0, 1), and `Tensors.IsNormalizing` says the
length is kept and values lie in (0, 1]. The student and teacher solvers, the schedule generator, the
first-stage decoders and the perceptual score are also function parameters. The random
initial draws of `EPD_predictor` are a parameter `randn`.

Modules:

- `outcomes.dfy`: `Option`, `Result`, and the errors. These are the solver-name ValueError, the predictor assertions, and allocating a table with a negative dimension.
- `solver_dispatch.dfy`: `get_solver_fn` and the two eager lookups of the loss constructor.
- `teacher_slicing.dfy`: `num_steps_teacher`, the `tea_slice` comprehension, and gathering targets from a trajectory.
- `tensors.dfy`: tensors, grids, row repetition and the range predicates.
- `epd_predictor.dfy`, `noise_predictor.dfy`: the two predictors, as values with pure `forward` functions.
- `step_loss.dfy`: the squared error, the pixel-range rescaling and the terminal perceptual loss.
- `diagnostics.dfy`: the predictor unwrap fallback, the scale-flag reads, and the column loops of the diagnostic line.
- `loss.dfy`: the loss object as a class whose fields are updated in place. It also holds the buffer-protocol specification (`Replay`) and the cross-file lemmas.

Facts about the code that the model follows:

- no code checks `num_points >= 1`, `num_steps >= 2` or `M >= 0`. `EPD_predictor` fails only when it allocates a table with a negative dimension; `NoiseEnsemblePredictor` asserts `num_steps >= 1` (training/networks.py:127);
- the loss hands the predictor to the student solver (training/loss.py:81) and never calls it itself;
- noise magnitudes are proved to lie in the open interval `(0, noise_max)`: over the reals the sigmoid is strictly inside (0, 1).

## Model

| member | source | states |
|---|---|---|
| `SolverDispatch.GetSolverFn` | training/loss.py:11-26 | a solver is returned exactly for the six names, and the variant returned carries the name asked for; every other name is `WrongSolverName(name)` |
| `SolverDispatch.NameRoundTrip` | training/loss.py:11-26 | every variant is reached by its own name, so no two variants share a name |
| `SolverDispatch.ResolveSolvers` | training/loss.py:37-38 | construction succeeds iff both names are known; an unknown student name is reported before an unknown teacher name |
| `DistillationLoss.NewLoss` | training/loss.py:31-54 | construction fails exactly when a solver name is unknown; a new loss stores its configuration, has empty `buffer_model`/`buffer_t` and no schedule, slice or teacher step count |
| `DistillationLoss.EpdLoss.constructor` | training/loss.py:36-54 | the stored configuration, empty buffers, all three caches unset |
| `TeacherSlicing.SliceFromAt` | training/loss.py:146 | the comprehension from `i` has `numSteps - i` entries and entry `k` is `(i+k)(M+1)` |
| `TeacherSlicing.TeaSliceShape` | training/loss.py:146 | `tea_slice` has `num_steps-1` entries and entry `k` is `(k+1)(M+1)` |
| `TeacherSlicing.TeaSliceIncreasing` | training/loss.py:146 | with `M >= 0` the slice is strictly increasing |
| `TeacherSlicing.TeaSliceInBounds` | training/loss.py:145-146 | every slice index lies in `(0, num_steps_teacher)` and the last one is `num_steps_teacher - 1` |
| `TeacherSlicing.FiveStepsOneIntermediate` | training/loss.py:145-146 | five coarse points with `M = 1` give a nine-point teacher schedule and targets 2, 4, 6, 8 |
| `TeacherSlicing.TeacherTargets` | training/loss.py:145-170 | gathering a full teacher trajectory gives `num_steps-1` targets, target `k` is sample `(k+1)(M+1)`, and the last is the teacher's final sample |
| `DistillationLoss.EpdLoss.GetTeacherTraj` | training/loss.py:141-170 | the schedule is computed only when unset and otherwise kept; the slice and teacher step count are set once and then equal the configuration's; the teacher runs over `num_steps_teacher` points from `x / t_steps[0]`; the result is the gathered targets, one per coarse step; the buffers are untouched |
| `DistillationLoss.EpdLoss.Call` | training/loss.py:56-138 | the solver gets `[t_steps[i], t_steps[i+1]]` and empty buffers at step 0, otherwise the buffers as they stood; the buffers afterwards are the history the solver returned; so the buffers move exactly as one `Advance` of the buffer protocol (`Replay`); the loss and returned sample are those of `ComputeStepLoss` with the terminal flag `i == num_steps-2`; the report columns are `EnsembleColumns` under the corrected scale flags, and agree with the as-written flags wherever those answer (see Findings: on a bare predictor the source raises instead) |
| `DistillationLoss.EpdLoss.NoiseEnsembleCall` | training/loss.py:175-240 | the same interval and loss, with the student called without history buffers or total step count; the report lists weight and noise columns exactly for the tables the solver returned |
| `DistillationLoss.ReplayForgetsBeforeReset` | training/loss.py:61-91 | once a run of calls contains a step-0 call, the final buffers do not depend on the buffers the run started from (no leak across trajectories) |
| `DistillationLoss.ReplayStep` | training/loss.py:61-91 | after any run of calls, the next call's solver receives exactly the buffers the run left (or empty ones at step 0), and its returned history becomes the new buffers |
| `DistillationLoss.PredictorAndDispatchNames` | training/networks.py:38-39 | both student samplers the predictor accepts resolve in the loss, but two teacher samplers it accepts, 'dpmpp' and 'euler', are rejected by the loss's lookup |
| `DistillationLoss.ReportMatchesPredictorOutput` | training/loss.py:116-136 | the ensemble diagnostic line has one block of `num_points` columns per part of the predictor's output tuple |
| `StepLossTerms.Clip` | training/loss.py:109-110 | the clipped value lies in `[lo, hi]`, equals the input inside it and the nearer bound outside |
| `StepLossTerms.PixelRange` | training/loss.py:109-110 | `x*127.5+128` clipped lies in [0, 255], is affine on `[-128/127.5, 127/127.5]` and saturates outside |
| `StepLossTerms.PixelMonotone` | training/loss.py:109-110 | the rescaling preserves order |
| `StepLossTerms.SquaredErrorProperties` | training/loss.py:99 | the squared error is nonnegative and is zero where student and teacher agree |
| `StepLossTerms.TerminalLoss` | training/loss.py:112 | `loss + alpha*inception - loss` is `alpha*inception` in every entry, whatever `loss` was |
| `StepLossTerms.ComputeStepLoss` | training/loss.py:99-112 | away from the terminal step the loss is the squared error and the sample is returned unchanged; at the terminal step the sample is (decoded if latent and) rescaled into [0, 255], and every loss entry is `alpha` times the perceptual score of the rescaled pair |
| `StepLossTerms.StepLossSign` | training/loss.py:99-112 | with `alpha >= 0` and a nonnegative perceptual score, the loss is nonnegative at every step, and zero away from the terminal step when the samples agree |
| `Diagnostics.WrappingTransparent` | training/loss.py:92-97 | the fallback makes a data-parallel wrapper invisible: a wrapped predictor gives the same `num_points`, `alpha` and (corrected) scale flags as the same predictor handed over bare |
| `Diagnostics.ScaleFlagsAsWrittenFailsOnBare` | training/loss.py:92-136 | on a bare predictor the `num_points`/`alpha` reads succeed while the as-written scale reads fail; the corrected reads answer |
| `Diagnostics.ScaleFlagsAgreeWhenWrapped` | training/loss.py:126-136 | wherever the as-written reads answer, the corrected reads give the same flags |
| `Diagnostics.Block` | training/loss.py:116-119 | one column loop gives one column per point `0 .. num_points-1` in order, none for a negative count |
| `Diagnostics.AppendColumns` | training/loss.py:116-119 | the loop appends exactly that block to the line |
| `Diagnostics.EnsembleReport` | training/loss.py:114-136 | the four loops give weights, ratios, then time scales and direction scales when their flags are set |
| `Diagnostics.NoiseReport` | training/loss.py:227-238 | the two loops give weights and noise magnitudes, each only when the solver returned it |
| `Diagnostics.BlockMembers` | training/loss.py:116-124 | a column is in a loop's block iff it has that loop's statistic and a point below the count |
| `Diagnostics.EnsembleColumnsOrder` | training/loss.py:114-136 | the ensemble line has `(2 + [st] + [sd]) * num_points` columns, weights first and ratios second |
| `Diagnostics.EnsembleColumnsMembers` | training/loss.py:114-136 | a column is reported iff its point is below `num_points` and it is a weight, a ratio, or a scale whose flag is set |
| `Diagnostics.NoiseColumnsMembers` | training/loss.py:230-238 | a column is reported iff its point is below `num_points` and the solver returned its table |
| `EpdPredictorModel.NewEpdPredictor` | training/networks.py:37-65 | the four assertions fail in source order; otherwise the predictor keeps its settings and has four `(num_steps-1) x num_points` tables, and allocation fails for a negative size |
| `EpdPredictorModel.Draw` | training/networks.py:62-65 | a drawn table has the requested shape |
| `EpdPredictorModel.ScaleMap` | training/networks.py:84-90 | `2*v*s + (1-s)` lies strictly in `(1-s, 1+s)` for `v` in (0, 1), and is 1 at `v = 1/2` or `s = 0` |
| `EpdPredictorModel.Forward` | training/networks.py:70-95 | the output is always a tuple of `2 + [scale_dir != 0] + [scale_time != 0]` grids, ratio first and weight last, direction scale before time scale; each is `batch_size x num_points`, built only from row `step_idx` |
| `EpdPredictorModel.ForwardBounds` | training/networks.py:70-95 | ratios lie in (0, 1), enabled scales in `(1-s, 1+s)`, weights in (0, 1] |
| `EpdPredictorModel.ForwardReadsOnlyRow` | training/networks.py:71-89 | predictors that agree on row `step_idx` and on their settings give the same output |
| `NoisePredictorModel.NewNoisePredictor` | training/networks.py:126-150 | construction fails when `num_steps` is missing or below 1, or when `num_points` is negative; both tables then start all zero with shape `(num_steps-1) x num_points` |
| `NoisePredictorModel.Zeros` | training/networks.py:149-150 | a zero table of the requested shape |
| `NoisePredictorModel.Sigma` | training/networks.py:159-160 | `batch_size` rows, entry `j` is `sigmoid(sigma_params[i][j]) * noise_max` |
| `NoisePredictorModel.Logits` | training/networks.py:162-166 | without positive damping every row is `weight_params[i]`; with it each entry is reduced by `noise_damping * sigma^2` |
| `NoisePredictorModel.Forward` | training/networks.py:155-170 | the noise magnitudes and the row-wise softmax of the logits, both `batch_size x num_points` |
| `NoisePredictorModel.SigmaBounds` | training/networks.py:159-160 | with `noise_max > 0` every noise magnitude lies in `(0, noise_max)` |
| `NoisePredictorModel.UndampedWeightsIgnoreSigma` | training/networks.py:162-168 | without positive damping the weights do not depend on `sigma_params` |
| `NoisePredictorModel.DampingNeverIncreasesLogits` | training/networks.py:165-166 | with positive damping no logit exceeds its raw weight parameter |

## Left out

- The solver implementations, `get_schedule`, the score network, the Inception features behind the perceptual score, and the first-stage decoders are function parameters. The model states only what the loss does with their results. The assumptions are that the schedule has `num_steps` positive points, that a teacher returns one sample per schedule point, and that a student sample keeps its input's shape.
- That the history holds `min(i+1, max_order)` entries after step `i` depends on the student solver, which is not part of this model. The model proves what the loss controls: the reset at step 0 and handing the solver's history from one call to the next.
- Floating point is not modelled. `loss + alpha*inception_loss - loss` cancels exactly over the reals, and float32 saturation of the sigmoid to 0 or 1 does not occur.
- Exact sigmoid and softmax values are not modelled, and neither is the fact that the weights sum to 1. Only their ranges are used.
- The numeric content of the diagnostic string (means of tensors and their formatting) is not modelled. Only which statistic of which point appears, and in which order, is modelled.
- Device placement, `torch.randn` (a parameter here), gradients, `nn.Parameter`, the `persistence` decorators and the LPIPS slot are not modelled.
- The net, labels and conditioning arguments are not modelled. They are passed through to the solvers and are part of the solver parameters.
- Class labels passed to `forward` are not modelled. Both predictors ignore them.
- The predictor passed to the student solver is not a field of the modelled request: it is folded into the `student` function parameter, which stands for the solver with that predictor bound.
- `NoiseEnsemblePredictor.forward` accepts the step index as a plain integer or as a one-element tensor, which it reads back as its integer value. The model takes the integer; the two forms are not distinguished.
- Default arguments are not modelled: every constructor takes all its settings explicitly. The defaults the source supplies when an argument is omitted (training/loss.py:32-34; training/networks.py:16, 28-29, 34, 104, 115-116: for example `num_points = 2`, `alpha = 10`, `noise_max = 0.1`, and `noise_damping = 1.0`, which turns damping on) are not part of the model.
- `DistillationLoss.EpdLoss.GetTeacherTraj`: requires `M >= 0` and `num_steps >= 1`. The source does not check these. With `M = -1` every slice index is 0 and `num_steps_teacher` is 1; with `M <= -2` the slice indices are negative and select samples counted from the end of the trajectory.
- `DistillationLoss.EpdLoss.Call`: requires a step index in `0 .. |t_steps|-2`, with `t_steps` already computed. The source does not check this either; a negative index would wrap and an index too large raises.
- `DistillationLoss.EpdLoss.Call`: on a bare (unwrapped) predictor the source raises AttributeError at training/loss.py:126, after the new buffers have been stored; the model instead returns a report built from the corrected scale flags (see Findings). Its contract states the as-written report only where the as-written reads answer.
- `DistillationLoss.EpdLoss.NoiseEnsembleCall`: has the same step-index requirement as `Call`.
- `NoisePredictorModel.DampingNeverIncreasesLogits`: proves only that damping never increases a logit. It does not prove the strict decrease for a nonzero noise magnitude, which needs nonlinear real arithmetic that the solver does not close.
- `StepLossTerms.SquaredErrorProperties`: proves only that equal samples give zero loss, not the converse, for the same reason.

## Findings

| source | as written | input that shows it | evidently intended | confidence | as-written member | corrected member |
|---|---|---|---|---|---|---|
| training/loss.py:126-136 | the ensemble loss reads `predictor.module.scale_time` and `predictor.module.scale_dir` with no fallback | a bare `EPD_predictor`, not wrapped in a data-parallel container: lines 93-94 read `num_points` and `alpha` from it directly, then line 126 raises AttributeError | the same two-path lookup as lines 92-97, so a bare predictor reports its own scale flags | not executed; the training script may always wrap the predictor | `Diagnostics.ScaleFlagsAsWritten` (with `Diagnostics.ScaleFlagsAsWrittenFailsOnBare`) | `Diagnostics.ScaleFlags` (used by `DistillationLoss.EpdLoss.Call`; `Diagnostics.ScaleFlagsAgreeWhenWrapped`) |
