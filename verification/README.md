# Perceptron learning (PLA) trainers in Dafny

This project models the two perceptron trainers of `quiz1`. Both are a
class `Pla` holding a weight array `w` of five reals: a bias `w[0]` and one
weight per feature of a four-feature sample (`TrainElem`, an `x[4]` of
doubles and an `int` label `y`).

- `quiz1/pocket/pla.cxx` is the pocket trainer (module `Pocket`). Each pass
  does four things. It copies `w` into `backup_w` and counts the training
  errors. It applies an `eta`-scaled update for every misclassified sample,
  in order. It counts the errors again. It restores the copy unless the
  count strictly fell. Passes repeat until a pass updates nothing or
  `updateLimit` passes have run. `train` returns the number of passes.
- `quiz1/pla_rand/pla.cxx` is the basic trainer (module `PlaRand`). It
  repeats full passes with unscaled updates until a pass updates nothing. It
  returns the total number of per-sample updates.

The shared vocabulary is in module `PlaSpec`:
- the sign function with its `1e-15` threshold;
- the activation `w[0] + w[1]*x[0] + ... + w[4]*x[3]`, summed left to right;
- classification, the error count `Errors` and the update `Updated`;
- one training pass `Pass` and the number of updates it makes, `Fixes`.

Doubles are modelled as Dafny `real`. Labels stay `int` and are never
checked to be 1 or -1.

Each class keeps the source's shape. `w` is an `array<real>` that the
methods update in place. `GetWX` and `CountError` are loops that only read
`w`; `IsCorrect` compares the label with what `GetWX` returns. `Train` loops over passes with the counters `nError`
and `nUpdate`. Each method is proved against a specification function:
- `Pocket.PocketRun` is the whole pocket loop;
- `PlaRand.BasicRun` is the basic loop.

The lemmas beside them state what the trainers promise. The source inlines
some pieces that the model gives their own methods, to keep each proof
small:
- `Pocket.Pla` splits out the per-sample update (`Adjust`), the pass over
  the samples (`UpdatePass`) and the checkpointed pass (`CheckpointPass`);
- `PlaRand.Pla` splits out only the per-sample update (`Adjust`); its pass
  stays inline in `Train`.

Their statements are the source's, in the source's order.

## Model

| member | source | states |
|---|---|---|
| `PlaSpec.TrainElem` | quiz1/pocket/pla.cxx:14-24 | A sample is exactly `DIMENSION` = 4 real features and an `int` label; the type admits any label, as the struct does. The same struct is at `quiz1/pla_rand/pla.cxx:12-22`. |
| `PlaSpec.WXExpanded` | quiz1/pocket/pla.cxx:108-110 | The activation `WX` is the bias plus each feature weight times its feature, added in index order from `w[0]`. `quiz1/pla_rand/pla.cxx:80-82` is identical. |
| `PlaSpec.UpdatedAt` | quiz1/pocket/pla.cxx:65-67 | The update `Updated` adds `eta*y` to `w[0]` and `eta*y*x[k-1]` to `w[k]` for every `k` from 1 to 4. With `eta` = 1 it is the update at `quiz1/pla_rand/pla.cxx:58-60`. |
| `PlaSpec.PassKeepsCorrect` | quiz1/pocket/pla.cxx:60-70 | `Pass` (built from `Step`, which skips a correctly classified sample as `continue` does and otherwise applies `Updated`) ends on its starting weights when those classify every sample correctly. The pass at `quiz1/pla_rand/pla.cxx:52-61` is the same with `eta` = 1. |
| `PlaSpec.Sign` | quiz1/pocket/pla.cxx:36 | The result is always 1 or -1. It is 1 exactly when the argument exceeds 10^-15, so 0 and tiny positive values give -1. `quiz1/pla_rand/pla.cxx:33` is identical. |
| `PlaSpec.Classify` | quiz1/pocket/pla.cxx:106-112 | The predicted label of a sample is always 1 or -1. |
| `PlaSpec.Correct` | quiz1/pocket/pla.cxx:101-104 | A sample whose label is neither 1 nor -1 is never classified correctly. |
| `PlaSpec.Errors` | quiz1/pocket/pla.cxx:90-99 | The error count lies between 0 and the number of samples, and is 0 on empty input. |
| `PlaSpec.Fixes` | quiz1/pocket/pla.cxx:60-70 | A pass makes at most one update per sample. |
| `PlaSpec.ErrorsCountsMisclassified` | quiz1/pocket/pla.cxx:90-99 | The error count equals the size of the set of indices whose sample the weights misclassify. |
| `PlaSpec.ErrorsZeroIff` | quiz1/pocket/pla.cxx:90-99 | The error count is 0 if and only if every sample is classified correctly. |
| `PlaSpec.FixesZeroIff` | quiz1/pocket/pla.cxx:55-70 | A pass makes no update if and only if the weights it starts from misclassify nothing (`prevErr == 0`). Such a pass leaves the weights unchanged. |
| `PlaSpec.UpdateShiftsActivation` | quiz1/pocket/pla.cxx:65-67 | The update on a sample changes that sample's own activation by exactly `eta*y` times one plus the squared norm of `x`, which is proved to raise the activation when `eta*y > 0` and lower it when `eta*y < 0`, so with `eta > 0` it moves toward the label's side. This holds for exact arithmetic; rounded doubles need not move. |
| `PlaSpec.ZerosRejectAll` | quiz1/pocket/pla.cxx:106-112 | All-zero weights predict -1 for every sample. They therefore misclassify exactly the samples whose label is not -1. |
| `PlaSpec.UninitialisedWeightMatters` | quiz1/pocket/pla.cxx:45-46 | For a sample whose only nonzero feature is `x[3]`, the first prediction of a new trainer depends on the `w[4]` that the constructor never sets. |
| `Pocket.PassBudget` | quiz1/pocket/pla.cxx:53-79 | The do-while runs its body at least once, so the pass cap is `updateLimit` when that is at least 1, and exactly 1 otherwise. |
| `Pocket.PocketPass` | quiz1/pocket/pla.cxx:56-77 | After a pass, `w` is the pass's result when that has strictly fewer training errors (kept), and otherwise the restored pre-pass copy. It never has more errors. |
| `Pocket.PocketRun` | quiz1/pocket/pla.cxx:51-80 | The loop runs between 1 and `max(1, updateLimit)` passes. Its final weights have at most the errors of its initial weights. |
| `Pocket.PocketRunOnPerfect` | quiz1/pocket/pla.cxx:55-79 | Weights with no training error (including on empty input) end training after one pass that changes nothing, returning 1. |
| `Pocket.PocketRunStopsEarly` | quiz1/pocket/pla.cxx:79 | Training that stops before the cap stops on weights with no training error. |
| `Pocket.StuckAfterRollback` | quiz1/pocket/pla.cxx:72-79 | A pass that makes updates and is then rolled back restores `w` exactly. Every later pass repeats it, so training runs all the way to the cap and returns the weights it started from. |
| `Pocket.Pla.constructor` | quiz1/pocket/pla.cxx:43-47 | A new trainer holds `eta` and the weights `[0, 0, 0, 0, lastWeight]`, where `lastWeight` stands for the unset `w[4]`. |
| `Pocket.Pla.Zeroed` | quiz1/pocket/pla.cxx:43-47 | The corrected constructor: all five weights are zero. |
| `Pocket.Pla.GetWX` | quiz1/pocket/pla.cxx:106-112 | The loop returns the sign of the activation of the current weights on the sample. |
| `Pocket.Pla.IsCorrect` | quiz1/pocket/pla.cxx:101-104 | The method returns true exactly when the prediction equals the label, which needs a label of 1 or -1. |
| `Pocket.Pla.CountError` | quiz1/pocket/pla.cxx:90-99 | The loop returns the error count of the current weights, which lies between 0 and the number of samples. It does not modify `w`. |
| `Pocket.Pla.Adjust` | quiz1/pocket/pla.cxx:65-67 | `eta*y` is added to `w[0]` and `eta*y*x[j]` to `w[j+1]`. Nothing else changes. |
| `Pocket.Pla.UpdatePass` | quiz1/pocket/pla.cxx:60-70 | One pass updates at once on each misclassified sample. Correct samples leave `w` untouched. `nError` is the number of updates the pass made. |
| `Pocket.Pla.CheckpointPass` | quiz1/pocket/pla.cxx:55-77 | Copy, count, pass, recount and roll back when `curErr >= prevErr`. The new `w` is the pocket pass of the old one. |
| `Pocket.Pla.Train` | quiz1/pocket/pla.cxx:49-81 | Returns a pass count between 1 and `max(1, updateLimit)`, and the weights and count follow the pocket loop. The final error count is at most the initial one. Stopping before the cap means zero training errors. |
| `PlaRand.BasicRun` | quiz1/pla_rand/pla.cxx:47-63 | The update total never falls below what was already counted. A run that has not converged has made at least one update per pass. |
| `PlaRand.BasicRunConverged` | quiz1/pla_rand/pla.cxx:49-62 | When training returns, its weights classify every sample correctly, and its last pass left them unchanged. |
| `PlaRand.BasicRunZeroIff` | quiz1/pla_rand/pla.cxx:47-63 | A converged run returns 0 updates if and only if the initial weights misclassify nothing (including on empty input). Such weights return at once, unchanged. |
| `PlaRand.BasicRunFuelIndependent` | quiz1/pla_rand/pla.cxx:49-62 | Once training converges within a pass budget, any larger budget gives the same weights and count. The budget is an artefact of the model, not a change to the result. |
| `PlaRand.BadLabelNeverConverges` | quiz1/pla_rand/pla.cxx:49-62 | A sample labelled neither 1 nor -1 keeps every pass updating, so training never returns. |
| `PlaRand.SeparableExample` | quiz1/pla_rand/pla.cxx:47-63 | On the two samples `([1,0,0,0], 1)` and `([-1,0,0,0], -1)`, training from a new trainer, whatever its unset `w[4]` holds, converges within two passes with one update, on weights `[1, 1, 0, 0, w[4]]`. |
| `PlaRand.Pla.constructor` | quiz1/pla_rand/pla.cxx:39-43 | A new trainer holds `[0, 0, 0, 0, lastWeight]`, where `lastWeight` stands for the unset `w[4]`. |
| `PlaRand.Pla.Zeroed` | quiz1/pla_rand/pla.cxx:39-43 | The corrected constructor: all five weights are zero. |
| `PlaRand.Pla.GetWX` | quiz1/pla_rand/pla.cxx:78-84 | The loop returns the sign of the activation of the current weights on the sample. |
| `PlaRand.Pla.IsCorrect` | quiz1/pla_rand/pla.cxx:73-76 | The method returns true exactly when the prediction equals the label. |
| `PlaRand.Pla.Adjust` | quiz1/pla_rand/pla.cxx:58-60 | `y` is added to `w[0]` and `y*x[j]` to `w[j+1]`, which is the update with rate 1. Nothing else changes. |
| `PlaRand.Pla.Train` | quiz1/pla_rand/pla.cxx:45-64 | The returned `nUpdate` is never negative, and the weights and count follow the basic loop (`BasicRun`). That `nError` counts one pass's updates and `nUpdate` sums them is the inner loop's invariant, not part of the contract. When training returns, every sample is classified correctly. The count is 0 exactly when the initial weights misclassify nothing. |

## Left out

- `main` in both files is left out. It reads samples from standard input and a verification file, parses `eta` from `argv[1]`, runs the 2000-trial driver and prints averages. This is input, output and reporting. The pocket average divides by the size of the verification data, which may be zero (a floating-point NaN or infinity).
- `std::random_shuffle` before each trial is left out. It is global randomness, and every property above holds for any sample order, so the model takes the sample sequence as given.
- The default argument `p_eta = 1.0` of the pocket constructor (quiz1/pocket/pla.cxx:31) is not modelled. `Pocket.Pla.constructor` always takes `eta`, as every call in `main` passes it.
- `dumpModel` is left out. Its output depends on how `ostream` formats a double.
- IEEE-754 rounding is not modelled. Weights, features and `eta` are mathematical reals, and every property holds for exact arithmetic. The training properties (error counts, when a pass is kept, when the loops stop) are stated over whatever weights the updates produce. `PlaSpec.UpdateShiftsActivation` holds only in exact arithmetic: with doubles, adding `eta*y` = -1 to a bias of 1e17 leaves it unchanged, so the activation need not move. NaN and infinite values are not modelled.
- The `int` counters `nUpdate`, `nError` and `ans` are modelled as unbounded integers. Their overflow, which is undefined behaviour in C++, is not modelled.
- PlaRand.BasicRun: the general perceptron convergence theorem is not proved. That theorem says the loop at quiz1/pla_rand/pla.cxx:49-62 ends when some weight vector classifies every sample with an activation beyond the 1e-15 threshold by a margin. The model proves convergence only for a concrete separable input (`PlaRand.SeparableExample`), and non-convergence for any sample whose label is not 1 or -1 (`PlaRand.BadLabelNeverConverges`).
- PlaRand.Pla.Train: does not model the unbounded loop directly. The model proves that every loop ends, so it follows the loop for a bounded number of passes: the method takes a pass budget `fuel` and also returns `converged`. When `converged` is true, the method's results are the source's. `PlaRand.BasicRunFuelIndependent` shows that a larger budget changes nothing. `PlaRand.BadLabelNeverConverges` shows that some inputs never converge under any budget.

## Findings

| source | as written | input that shows it | evidently intended | confidence | as-written member | corrected member |
|---|---|---|---|---|---|---|
| quiz1/pocket/pla.cxx:45-46 | The constructor loop `i < DIMENSION` zeroes `w[0..3]` only, and `w[4]` is read uninitialised by the first `getWX` | any new trainer, and a sample whose only nonzero feature is `x[3]` with label 1: the first prediction is 1 when `w[4]` happens to hold 1 and -1 when it holds 0 | all `DIMENSION+1` weights start at zero | high (not executed) | `Pocket.Pla.constructor`, `PlaSpec.UninitialisedWeightMatters` | `Pocket.Pla.Zeroed`, `PlaSpec.ZerosRejectAll` |
| quiz1/pla_rand/pla.cxx:41-42 | The same loop leaves `w[4]` unset in the basic trainer | the same sample as above | all weights start at zero | high (not executed) | `PlaRand.Pla.constructor`, `PlaSpec.UninitialisedWeightMatters` | `PlaRand.Pla.Zeroed`, `PlaSpec.ZerosRejectAll` |

Both trainers' `Train` methods take any starting weights, so their
properties hold for the corrected constructor and for the constructor as
written whenever the unset `w[4]` holds a finite value, which `lastWeight`
stands for. A NaN or infinite bit pattern there is not modelled.

Facts about the code that a reader might expect otherwise:
- The pocket `train` returns at least 1, even on empty input, because the
  do-while at quiz1/pocket/pla.cxx:53-79 always runs its body once
  (`Pocket.PocketRunOnPerfect`).
- A pass is kept only when the error count strictly falls:
  `curErr >= prevErr` at quiz1/pocket/pla.cxx:73 rolls it back
  (`Pocket.PocketPass`).
- The `@return` comment at quiz1/pocket/pla.cxx:32 says "updates", but the
  count is of passes.
- All-zero weights predict -1 for every sample, so they misclassify exactly
  the samples whose label is not -1 (`PlaSpec.ZerosRejectAll`).
