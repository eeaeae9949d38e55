# Training loop of the Lightning trainer, modelled in Dafny

This project models the control logic of `TrainerTrainLoopMixin` in
`pytorch_lightning/trainer/train_loop_mixin.py`. That logic has four methods:
- `train`, the epoch controller;
- `run_training_epoch`, the batch loop;
- `run_training_batch` with its `optimizer_closure`, the split and optimizer loops;
- `training_forward`, the forward dispatcher.

The trainer is a `class Trainer` (module `TrainLoop`). Its fields are the ones the loop updates in place:
- `current_epoch`, `global_step`, `total_batch_nb`, `batch_nb`, `split_nb` and `total_batches`;
- `batch_loss_value`, `running_loss`, `avg_loss` and `hiddens`;
- `opt_idx_to_accumulate_grad_batches`, `accumulate_grad_batches` and `callback_metrics`.

The object also has `events`, the ordered trace of calls it makes into its collaborators. These are the hooks, forward, backward, gradient clipping, `optimizer_step`, evaluation, logger save, metric logging, the lr scheduler steps, the progress-bar metrics (`add_tqdm_metrics`), the NaN-gradient report (`print_nan_gradients`), the early-stop query, and progress-bar reset and close.

Each method and each loop of the source is a method of `Trainer`. Each is proved to compute exactly one function of module `TrainSpec`: `State() == Spec(old(State()))`. The source's properties are then proved about those functions in `BatchProperties` and `EpochProperties`.

The pure pieces are their own modules:
- `Cadence`: the integer cadence and gating rules;
- `Accumulation`: the per-slot accumulation counter;
- `MetricMerge`: dictionary merging with the efficiency-ratio lookup;
- `LossWindow`: the 100-entry running-loss mean;
- `ForwardDispatch`: the argument list and strategy choice of `training_forward`.

Collaborators are total functions: the model's `training_step` and wrapped forward, `process_output`, `transfer_batch_to_gpu`, `tbptt_split_batch`, `grad_norm`, the data loader, the accumulation scheduler and the early-stop callback. They sit in a value `Env` (module `Types`) that is passed to each method. The closure calls that `optimizer_step` makes are an `Env` input too: `reEvaluations(epoch, batch_nb, split_nb, opt_idx)` says how many extra calls it makes.

The loop's limit test `batch_nb >= nb_training_batches` is kept as written. An epoch can therefore process `nb_training_batches + 1` batches. `EpochProperties.OneBatchPastTheLimit` shows this is reached, and `EpochProperties.BatchLimit` shows it is never exceeded.

## Model

| member | source | states |
|---|---|---|
| TrainLoop.Trainer.TrainingForward | pytorch_lightning/trainer/train_loop_mixin.py:425-469 | the call made (strategy and positional arguments) and the output are those of `ForwardCallOf` / `ForwardOutput` |
| ForwardDispatch.ForwardArgsRoundTrip | pytorch_lightning/trainer/train_loop_mixin.py:436-442 | the argument list decodes back to the batch and its index, with `opt_idx` exactly when there is more than one optimizer and `hiddens` exactly when truncated backprop is set |
| ForwardDispatch.ForwardCallShape | pytorch_lightning/trainer/train_loop_mixin.py:444-459 | dp/ddp/ddp2 take the wrapped model; otherwise single-gpu uses `data_parallel_device_ids[0]` for a list, else device 0, and passes the moved batch; otherwise the host; whatever the strategy, the forward entry point (the wrapped model or `training_step`) receives exactly the batch (moved to the device under single-gpu), `batch_nb`, `opt_idx` with several optimizers and `hiddens` under truncated backprop |
| ForwardDispatch.ForwardArgs | pytorch_lightning/trainer/train_loop_mixin.py:436-442 | definition of the positional argument list; characterised by `ForwardArgsRoundTrip` |
| ForwardDispatch.SelectStrategy | pytorch_lightning/trainer/train_loop_mixin.py:444-459 | definition of the strategy choice (wrapped model, one device, host); characterised by `ForwardCallShape` |
| ForwardDispatch.GpuId | pytorch_lightning/trainer/train_loop_mixin.py:450-452 | definition of the device id: `data_parallel_device_ids[0]` for a list, else 0; characterised by `ForwardCallShape` |
| ForwardDispatch.ForwardCallOf | pytorch_lightning/trainer/train_loop_mixin.py:436-459 | definition of the call `training_forward` makes; characterised by `ForwardCallShape` |
| ForwardDispatch.ForwardOutput | pytorch_lightning/trainer/train_loop_mixin.py:446-469 | definition of the output: the entry point of the strategy, then `training_end` when overridden, then `process_output`; `TrainLoop.Trainer.TrainingForward` is proved to return it |
| TrainLoop.Trainer.OptimizerClosure | pytorch_lightning/trainer/train_loop_mixin.py:332-370 | the new trainer state, metric lists and returned loss equal `Closure` of the old state |
| TrainSpec.Closure | pytorch_lightning/trainer/train_loop_mixin.py:332-370 | a closure call leaves epoch, step counters, `total_batches`, `accumulate_grad_batches`, `callback_metrics` and the number of counters unchanged; the trace only grows |
| MetricMerge.EfficiencyRatio | pytorch_lightning/trainer/train_loop_mixin.py:344 | definition of `callback_metrics.get('batch_loss_efficiency_ratio', 1.0)`; characterised by `ClosureCounter` and `PassStepTaken` |
| TrainSpec.ScaledLoss | pytorch_lightning/trainer/train_loop_mixin.py:347-352 | definition of the closure loss weighted by `ratio / accumulate_grad_batches`; characterised by `ClosureCounter` |
| BatchProperties.ClosureCounter | pytorch_lightning/trainer/train_loop_mixin.py:337-363 | a closure call adds its ratio to its own optimizer's counter only, hands backward the loss scaled by `ratio / accumulate_grad_batches`, stores the returned hiddens and appends one log and one callback dictionary; its calls are exactly forward with `ForwardCallOf`, `backward(opt_idx, scaled loss)`, the progress metrics and (when defined) `on_after_backward` |
| TrainLoop.Trainer.OptimizerPass | pytorch_lightning/trainer/train_loop_mixin.py:372-406 | one optimizer iteration computes `Pass`: closure call, NaN report, loss added to `batch_loss_value`, step when the counter is due |
| TrainLoop.Trainer.OptimizerStepTaken | pytorch_lightning/trainer/train_loop_mixin.py:383-406 | the step branch computes `StepTaken`: counter reset, grad norms on logging batches, clip, `optimizer_step` with its extra closure calls, running-loss update |
| TrainLoop.Trainer.ReEvaluateClosure | pytorch_lightning/trainer/train_loop_mixin.py:400-401 | the closure calls inside `optimizer_step` compute `ReEvaluate` |
| TrainSpec.ReEvaluate | pytorch_lightning/trainer/train_loop_mixin.py:400-401 | extra closure calls leave `batch_loss_value`, `running_loss`, `avg_loss` and the grad norms unchanged, and everything else `Untouched` keeps |
| BatchProperties.ReEvaluateCalls | pytorch_lightning/trainer/train_loop_mixin.py:400-401 | each extra closure call appends one log and one callback dictionary to the lists, which keep their old entries as a prefix, and leaves every other optimizer's counter unchanged |
| BatchProperties.ReEvaluatePlainCounter | pytorch_lightning/trainer/train_loop_mixin.py:400-401 | with one optimizer, no truncated backprop and no efficiency-ratio entry, `n` extra closure calls add exactly `n` to the optimizer's counter |
| BatchProperties.StepTakenCalls | pytorch_lightning/trainer/train_loop_mixin.py:383-401 | after a step with `n` extra closure calls the lists have grown by `n` dictionaries each, the other counters are unchanged, and in the plain setting the step's own counter is `n`, not 0.0 |
| TrainLoop.Trainer.RecordLoss | pytorch_lightning/trainer/train_loop_mixin.py:404-406 | the running-loss bookkeeping computes `RecordRunningLoss` |
| TrainSpec.RecordRunningLoss | pytorch_lightning/trainer/train_loop_mixin.py:404-406 | `running_loss` gains the accumulated loss, `batch_loss_value` becomes 0 and `avg_loss` is the mean of the last (at most 100) entries |
| LossWindow.Window | pytorch_lightning/trainer/train_loop_mixin.py:406 | the window is the suffix of `min(len, 100)` entries |
| LossWindow.Mean | pytorch_lightning/trainer/train_loop_mixin.py:406 | definition of `np.mean` as exact division; characterised by `MeanBounds` and `StepTakenLoss` |
| LossWindow.MeanBounds | pytorch_lightning/trainer/train_loop_mixin.py:406 | the displayed average lies between the least and the greatest entry of the window |
| LossWindow.WindowAfterAppend | pytorch_lightning/trainer/train_loop_mixin.py:404-406 | after an append the window is non-empty, has at most 100 entries and ends with the new loss |
| TrainSpec.StepTaken | pytorch_lightning/trainer/train_loop_mixin.py:383-406 | an optimizer step keeps everything `Untouched` keeps |
| TrainSpec.Pass | pytorch_lightning/trainer/train_loop_mixin.py:372-406 | an optimizer iteration keeps everything `Untouched` keeps |
| BatchProperties.StepTakenLoss | pytorch_lightning/trainer/train_loop_mixin.py:403-406 | whatever calls `optimizer_step` makes, the step appends `batch_loss_value` to `running_loss`, zeroes it and sets `avg_loss` to the windowed mean |
| BatchProperties.StepTakenAlone | pytorch_lightning/trainer/train_loop_mixin.py:383-401 | without extra closure calls the step resets exactly its own counter to 0.0 and records clip then `optimizer_step(epoch, batch_nb, opt_idx)` |
| BatchProperties.PassLoss | pytorch_lightning/trainer/train_loop_mixin.py:380-406 | when counter plus ratio reaches `accumulate_grad_batches`, the loss including this call's is appended, zeroed and averaged; otherwise it is only added to `batch_loss_value` and `running_loss`/`avg_loss` stay |
| BatchProperties.PassStepLoss | pytorch_lightning/trainer/train_loop_mixin.py:380-406 | the due branch of `PassLoss` |
| BatchProperties.PassCounter | pytorch_lightning/trainer/train_loop_mixin.py:345-385 | the counter after a pass is the reference `CounterAfterPass` (reset to 0.0 when `>=`, else incremented); other optimizers' counters are unchanged |
| BatchProperties.PassStepTaken | pytorch_lightning/trainer/train_loop_mixin.py:383-401 | a pass calls `optimizer_step(epoch, batch_nb, opt_idx)` among its calls if and only if counter plus ratio `>= accumulate_grad_batches`, however many extra closure calls `optimizer_step` makes |
| TrainSpec.StepDue | pytorch_lightning/trainer/train_loop_mixin.py:383 | definition of the threshold test `counter >= accumulate_grad_batches` after this call's ratio is added; characterised by `PassStepTaken` and `PassCounter` |
| TrainSpec.AccountLoss | pytorch_lightning/trainer/train_loop_mixin.py:376-380 | definition of the NaN report and of adding the closure loss to `batch_loss_value`; characterised by `PassLoss` and `ClosureTail` |
| BatchProperties.ClosureTail | pytorch_lightning/trainer/train_loop_mixin.py:332-380 | the calls of a closure call and the NaN check are none of them an optimizer step or an early-stop, close or finalize call |
| BatchProperties.ReEvaluateEvents | pytorch_lightning/trainer/train_loop_mixin.py:400-401 | the extra closure calls inside `optimizer_step` make closure calls only: forward, backward, progress metrics, `on_after_backward` |
| BatchProperties.StepTakenEvents | pytorch_lightning/trainer/train_loop_mixin.py:383-401 | an optimizer step records clip, then `optimizer_step(epoch, batch_nb, opt_idx)`, then only closure calls |
| BatchProperties.PassEvents | pytorch_lightning/trainer/train_loop_mixin.py:372-406 | an optimizer iteration makes no early-stop query, progress close or logger finalize |
| BatchProperties.PassStepEvents | pytorch_lightning/trainer/train_loop_mixin.py:383-406 | after the closure call and NaN check a pass adds nothing or a step with its closure calls, none of them an early-stop, close or finalize call |
| BatchProperties.PassHiddens | pytorch_lightning/trainer/train_loop_mixin.py:334-341 | a pass makes its first call forward with the current hiddens and, without extra closure calls, leaves the hiddens that call returned for the next forward call |
| Accumulation.EveryKthCall | pytorch_lightning/trainer/train_loop_mixin.py:345-385 | with ratio 1.0 and `accumulate_grad_batches = K` the counter after `n` calls is `n % K`, so a slot steps exactly on calls K, 2K, … |
| TrainLoop.Trainer.RunSplit | pytorch_lightning/trainer/train_loop_mixin.py:325-329 | one split iteration sets `split_nb` and the optimizer loop computes `OptimizersFrom` |
| TrainSpec.OptimizersFrom | pytorch_lightning/trainer/train_loop_mixin.py:329-406 | the optimizer loop keeps everything `Untouched` keeps |
| BatchProperties.OptimizersFromEvents | pytorch_lightning/trainer/train_loop_mixin.py:329-406 | the optimizer loop of a split makes no early-stop query, progress close or logger finalize |
| TrainLoop.Trainer.RunSplitLoop | pytorch_lightning/trainer/train_loop_mixin.py:325-406 | the split loop computes `SplitsFrom` |
| TrainSpec.SplitsFrom | pytorch_lightning/trainer/train_loop_mixin.py:325-406 | the split loop keeps everything `Untouched` keeps |
| BatchProperties.SplitsFromEvents | pytorch_lightning/trainer/train_loop_mixin.py:325-406 | the split loop of a batch makes no early-stop query, progress close or logger finalize |
| TrainSpec.Splits | pytorch_lightning/trainer/train_loop_mixin.py:319-322 | definition of the splits: the batch alone, or `tbptt_split_batch(batch, truncated_bptt_steps)`; characterised by `BatchClosureCalls` |
| TrainLoop.Trainer.RunSplits | pytorch_lightning/trainer/train_loop_mixin.py:319-406 | splitting (tbptt or the single batch), the hiddens reset and the split loop compute `BatchWork` |
| TrainSpec.BatchWork | pytorch_lightning/trainer/train_loop_mixin.py:319-406 | the batch's loops keep everything `Untouched` keeps |
| BatchProperties.BatchWorkEvents | pytorch_lightning/trainer/train_loop_mixin.py:319-406 | the work of a batch makes no early-stop query, progress close or logger finalize |
| BatchProperties.BatchRunShape | pytorch_lightning/trainer/train_loop_mixin.py:311-411 | a batch that reaches the split loop has the trace and counters of the split loop, after the start hook and before the end hook |
| BatchProperties.BatchAccumulates | pytorch_lightning/trainer/train_loop_mixin.py:345-385 | with one optimizer, no tbptt and no efficiency ratio, if the counter holds the reference value after `n` calls it holds the one after `n + 1`, and the batch calls `optimizer_step` iff `(n + 1) % accumulate_grad_batches == 0` |
| BatchProperties.OptimizersFromCalls | pytorch_lightning/trainer/train_loop_mixin.py:329-373 | without extra closure calls the optimizer loop gathers one log and one callback dictionary per remaining optimizer |
| BatchProperties.SplitsFromCalls | pytorch_lightning/trainer/train_loop_mixin.py:325-373 | without extra closure calls the split loop gathers one dictionary per (remaining split, optimizer) pair |
| BatchProperties.BatchClosureCalls | pytorch_lightning/trainer/train_loop_mixin.py:319-373 | a batch that runs gathers `len(splits) * nb_optimizers` dictionaries |
| BatchProperties.BatchResetsHiddens | pytorch_lightning/trainer/train_loop_mixin.py:324-335 | the first forward call of every batch gets `hiddens = None` |
| TrainLoop.Trainer.RunTrainingBatch | pytorch_lightning/trainer/train_loop_mixin.py:298-423 | `run_training_batch` computes `BatchRun`: new state and `(batch_result, grad_norm_dic, log metrics)` |
| TrainSpec.BatchRun | pytorch_lightning/trainer/train_loop_mixin.py:298-423 | a batch never changes `global_step`, `total_batch_nb`, epoch, `total_batches` or `accumulate_grad_batches`; the trace only grows |
| TrainSpec.SignalsStop | pytorch_lightning/trainer/train_loop_mixin.py:312-317 | definition of the refusal: `on_batch_start` is defined and answers -1 for the batch; characterised by `BatchResultCode` |
| BatchProperties.BatchRunEvents | pytorch_lightning/trainer/train_loop_mixin.py:298-423 | `run_training_batch` makes no early-stop query, progress close or logger finalize |
| BatchProperties.BatchRunTail | pytorch_lightning/trainer/train_loop_mixin.py:311-411 | the trace of a batch that reaches the split loop grows by work calls only |
| BatchProperties.BatchResultCode | pytorch_lightning/trainer/train_loop_mixin.py:308-317 | the batch result is -1 exactly when `on_batch_start` answers -1, and 0 otherwise (a missing batch included) |
| BatchProperties.EarlyReturns | pytorch_lightning/trainer/train_loop_mixin.py:308-317 | a `None` batch returns `(0, {}, {})` and changes nothing; a refused batch returns `(-1, {}, {})` and only records the hook call; neither touches counters, losses, hiddens or callback metrics, and neither calls forward |
| MetricMerge.MergeAllKeys | pytorch_lightning/trainer/train_loop_mixin.py:418-421 | the merged keys are exactly the keys of some dictionary |
| MetricMerge.MergeAllLatest | pytorch_lightning/trainer/train_loop_mixin.py:418-421 | a merged key has the value of the last dictionary holding it |
| MetricMerge.MergeTwo | pytorch_lightning/trainer/train_loop_mixin.py:418-421 | two dictionaries merge to their union, the second winning on shared keys |
| MetricMerge.MergeAll | pytorch_lightning/trainer/train_loop_mixin.py:418-421 | definition of the dictionary merge, later dictionaries winning; characterised by `MergeAllKeys`, `MergeAllLatest` and `MergeTwo` |
| BatchProperties.BatchMetrics | pytorch_lightning/trainer/train_loop_mixin.py:417-423 | the normal return is `(0, grad_norm_dic, merged logs)`; `callback_metrics` gains the merged keys with the batch's values and keeps its other keys and values |
| TrainLoop.Trainer.AfterBatch | pytorch_lightning/trainer/train_loop_mixin.py:253-280 | the checks after a batch append `AfterBatchEvents` and add one to `global_step` and `total_batch_nb` |
| EpochProperties.AfterBatchGating | pytorch_lightning/trainer/train_loop_mixin.py:253-277 | evaluation runs iff `fast_dev_run` or ((`(batch_nb+1) % val_check_batch == 0` or result -1) and a validation epoch); the logger saves iff (`(batch_nb+1) % log_save_interval == 0` or result -1 or `fast_dev_run`) and rank 0 with a logger; metrics are logged iff `batch_nb % row_log_interval == 0` or result -1 or `fast_dev_run` |
| TrainSpec.AfterBatchEvents | pytorch_lightning/trainer/train_loop_mixin.py:253-277 | definition of the calls after a batch, in the source's order; characterised by `AfterBatchGating` |
| Cadence.ShouldCheckVal | pytorch_lightning/trainer/train_loop_mixin.py:259-261 | definition of `should_check_val`; characterised by `AfterBatchGating` and `ValidationEveryEpoch` |
| Cadence.RunsValidation | pytorch_lightning/trainer/train_loop_mixin.py:263-264 | definition of the evaluation gate (`fast_dev_run` or `should_check_val`); characterised by `AfterBatchGating` |
| Cadence.SavesLog | pytorch_lightning/trainer/train_loop_mixin.py:267-270 | definition of the logger-save gate; characterised by `AfterBatchGating` |
| Cadence.LogsMetrics | pytorch_lightning/trainer/train_loop_mixin.py:273-274 | definition of the metric-logging gate; characterised by `AfterBatchGating` |
| Cadence.EndsEpoch | pytorch_lightning/trainer/train_loop_mixin.py:283-291 | definition of the loop's breaks (sentinel, fast dev run, `batch_nb >= nb_training_batches`); characterised by `SentinelEndsEpoch`, `FastDevRunOneBatch` and `BatchLimit` |
| TrainLoop.Trainer.TrainOneBatch | pytorch_lightning/trainer/train_loop_mixin.py:242-280 | one iteration of the batch loop computes `BatchStep` |
| TrainSpec.BatchStep | pytorch_lightning/trainer/train_loop_mixin.py:242-280 | an iteration keeps the counter count, epoch, `total_batches` and `accumulate_grad_batches`; the trace only grows |
| EpochProperties.BatchStepEvents | pytorch_lightning/trainer/train_loop_mixin.py:242-280 | one iteration of the batch loop makes no early-stop query, progress close or logger finalize |
| EpochProperties.BatchStepAccumulates | pytorch_lightning/trainer/train_loop_mixin.py:242-291 | in the plain setting a batch that reaches the closure moves the counter one reference call on and calls `optimizer_step` iff that call is a multiple of `accumulate_grad_batches`; any other batch leaves it |
| EpochProperties.BatchStepCounters | pytorch_lightning/trainer/train_loop_mixin.py:250-280 | every processed batch, the -1 sentinel batch included, adds exactly one to `global_step` and to `total_batch_nb` |
| EpochProperties.BatchesRunFrom | pytorch_lightning/trainer/train_loop_mixin.py:241-291 | the reference count of processed batches is at most the number of remaining batches |
| TrainLoop.Trainer.RunBatches | pytorch_lightning/trainer/train_loop_mixin.py:241-291 | the batch loop with its three breaks computes `EpochFrom` |
| TrainSpec.EpochFrom | pytorch_lightning/trainer/train_loop_mixin.py:241-291 | the batch loop keeps the counter count, epoch, `total_batches` and `accumulate_grad_batches`; the trace only grows |
| EpochProperties.EpochFromEvents | pytorch_lightning/trainer/train_loop_mixin.py:241-291 | the batch loop makes no early-stop query, progress close or logger finalize |
| EpochProperties.ClosureBatchesFrom | pytorch_lightning/trainer/train_loop_mixin.py:241-317 | the reference count of batches that reach the closure is at most the number of batches processed |
| EpochProperties.EpochAccumulates | pytorch_lightning/trainer/train_loop_mixin.py:241-385 | in the plain setting the counter after the batch loop is the reference counter advanced once per batch that reaches the closure, so by `EveryKthCall` every K-th such batch steps |
| EpochProperties.EpochCounters | pytorch_lightning/trainer/train_loop_mixin.py:241-291 | the batch loop raises both step counters by exactly the number of batches it processes |
| EpochProperties.BatchLimit | pytorch_lightning/trainer/train_loop_mixin.py:288-291 | an epoch processes at most `nb_training_batches + 1` batches |
| EpochProperties.BatchLimitFrom | pytorch_lightning/trainer/train_loop_mixin.py:288-291 | from batch `i` within the limit, at most `nb_training_batches + 1 - i` batches run |
| EpochProperties.OneBatchPastTheLimit | pytorch_lightning/trainer/train_loop_mixin.py:288-291 | without sentinel or fast dev run, a loader with more than `nb_training_batches` batches runs exactly `nb_training_batches + 1` of them |
| EpochProperties.FullEpochFrom | pytorch_lightning/trainer/train_loop_mixin.py:285-291 | without sentinel or fast dev run, the loop from `i` runs to index `nb_training_batches` |
| EpochProperties.FastDevRunOneBatch | pytorch_lightning/trainer/train_loop_mixin.py:285-286 | a fast dev run processes exactly one batch |
| EpochProperties.SentinelEndsEpoch | pytorch_lightning/trainer/train_loop_mixin.py:253-286 | the loop stops right after a batch whose result is -1 |
| TrainLoop.Trainer.RunTrainingEpoch | pytorch_lightning/trainer/train_loop_mixin.py:234-296 | `run_training_epoch` computes `EpochRun`: epoch hooks around the batch loop over this epoch's batches |
| TrainSpec.EpochRun | pytorch_lightning/trainer/train_loop_mixin.py:234-296 | an epoch keeps the counter count, epoch and `accumulate_grad_batches`; the trace only grows |
| EpochProperties.EpochRunEvents | pytorch_lightning/trainer/train_loop_mixin.py:234-296 | `run_training_epoch` makes no early-stop query, progress close or logger finalize |
| EpochProperties.EpochRunCounters | pytorch_lightning/trainer/train_loop_mixin.py:234-296 | an epoch raises `global_step` and `total_batch_nb` by the number of batches its loop processes |
| TrainLoop.Trainer.BeginTrainingEpoch | pytorch_lightning/trainer/train_loop_mixin.py:177-206 | the epoch preamble computes `BeginEpoch` |
| TrainSpec.BeginEpoch | pytorch_lightning/trainer/train_loop_mixin.py:177-206 | definition of the preamble (epoch, `total_batches`, loss reset, progress reset, accumulation schedule); characterised by `BeginEpochCadence` |
| Cadence.IsValEpoch | pytorch_lightning/trainer/train_loop_mixin.py:180 | definition of `is_val_epoch`; characterised by `ValidationsAmongCount` and `ValChecksMatchGate` |
| Cadence.ValChecksPerEpoch | pytorch_lightning/trainer/train_loop_mixin.py:181-182 | definition of `val_checks_per_epoch`; characterised by `ValChecksMatchGate` |
| Cadence.TotalBatches | pytorch_lightning/trainer/train_loop_mixin.py:185-186 | definition of `total_batches`; characterised by `ValChecksMatchGate` and `BeginEpochCadence` |
| Cadence.NbIterations | pytorch_lightning/trainer/train_loop_mixin.py:189-196 | definition of the progress-bar length; characterised by `BeginEpochCadence` |
| EpochProperties.BeginEpochCadence | pytorch_lightning/trainer/train_loop_mixin.py:177-201 | the preamble sets the epoch and clears the loss; outside a fast dev run `total_batches` is `nb_training_batches` plus `nb_val_batches` times the number of training batches after which the runner's gate validates; the progress bar, unless disabled, is reset to 2, to no length for an iterable loader, or to `total_batches` |
| Cadence.ValidationsAmongCount | pytorch_lightning/trainer/train_loop_mixin.py:259-264 | outside a fast dev run the validation gate passes after exactly `n // val_check_batch` of the first `n` batches of a validation epoch, and after none otherwise |
| Cadence.ValChecksMatchGate | pytorch_lightning/trainer/train_loop_mixin.py:180-186 | `val_checks_per_epoch` and `total_batches` agree with the validations the runner's gate performs over `nb_training_batches` batches |
| Cadence.ValidationEveryEpoch | pytorch_lightning/trainer/train_loop_mixin.py:259-264 | with validation every epoch, a batch validates iff `(batch_nb+1) % val_check_batch == 0` or it is the sentinel, periodically in `val_check_batch` |
| TrainLoop.Trainer.StepLrSchedulers | pytorch_lightning/trainer/train_loop_mixin.py:213-216 | every lr scheduler is stepped once, in order, with the current epoch |
| TrainSpec.LrStepEvents | pytorch_lightning/trainer/train_loop_mixin.py:213-216 | the steps are one per scheduler, the k-th for scheduler k at the epoch |
| Cadence.StopNeedsMinEpochs | pytorch_lightning/trainer/train_loop_mixin.py:219-224 | a consulted and honoured stop happens iff early stop is enabled, the callback says stop and `epoch_nb > min_nb_epochs`; a fast dev run always consults the callback |
| Cadence.ConsultsEarlyStop | pytorch_lightning/trainer/train_loop_mixin.py:219-220 | definition of the gate for asking the callback; characterised by `StopNeedsMinEpochs` and `EpochTurnEvents` |
| Cadence.HonoursStop | pytorch_lightning/trainer/train_loop_mixin.py:219-227 | definition of `should_stop and met_min_epochs`; characterised by `StopNeedsMinEpochs` |
| TrainLoop.Trainer.TrainEpoch | pytorch_lightning/trainer/train_loop_mixin.py:167-227 | one iteration of the epoch loop computes `EpochTurn`, with the early-return flag |
| TrainSpec.EpochTurn | pytorch_lightning/trainer/train_loop_mixin.py:167-227 | an epoch iteration keeps the number of counters; the trace only grows |
| EpochProperties.EpochTurnWork | pytorch_lightning/trainer/train_loop_mixin.py:177-216 | the calls of an epoch before the early-stop decision contain no early-stop query and no finalize |
| EpochProperties.EpochTurnEvents | pytorch_lightning/trainer/train_loop_mixin.py:177-227 | an epoch iteration asks the early-stop callback iff early stop is enabled and the epoch is past `min_nb_epochs` or a fast dev run, and never finalizes the logger |
| EpochProperties.EpochTurnCounters | pytorch_lightning/trainer/train_loop_mixin.py:211 | an epoch iteration never lowers `global_step` or `total_batch_nb` |
| EpochProperties.EpochTurnStop | pytorch_lightning/trainer/train_loop_mixin.py:219-227 | an epoch iteration returns early if and only if early stop is enabled, `epoch_nb > min_nb_epochs` and the callback, asked for that epoch, answered stop among its calls; the return comes right after that answer |
| EpochProperties.EpochTurnCloses | pytorch_lightning/trainer/train_loop_mixin.py:225-227 | an early-returning iteration ends with closing the progress bar |
| TrainLoop.Trainer.RunEpochs | pytorch_lightning/trainer/train_loop_mixin.py:167-227 | the epoch loop from `current_epoch` to `max_nb_epochs` computes `EpochsFrom`, with how it was left |
| TrainSpec.EpochsFrom | pytorch_lightning/trainer/train_loop_mixin.py:167-227 | the epoch loop keeps the number of counters; the trace only grows |
| EpochProperties.EpochsFromEvents | pytorch_lightning/trainer/train_loop_mixin.py:167-227 | the epoch loop never finalizes the logger |
| EpochProperties.EpochsCounters | pytorch_lightning/trainer/train_loop_mixin.py:167-227 | `global_step` and `total_batch_nb` never decrease over the epoch loop |
| EpochProperties.StoppingTurn | pytorch_lightning/trainer/train_loop_mixin.py:167-227 | an early return of the epoch loop comes from one in-range epoch iteration that returned early |
| EpochProperties.EarlyStopRespectsMinEpochs | pytorch_lightning/trainer/train_loop_mixin.py:219-227 | training returns early only with early stop enabled, in an epoch past `min_nb_epochs` and within `[current_epoch, max_nb_epochs)`, and right after the callback, asked for that epoch, answered stop |
| EpochProperties.EarlyStopCloses | pytorch_lightning/trainer/train_loop_mixin.py:225-227 | after an early return the last call made closed the progress bar |
| TrainLoop.Trainer.Train | pytorch_lightning/trainer/train_loop_mixin.py:165-232 | `train` computes `Training`: the epoch loop, then progress close and `logger.finalize("success")` unless it returned early |
| TrainSpec.Training | pytorch_lightning/trainer/train_loop_mixin.py:165-232 | training keeps the number of counters; the trace only grows |
| EpochProperties.CompletesWithoutEarlyStop | pytorch_lightning/trainer/train_loop_mixin.py:219-232 | without early stop, or when no epoch passes `min_nb_epochs`, training completes |
| EpochProperties.FinalizeOnlyOnCompletion | pytorch_lightning/trainer/train_loop_mixin.py:225-232 | `logger.finalize("success")` is called at all during training iff training completed and a logger exists, and is then the last call; on completion training ends with progress close and (with a logger) finalize |
| TrainSpec.CompletionEvents | pytorch_lightning/trainer/train_loop_mixin.py:229-232 | definition of the calls after a completed epoch loop: progress close, then `logger.finalize("success")` with a logger; characterised by `FinalizeOnlyOnCompletion` |
| EpochProperties.TrainingCounters | pytorch_lightning/trainer/train_loop_mixin.py:165-232 | `train` never lowers `global_step` or `total_batch_nb` |

## Left out

- Progress-bar rendering (lines 198-203, 414-415): only `reset(nb_iterations)` and `close()` are recorded. `set_description`, `update` and `set_postfix` are display only.
- The copies into the model, `model.current_epoch` and `model.global_step` (lines 172-177, 244-245), and the `get_model()` calls: they have no effect on the loop's own decisions.
- The distributed sampler's `set_epoch` (lines 169-170): data loading.
- apex/amp (lines 155-160): `backward` is recorded with its optimizer index and loss, without the `use_amp` flag or the optimizer object.
- Tensor math: `backward`, `clip_gradients`, `print_nan_gradients`, `grad_norm` and `loss.item()` are trace events or `Env` functions. The bodies of `run_evaluation`, `log_metrics`, `add_tqdm_metrics`, `logger.save` and `logger.finalize` are not part of this model; only the calls are recorded.
- Collaborators are deterministic functions of what they are given. These are the forward entry points, `process_output`, `training_end`, `on_batch_start`, `tbptt_split_batch`, the early-stop callback and the data loader. A model whose outputs depend on hidden mutable state is not captured.
- The data loader yields a finite sequence of optional batches per epoch. An endless iterable loader is not modelled, except for its effect on `nb_iterations`.
- Losses, ratios and metrics are `real` numbers, not IEEE floats. `np.mean` is exact division, and NaN or infinite losses are not represented.
- `lr_schedulers is None` is modelled as zero schedulers, which has the same effect.
- `data_parallel_device_ids` may be a list or any other value. A list must be non-empty under the single-gpu strategy (`Config.Wf`), since the source would fail on `[0]` of an empty list.
- AfterBatch: appends the validation, save and logging entries as one block after computing all three gates. The source calls them one after the other; the order and content of the trace are the same.
- The loops of the source are split over several methods (`RunEpochs`/`TrainEpoch`, `RunBatches`/`TrainOneBatch`, `RunSplitLoop`/`RunSplit`, `OptimizerPass`/`OptimizerStepTaken`/`ReEvaluateClosure`). Each method is one loop or one loop body of the source, in the source's order.
- `optimizer_step` internals (lines 399-401): only the number of closure calls it makes is an input, `Env.reEvaluations`. Their losses go to the optimizer and are not added to `batch_loss_value`, as in the source.
- PassCounter: stated only for a step without extra closure calls from `optimizer_step`, because each extra call adds its own ratio after the reset (`StepTakenCalls` and `ReEvaluatePlainCounter` show this: in the plain setting the counter ends at the number of extra calls).
- StepTakenAlone: stated only without extra closure calls; StepTakenLoss covers the loss bookkeeping for any number of them.
- PassHiddens: the hidden state left behind is stated only without extra closure calls; with them it is the hiddens of the last extra call.
- OptimizersFromCalls: the dictionary count is stated only when `optimizer_step` makes no extra closure calls; each extra call adds one more dictionary, as `ReEvaluateCalls` and `StepTakenCalls` show.
- SplitsFromCalls: likewise stated only without extra closure calls.
- BatchClosureCalls: likewise stated only without extra closure calls.
- BatchAccumulates: stated only in the plain setting (one optimizer, no truncated backprop, no `batch_loss_efficiency_ratio` entry, no extra closure calls), where every call adds 1.0; with ratios or extra calls the counter is a sum of reals that `EveryKthCall` does not describe.
- BatchStepAccumulates: stated only in the same plain setting.
- EpochAccumulates: stated only in the same plain setting, for the batch loop of one epoch; the accumulation schedule may change `accumulate_grad_batches` between epochs.
- BeginEpochCadence: the link between `total_batches` and the validation gate is stated outside a fast dev run, where the gate validates after every batch.
- Positive settings: `check_val_every_n_epoch`, `val_check_batch`, `row_log_interval`, `log_save_interval`, `accumulate_grad_batches` and the results of the accumulation schedule are positive integers (`Pos`). The source divides by each of them (lines 180-181, 259-260, 268, 274, 348, 388), so zero there raises `ZeroDivisionError` and a negative value gets Python's floor `//` and `%`. Neither the exception nor the negative case is modelled.
