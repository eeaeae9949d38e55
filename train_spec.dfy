/**
 * The training loop as functions of the trainer state: one function per method
 * of the source (and per loop of it), each returning the new state. The methods
 * in TrainLoop are proved to compute exactly these functions.
 */
module TrainSpec {
  import opened Wrappers
  import opened Types
  import opened Cadence
  import opened MetricMerge
  import opened LossWindow
  import opened ForwardDispatch

  /** The trainer state and the locals `all_log_metrics`, `all_callback_metrics` after a closure call, with its loss. */
  datatype ClosureOut = ClosureOut(s: TrainerState, logs: seq<MetricMap>, callbacks: seq<MetricMap>, loss: real)

  /** The state of `run_training_batch` inside its loops: trainer fields and the three locals. */
  datatype Work = Work(s: TrainerState, logs: seq<MetricMap>, callbacks: seq<MetricMap>, gradNorms: MetricMap)

  /** What a batch leaves alone: counters, epoch, accumulation setting and callback metrics; the trace only grows. */
  predicate Untouched(a: TrainerState, b: TrainerState) {
    && a.currentEpoch == b.currentEpoch
    && a.globalStep == b.globalStep
    && a.totalBatchNb == b.totalBatchNb
    && a.totalBatches == b.totalBatches
    && a.accumulateGradBatches == b.accumulateGradBatches
    && a.callbackMetrics == b.callbackMetrics
    && |a.accumulateCounters| == |b.accumulateCounters|
    && a.events <= b.events
  }

  /** The loss of a closure call: scaled by `ratio / accumulate_grad_batches`. */
  function ScaledLoss(loss: real, ratio: real, k: Pos): real {
    loss * (ratio / k as real)
  }

  /** `optimizer_closure()`: forward, counter, loss scaling, backward, metric tracking, hook. */
  function Closure(cfg: Config, env: Env, s: TrainerState, logs: seq<MetricMap>, callbacks: seq<MetricMap>,
                   split: Batch, batchNb: nat, optIdx: nat): (r: ClosureOut)
    requires cfg.Wf() && optIdx < |s.accumulateCounters|
    ensures Untouched(s, r.s)
  {
    var call := ForwardCallOf(cfg, env, split, batchNb, optIdx, s.hiddens);
    var out := ForwardOutput(env, call);
    var ratio := EfficiencyRatio(out.callbackMetrics);
    var loss := ScaledLoss(out.loss, ratio, s.accumulateGradBatches);
    var hook := if env.hooks.onAfterBackward then [AfterBackwardHook] else [];
    ClosureOut(
      s.(hiddens := out.hiddens,
         accumulateCounters := s.accumulateCounters[optIdx := s.accumulateCounters[optIdx] + ratio],
         events := s.events + [Forward(call), Backward(optIdx, loss), ProgressMetrics(out.progressMetrics)] + hook),
      logs + [out.logMetrics],
      callbacks + [out.callbackMetrics],
      loss)
  }

  /** The `n` further closure calls `optimizer_step` makes; their losses go to the optimizer only. */
  function ReEvaluate(cfg: Config, env: Env, w: Work, split: Batch, batchNb: nat, optIdx: nat, n: nat): (r: Work)
    requires cfg.Wf() && optIdx < |w.s.accumulateCounters|
    ensures Untouched(w.s, r.s)
    ensures r.s.batchLossValue == w.s.batchLossValue && r.s.runningLoss == w.s.runningLoss
    ensures r.s.avgLoss == w.s.avgLoss && r.gradNorms == w.gradNorms
    decreases n
  {
    if n == 0 then w
    else
      var c := Closure(cfg, env, w.s, w.logs, w.callbacks, split, batchNb, optIdx);
      ReEvaluate(cfg, env, Work(c.s, c.logs, c.callbacks, w.gradNorms), split, batchNb, optIdx, n - 1)
  }

  /** The trainer after an optimizer step: `running_loss` grows, `batch_loss_value` is zeroed, the average recomputed. */
  function RecordRunningLoss(s: TrainerState): (r: TrainerState)
    ensures r.runningLoss == s.runningLoss + [s.batchLossValue] && r.batchLossValue == 0.0
    ensures r.avgLoss == Mean(Window(r.runningLoss))
  {
    var running := s.runningLoss + [s.batchLossValue];
    s.(runningLoss := running, batchLossValue := 0.0, avgLoss := Mean(Window(running)))
  }

  /** The threshold check `counter >= accumulate_grad_batches` for this optimizer's counter. */
  predicate StepDue(s: TrainerState, optIdx: nat)
    requires optIdx < |s.accumulateCounters|
  {
    s.accumulateCounters[optIdx] >= s.accumulateGradBatches as real
  }

  /**
   * The step taken when the counter is due: the counter is reset, gradient norms are
   * tracked on logging batches, gradients are clipped, `optimizer_step` runs (calling
   * the closure again as often as it chooses), and the running loss is recorded.
   */
  function StepTaken(cfg: Config, env: Env, w: Work, split: Batch, batchNb: nat, optIdx: nat): (r: Work)
    requires cfg.Wf() && optIdx < |w.s.accumulateCounters|
    ensures Untouched(w.s, r.s)
  {
    var gradNorms := if batchNb % cfg.rowLogInterval == 0 && cfg.trackGradNorm > 0
                     then env.gradNorm(cfg.trackGradNorm, w.s.currentEpoch, batchNb, w.s.splitNb, optIdx) else w.gradNorms;
    var s2 := w.s.(accumulateCounters := w.s.accumulateCounters[optIdx := 0.0],
                   events := w.s.events + [ClipGradients, OptimizerStep(w.s.currentEpoch, batchNb, optIdx)]);
    var w3 := ReEvaluate(cfg, env, Work(s2, w.logs, w.callbacks, gradNorms), split, batchNb, optIdx,
                         env.reEvaluations(w.s.currentEpoch, batchNb, w.s.splitNb, optIdx));
    w3.(s := RecordRunningLoss(w3.s))
  }

  /** The state after the closure's loss is added to `batch_loss_value` (and NaN gradients reported). */
  function AccountLoss(cfg: Config, c: ClosureOut): TrainerState {
    c.s.(events := c.s.events + (if cfg.printNanGrads then [NanGradientReport] else []),
         batchLossValue := c.s.batchLossValue + c.loss)
  }

  /** One optimizer of one split: the closure call, its loss added up, and the step when the counter is due. */
  function Pass(cfg: Config, env: Env, w: Work, split: Batch, batchNb: nat, optIdx: nat): (r: Work)
    requires cfg.Wf() && optIdx < |w.s.accumulateCounters|
    ensures Untouched(w.s, r.s)
  {
    var c := Closure(cfg, env, w.s, w.logs, w.callbacks, split, batchNb, optIdx);
    var w1 := Work(AccountLoss(cfg, c), c.logs, c.callbacks, w.gradNorms);
    if StepDue(w1.s, optIdx) then StepTaken(cfg, env, w1, split, batchNb, optIdx) else w1
  }

  /** The optimizer loop of one split, from optimizer `j` on. */
  function OptimizersFrom(cfg: Config, env: Env, w: Work, split: Batch, batchNb: nat, j: nat): (r: Work)
    requires cfg.Wf() && |w.s.accumulateCounters| == cfg.nbOptimizers && j <= cfg.nbOptimizers
    ensures Untouched(w.s, r.s)
    decreases cfg.nbOptimizers - j
  {
    if j == cfg.nbOptimizers then w
    else OptimizersFrom(cfg, env, Pass(cfg, env, w, split, batchNb, j), split, batchNb, j + 1)
  }

  /** The split loop of one batch, from split `i` on. */
  function SplitsFrom(cfg: Config, env: Env, w: Work, splits: seq<Batch>, batchNb: nat, i: nat): (r: Work)
    requires cfg.Wf() && |w.s.accumulateCounters| == cfg.nbOptimizers && i <= |splits|
    ensures Untouched(w.s, r.s)
    decreases |splits| - i
  {
    if i == |splits| then w
    else SplitsFrom(cfg, env, OptimizersFrom(cfg, env, w.(s := w.s.(splitNb := i)), splits[i], batchNb, 0),
                    splits, batchNb, i + 1)
  }

  /** The splits of a batch: the batch itself, or `tbptt_split_batch` under truncated backprop. */
  function Splits(cfg: Config, env: Env, batch: Batch): seq<Batch> {
    if cfg.truncatedBpttSteps.Some? then env.splitBatch(batch, cfg.truncatedBpttSteps.value) else [batch]
  }

  /** The batch-start hook answers the sentinel -1 for this batch. */
  predicate SignalsStop(env: Env, batch: Option<Batch>) {
    batch.Some? && env.hooks.onBatchStart.Some? && env.hooks.onBatchStart.value(batch.value) == -1
  }

  /** The work of a batch that reaches the split loop: hiddens reset, then every split. */
  function BatchWork(cfg: Config, env: Env, s: TrainerState, batch: Batch, batchNb: nat): (r: Work)
    requires cfg.Wf() && |s.accumulateCounters| == cfg.nbOptimizers
    ensures Untouched(s, r.s)
  {
    SplitsFrom(cfg, env, Work(s.(hiddens := None), [], [], map[]), Splits(cfg, env, batch), batchNb, 0)
  }

  /** `run_training_batch(batch, batch_nb)`: the new state and `(batch_result, grad_norm_dic, log metrics)`. */
  function BatchRun(cfg: Config, env: Env, s: TrainerState, batch: Option<Batch>, batchNb: nat): (r: (TrainerState, BatchOutput))
    requires cfg.Wf() && |s.accumulateCounters| == cfg.nbOptimizers
    ensures |r.0.accumulateCounters| == cfg.nbOptimizers
    ensures r.0.globalStep == s.globalStep && r.0.totalBatchNb == s.totalBatchNb
    ensures r.0.currentEpoch == s.currentEpoch && r.0.totalBatches == s.totalBatches
    ensures r.0.accumulateGradBatches == s.accumulateGradBatches && s.events <= r.0.events
  {
    if batch.None? then (s, BatchOutput(0, map[], map[]))
    else
      var s1 := if env.hooks.onBatchStart.Some? then s.(events := s.events + [BatchStartHook]) else s;
      if SignalsStop(env, batch) then (s1, BatchOutput(-1, map[], map[]))
      else
        var w := BatchWork(cfg, env, s1, batch.value, batchNb);
        var s2 := w.s.(events := w.s.events + (if env.hooks.onBatchEnd then [BatchEndHook] else []));
        (s2.(callbackMetrics := s2.callbackMetrics + MergeAll(w.callbacks)),
         BatchOutput(0, w.gradNorms, MergeAll(w.logs)))
  }

  /** The calls the epoch runner makes after a batch: validation, logger save, metric logging. */
  function AfterBatchEvents(cfg: Config, batchNb: nat, epoch: int, out: BatchOutput): seq<Event> {
    var stop := out.result == -1;
    (if RunsValidation(cfg, batchNb, epoch, stop) then [Evaluation(cfg.testing)] else [])
    + (if SavesLog(cfg, batchNb, stop) then [LoggerSave] else [])
    + (if LogsMetrics(cfg, batchNb, stop) then [LogMetrics(out.logMetrics, out.gradNorms)] else [])
  }

  /** One iteration of the batch loop of `run_training_epoch`: the batch, the checks after it, the two counters. */
  function BatchStep(cfg: Config, env: Env, s: TrainerState, batch: Option<Batch>, i: nat): (r: (TrainerState, BatchOutput))
    requires cfg.Wf() && |s.accumulateCounters| == cfg.nbOptimizers
    ensures |r.0.accumulateCounters| == cfg.nbOptimizers
    ensures r.0.currentEpoch == s.currentEpoch && r.0.totalBatches == s.totalBatches
    ensures r.0.accumulateGradBatches == s.accumulateGradBatches && s.events <= r.0.events
  {
    var b := BatchRun(cfg, env, s.(batchNb := i), batch, i);
    (b.0.(events := b.0.events + AfterBatchEvents(cfg, i, b.0.currentEpoch, b.1),
          globalStep := b.0.globalStep + 1,
          totalBatchNb := b.0.totalBatchNb + 1),
     b.1)
  }

  /** The batch loop of `run_training_epoch`, from batch `i` on. */
  function EpochFrom(cfg: Config, env: Env, s: TrainerState, batches: seq<Option<Batch>>, i: nat): (r: TrainerState)
    requires cfg.Wf() && |s.accumulateCounters| == cfg.nbOptimizers && i <= |batches|
    ensures |r.accumulateCounters| == cfg.nbOptimizers
    ensures r.currentEpoch == s.currentEpoch && r.totalBatches == s.totalBatches
    ensures r.accumulateGradBatches == s.accumulateGradBatches && s.events <= r.events
    decreases |batches| - i
  {
    if i == |batches| then s
    else
      var step := BatchStep(cfg, env, s, batches[i], i);
      if EndsEpoch(cfg, i, step.1.result == -1) then step.0 else EpochFrom(cfg, env, step.0, batches, i + 1)
  }

  /** `run_training_epoch()`: epoch hooks around the batch loop over this epoch's batches. */
  function EpochRun(cfg: Config, env: Env, s: TrainerState): (r: TrainerState)
    requires cfg.Wf() && |s.accumulateCounters| == cfg.nbOptimizers
    ensures |r.accumulateCounters| == cfg.nbOptimizers
    ensures r.currentEpoch == s.currentEpoch && r.accumulateGradBatches == s.accumulateGradBatches
    ensures s.events <= r.events
  {
    var s1 := if env.hooks.onEpochStart then s.(events := s.events + [EpochStartHook]) else s;
    var s2 := EpochFrom(cfg, env, s1, env.trainBatches(s1.currentEpoch), 0);
    if env.hooks.onEpochEnd then s2.(events := s2.events + [EpochEndHook]) else s2
  }

  /** The epoch preamble of `train`: epoch number, cadence, loss reset, progress reset, accumulation schedule. */
  function BeginEpoch(cfg: Config, env: Env, s: TrainerState, epoch: int): TrainerState {
    s.(currentEpoch := epoch,
       totalBatches := TotalBatches(cfg, epoch),
       batchLossValue := 0.0,
       events := s.events + (if cfg.progressBarDisabled then [] else [ProgressReset(NbIterations(cfg, epoch))]),
       accumulateGradBatches := env.accumulationSchedule(epoch, s.accumulateGradBatches))
  }

  /** `lr_scheduler.step(current_epoch)` for each of the first `n` schedulers. */
  function LrStepEvents(n: nat, epoch: int): (evs: seq<Event>)
    ensures |evs| == n && forall k :: 0 <= k < n ==> evs[k] == LrSchedulerStep(k, epoch)
  {
    if n == 0 then [] else LrStepEvents(n - 1, epoch) + [LrSchedulerStep(n - 1, epoch)]
  }

  /** The calls `train` makes once the epoch loop is left without the early return. */
  function CompletionEvents(cfg: Config): seq<Event> {
    [ProgressClose] + (if cfg.hasLogger then [LoggerFinalize("success")] else [])
  }

  /**
   * One iteration of the epoch loop of `train`: the preamble, the epoch, the scheduler
   * steps and the early-stop query; the flag says that `train` returns early.
   */
  function EpochTurn(cfg: Config, env: Env, s: TrainerState, epoch: int): (r: (TrainerState, bool))
    requires cfg.Wf() && |s.accumulateCounters| == cfg.nbOptimizers
    ensures |r.0.accumulateCounters| == cfg.nbOptimizers && s.events <= r.0.events
  {
    var s1 := EpochRun(cfg, env, BeginEpoch(cfg, env, s, epoch));
    var s2 := s1.(events := s1.events + LrStepEvents(cfg.nbLrSchedulers, s1.currentEpoch));
    if ConsultsEarlyStop(cfg, epoch) then
      var answer := env.earlyStop(epoch, s2.callbackMetrics);
      var s3 := s2.(events := s2.events + [EarlyStopQuery(epoch, answer)]);
      if HonoursStop(cfg, epoch, answer) then (s3.(events := s3.events + [ProgressClose]), true)
      else (s3, false)
    else (s2, false)
  }

  /** The epoch loop of `train`, from epoch `epoch` on, with how it was left. */
  function EpochsFrom(cfg: Config, env: Env, s: TrainerState, epoch: int): (r: (TrainerState, Outcome))
    requires cfg.Wf() && |s.accumulateCounters| == cfg.nbOptimizers
    ensures |r.0.accumulateCounters| == cfg.nbOptimizers && s.events <= r.0.events
    decreases cfg.maxNbEpochs - epoch
  {
    if epoch >= cfg.maxNbEpochs then (s, Completed)
    else
      var turn := EpochTurn(cfg, env, s, epoch);
      if turn.1 then (turn.0, EarlyStopped(epoch)) else EpochsFrom(cfg, env, turn.0, epoch + 1)
  }

  /** `train()`: every epoch from `current_epoch` up to `max_nb_epochs`, then the completion calls unless stopped early. */
  function Training(cfg: Config, env: Env, s: TrainerState): (r: (TrainerState, Outcome))
    requires cfg.Wf() && |s.accumulateCounters| == cfg.nbOptimizers
    ensures |r.0.accumulateCounters| == cfg.nbOptimizers && s.events <= r.0.events
  {
    var run := EpochsFrom(cfg, env, s, s.currentEpoch);
    if run.1.Completed? then (run.0.(events := run.0.events + CompletionEvents(cfg)), Completed) else run
  }
}
