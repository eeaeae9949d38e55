/**
 * `TrainerTrainLoopMixin`: the trainer fields the loop updates in place and its
 * four methods (plus the closure and the optimizer pass they are built from),
 * each proved to compute the corresponding function of TrainSpec.
 */
module TrainLoop {
  import opened Wrappers
  import opened Types
  import opened MetricMerge
  import opened LossWindow
  import opened ForwardDispatch
  import opened TrainSpec

  class Trainer {
    const cfg: Config
    var currentEpoch: int
    var globalStep: int
    var totalBatchNb: int
    var batchNb: int
    var splitNb: int
    var totalBatches: int
    var batchLossValue: real
    var runningLoss: seq<real>
    var avgLoss: real
    var hiddens: Option<Hidden>
    /** `opt_idx_to_accumulate_grad_batches`, one counter per optimizer. */
    var accumulateCounters: seq<real>
    var accumulateGradBatches: Pos
    var callbackMetrics: MetricMap
    /** The calls made into collaborators so far. */
    var events: seq<Event>

    ghost function State(): TrainerState
      reads this
    {
      TrainerState(currentEpoch, globalStep, totalBatchNb, batchNb, splitNb, totalBatches,
                   batchLossValue, runningLoss, avgLoss, hiddens, accumulateCounters,
                   accumulateGradBatches, callbackMetrics, events)
    }

    ghost predicate Valid()
      reads this
    {
      cfg.Wf() && |accumulateCounters| == cfg.nbOptimizers
    }

    constructor (cfg: Config, init: TrainerState)
      requires cfg.Wf() && |init.accumulateCounters| == cfg.nbOptimizers
      ensures Valid() && this.cfg == cfg && State() == init
    {
      this.cfg := cfg;
      currentEpoch, globalStep, totalBatchNb := init.currentEpoch, init.globalStep, init.totalBatchNb;
      batchNb, splitNb, totalBatches := init.batchNb, init.splitNb, init.totalBatches;
      batchLossValue, runningLoss, avgLoss := init.batchLossValue, init.runningLoss, init.avgLoss;
      hiddens, accumulateCounters := init.hiddens, init.accumulateCounters;
      accumulateGradBatches, callbackMetrics, events := init.accumulateGradBatches, init.callbackMetrics, init.events;
    }

    /** `training_forward(batch, batch_nb, opt_idx, hiddens)`: the call made and its canonical output. */
    method TrainingForward(env: Env, batch: Batch, batchNb: nat, optIdx: nat, hiddens: Option<Hidden>)
      returns (call: ForwardCall, output: StepOutput)
      requires cfg.Wf()
      ensures call == ForwardCallOf(cfg, env, batch, batchNb, optIdx, hiddens)
      ensures output == ForwardOutput(env, call)
    {
      var args := [BatchArg(batch), BatchIndexArg(batchNb)];
      if cfg.nbOptimizers > 1 {
        args := args + [OptimizerIndexArg(optIdx)];
      }
      if cfg.truncatedBpttSteps.Some? {
        args := args + [HiddensArg(hiddens)];
      }
      var raw: RawOutput;
      var strategy: Strategy;
      if cfg.useDdp || cfg.useDdp2 || cfg.useDp {
        strategy := Wrapped;
        raw := env.wrappedForward(args);
      } else if cfg.singleGpu {
        var gpuId := 0;
        if cfg.deviceIds.DeviceList? {
          gpuId := cfg.deviceIds.ids[0];
        }
        var moved := env.transferToGpu(batch, gpuId);
        args := args[0 := BatchArg(moved)];
        strategy := SingleDevice(gpuId);
        raw := env.trainingStep(args);
      } else {
        strategy := Host;
        raw := env.trainingStep(args);
      }
      if env.hooks.trainingEnd.Some? {
        raw := env.hooks.trainingEnd.value(raw);
      }
      call := ForwardCall(strategy, args);
      output := env.processOutput(raw);
    }

    /** `optimizer_closure()`, with the batch's metric lists passed in and out. */
    method OptimizerClosure(env: Env, split: Batch, batchNb: nat, optIdx: nat,
                            logs: seq<MetricMap>, callbacks: seq<MetricMap>)
      returns (loss: real, logs': seq<MetricMap>, callbacks': seq<MetricMap>)
      requires Valid() && optIdx < cfg.nbOptimizers
      modifies this
      ensures Valid()
      ensures ClosureOut(State(), logs', callbacks', loss)
              == Closure(cfg, env, old(State()), logs, callbacks, split, batchNb, optIdx)
    {
      var call, output := TrainingForward(env, split, batchNb, optIdx, hiddens);
      hiddens := output.hiddens;
      var ratio := EfficiencyRatio(output.callbackMetrics);
      accumulateCounters := accumulateCounters[optIdx := accumulateCounters[optIdx] + ratio];
      var weight := ratio / accumulateGradBatches as real;
      loss := output.loss * weight;
      events := events + [Forward(call), Backward(optIdx, loss)];
      callbacks' := callbacks + [output.callbackMetrics];
      events := events + [ProgressMetrics(output.progressMetrics)];
      logs' := logs + [output.logMetrics];
      if env.hooks.onAfterBackward {
        events := events + [AfterBackwardHook];
      }
      assert loss == ScaledLoss(output.loss, ratio, accumulateGradBatches);
      assert events == old(events) + [Forward(call), Backward(optIdx, loss), ProgressMetrics(output.progressMetrics)]
                       + (if env.hooks.onAfterBackward then [AfterBackwardHook] else []);
    }

    /** The body of the optimizer loop: call the closure, add up its loss, step when the counter is due. */
    method OptimizerPass(env: Env, split: Batch, batchNb: nat, optIdx: nat,
                         logs: seq<MetricMap>, callbacks: seq<MetricMap>, gradNorms: MetricMap)
      returns (logs': seq<MetricMap>, callbacks': seq<MetricMap>, gradNorms': MetricMap)
      requires Valid() && optIdx < cfg.nbOptimizers
      modifies this
      ensures Valid()
      ensures Work(State(), logs', callbacks', gradNorms')
              == Pass(cfg, env, Work(old(State()), logs, callbacks, gradNorms), split, batchNb, optIdx)
    {
      ghost var w0 := Work(State(), logs, callbacks, gradNorms);
      var loss;
      loss, logs', callbacks' := OptimizerClosure(env, split, batchNb, optIdx, logs, callbacks);
      ghost var c := ClosureOut(State(), logs', callbacks', loss);
      if cfg.printNanGrads {
        events := events + [NanGradientReport];
      }
      batchLossValue := batchLossValue + loss;
      gradNorms' := gradNorms;
      assert State() == AccountLoss(cfg, c);
      if accumulateCounters[optIdx] >= accumulateGradBatches as real {
        logs', callbacks', gradNorms' := OptimizerStepTaken(env, split, batchNb, optIdx, logs', callbacks', gradNorms');
      }
    }

    /** The step branch of the optimizer loop: reset the counter, track norms, clip, step, record the loss. */
    method OptimizerStepTaken(env: Env, split: Batch, batchNb: nat, optIdx: nat,
                              logs: seq<MetricMap>, callbacks: seq<MetricMap>, gradNorms: MetricMap)
      returns (logs': seq<MetricMap>, callbacks': seq<MetricMap>, gradNorms': MetricMap)
      requires Valid() && optIdx < cfg.nbOptimizers
      modifies this
      ensures Valid()
      ensures Work(State(), logs', callbacks', gradNorms')
              == StepTaken(cfg, env, Work(old(State()), logs, callbacks, gradNorms), split, batchNb, optIdx)
    {
      var n := env.reEvaluations(currentEpoch, batchNb, splitNb, optIdx);
      accumulateCounters := accumulateCounters[optIdx := 0.0];
      gradNorms' := gradNorms;
      if batchNb % cfg.rowLogInterval == 0 {
        if cfg.trackGradNorm > 0 {
          gradNorms' := env.gradNorm(cfg.trackGradNorm, currentEpoch, batchNb, splitNb, optIdx);
        }
      }
      events := events + [ClipGradients];
      events := events + [OptimizerStep(currentEpoch, batchNb, optIdx)];
      ghost var w2 := Work(State(), logs, callbacks, gradNorms');
      ghost var s0 := old(State());
      assert gradNorms' == if batchNb % cfg.rowLogInterval == 0 && cfg.trackGradNorm > 0
                           then env.gradNorm(cfg.trackGradNorm, s0.currentEpoch, batchNb, s0.splitNb, optIdx) else gradNorms;
      assert w2.s == s0.(accumulateCounters := s0.accumulateCounters[optIdx := 0.0],
                         events := s0.events + [ClipGradients, OptimizerStep(s0.currentEpoch, batchNb, optIdx)]);
      // optimizer_step may call the closure again
      logs', callbacks' := ReEvaluateClosure(env, split, batchNb, optIdx, n, logs, callbacks, gradNorms');
      ghost var w3 := ReEvaluate(cfg, env, w2, split, batchNb, optIdx, n);
      ghost var w0 := Work(old(State()), logs, callbacks, gradNorms);
      assert StepTaken(cfg, env, w0, split, batchNb, optIdx)
             == w3.(s := RecordRunningLoss(w3.s));
      RecordLoss();
    }

    /** The running-loss bookkeeping after an optimizer step. */
    method RecordLoss()
      requires Valid()
      modifies this
      ensures Valid()
      ensures State() == RecordRunningLoss(old(State()))
    {
      var running := runningLoss + [batchLossValue];
      var avg := Mean(Window(running));
      ghost var s0 := State();
      runningLoss, batchLossValue, avgLoss := running, 0.0, avg;
      assert State() == s0.(runningLoss := running, batchLossValue := 0.0, avgLoss := avg);
    }

    /** The further closure calls made by `optimizer_step`. */
    method ReEvaluateClosure(env: Env, split: Batch, batchNb: nat, optIdx: nat, n: nat,
                             logs: seq<MetricMap>, callbacks: seq<MetricMap>, ghost gradNorms: MetricMap)
      returns (logs': seq<MetricMap>, callbacks': seq<MetricMap>)
      requires Valid() && optIdx < cfg.nbOptimizers
      modifies this
      ensures Valid()
      ensures Work(State(), logs', callbacks', gradNorms)
              == ReEvaluate(cfg, env, Work(old(State()), logs, callbacks, gradNorms), split, batchNb, optIdx, n)
    {
      logs', callbacks' := logs, callbacks;
      var k := 0;
      while k < n
        invariant 0 <= k <= n && Valid()
        invariant ReEvaluate(cfg, env, Work(State(), logs', callbacks', gradNorms), split, batchNb, optIdx, n - k)
                  == ReEvaluate(cfg, env, Work(old(State()), logs, callbacks, gradNorms), split, batchNb, optIdx, n)
      {
        var extra;
        extra, logs', callbacks' := OptimizerClosure(env, split, batchNb, optIdx, logs', callbacks');
        k := k + 1;
      }
    }

    /** `run_training_batch(batch, batch_nb)`. */
    method RunTrainingBatch(env: Env, batch: Option<Batch>, batchNb: nat) returns (out: BatchOutput)
      requires Valid()
      modifies this
      ensures Valid()
      ensures (State(), out) == BatchRun(cfg, env, old(State()), batch, batchNb)
    {
      var gradNorms: MetricMap := map[];
      var callbacks: seq<MetricMap> := [];
      var logs: seq<MetricMap> := [];
      if batch.None? {
        return BatchOutput(0, gradNorms, map[]);
      }
      if env.hooks.onBatchStart.Some? {
        events := events + [BatchStartHook];
        var response := env.hooks.onBatchStart.value(batch.value);
        if response == -1 {
          return BatchOutput(-1, gradNorms, map[]);
        }
      }
      assert !SignalsStop(env, batch);
      logs, callbacks, gradNorms := RunSplits(env, batch.value, batchNb);
      ghost var w := Work(State(), logs, callbacks, gradNorms);
      if env.hooks.onBatchEnd {
        events := events + [BatchEndHook];
      }
      ghost var s2 := State();
      assert s2 == w.s.(events := w.s.events + (if env.hooks.onBatchEnd then [BatchEndHook] else []));
      var merged := MergeAll(logs);
      callbackMetrics := callbackMetrics + MergeAll(callbacks);
      out := BatchOutput(0, gradNorms, merged);
      assert State() == s2.(callbackMetrics := s2.callbackMetrics + MergeAll(w.callbacks));
    }

    /** The split loop of `run_training_batch`, with the metric lists it builds. */
    method RunSplits(env: Env, batch: Batch, batchNb: nat)
      returns (logs: seq<MetricMap>, callbacks: seq<MetricMap>, gradNorms: MetricMap)
      requires Valid()
      modifies this
      ensures Valid()
      ensures Work(State(), logs, callbacks, gradNorms) == BatchWork(cfg, env, old(State()), batch, batchNb)
    {
      gradNorms, callbacks, logs := map[], [], [];
      var splits := [batch];
      if cfg.truncatedBpttSteps.Some? {
        splits := env.splitBatch(batch, cfg.truncatedBpttSteps.value);
      }
      assert splits == Splits(cfg, env, batch);
      hiddens := None;
      logs, callbacks, gradNorms := RunSplitLoop(env, splits, batchNb, logs, callbacks, gradNorms);
    }

    /** The loop over the splits of a batch. */
    method RunSplitLoop(env: Env, splits: seq<Batch>, batchNb: nat,
                        logs: seq<MetricMap>, callbacks: seq<MetricMap>, gradNorms: MetricMap)
      returns (logs': seq<MetricMap>, callbacks': seq<MetricMap>, gradNorms': MetricMap)
      requires Valid()
      modifies this
      ensures Valid()
      ensures Work(State(), logs', callbacks', gradNorms')
              == SplitsFrom(cfg, env, Work(old(State()), logs, callbacks, gradNorms), splits, batchNb, 0)
    {
      logs', callbacks', gradNorms' := logs, callbacks, gradNorms;
      var i := 0;
      while i < |splits|
        invariant 0 <= i <= |splits| && Valid()
        invariant SplitsFrom(cfg, env, Work(State(), logs', callbacks', gradNorms'), splits, batchNb, i)
                  == SplitsFrom(cfg, env, Work(old(State()), logs, callbacks, gradNorms), splits, batchNb, 0)
      {
        ghost var before := Work(State(), logs', callbacks', gradNorms');
        logs', callbacks', gradNorms' := RunSplit(env, splits[i], i, batchNb, logs', callbacks', gradNorms');
        assert SplitsFrom(cfg, env, before, splits, batchNb, i)
               == SplitsFrom(cfg, env, Work(State(), logs', callbacks', gradNorms'), splits, batchNb, i + 1);
        i := i + 1;
      }
    }

    /** One iteration of the split loop: `split_nb` is set, then the optimizer loop runs on the split. */
    method RunSplit(env: Env, split: Batch, splitIdx: nat, batchNb: nat,
                    logs: seq<MetricMap>, callbacks: seq<MetricMap>, gradNorms: MetricMap)
      returns (logs': seq<MetricMap>, callbacks': seq<MetricMap>, gradNorms': MetricMap)
      requires Valid()
      modifies this
      ensures Valid()
      ensures Work(State(), logs', callbacks', gradNorms')
              == OptimizersFrom(cfg, env, Work(old(State()).(splitNb := splitIdx), logs, callbacks, gradNorms), split, batchNb, 0)
    {
      splitNb := splitIdx;
      logs', callbacks', gradNorms' := logs, callbacks, gradNorms;
      var j := 0;
      while j < cfg.nbOptimizers
        invariant 0 <= j <= cfg.nbOptimizers && Valid()
        invariant OptimizersFrom(cfg, env, Work(State(), logs', callbacks', gradNorms'), split, batchNb, j)
                  == OptimizersFrom(cfg, env, Work(old(State()).(splitNb := splitIdx), logs, callbacks, gradNorms), split, batchNb, 0)
      {
        logs', callbacks', gradNorms' := OptimizerPass(env, split, batchNb, j, logs', callbacks', gradNorms');
        j := j + 1;
      }
    }

    /** `run_training_epoch()`. */
    method RunTrainingEpoch(env: Env)
      requires Valid()
      modifies this
      ensures Valid()
      ensures State() == EpochRun(cfg, env, old(State()))
    {
      if env.hooks.onEpochStart {
        events := events + [EpochStartHook];
      }
      ghost var s1 := State();
      var batches := env.trainBatches(currentEpoch);
      RunBatches(env, batches);
      ghost var s2 := State();
      assert s2 == EpochFrom(cfg, env, s1, batches, 0);
      if env.hooks.onEpochEnd {
        events := events + [EpochEndHook];
      }
    }

    /** The batch loop of `run_training_epoch` over this epoch's batches. */
    method RunBatches(env: Env, batches: seq<Option<Batch>>)
      requires Valid()
      modifies this
      ensures Valid()
      ensures State() == EpochFrom(cfg, env, old(State()), batches, 0)
    {
      ghost var target := EpochFrom(cfg, env, State(), batches, 0);
      var i := 0;
      while i < |batches|
        invariant 0 <= i <= |batches| && Valid()
        invariant EpochFrom(cfg, env, State(), batches, i) == target
      {
        var out := TrainOneBatch(env, batches[i], i);
        var earlyStopEpoch := out.result == -1;
        if earlyStopEpoch || cfg.fastDevRun {
          break;
        }
        var metBatchLimit := i >= cfg.nbTrainingBatches;
        if metBatchLimit {
          break;
        }
        i := i + 1;
      }
    }

    /** The body of the batch loop: the batch, the checks after it and the step counters. */
    method TrainOneBatch(env: Env, batch: Option<Batch>, i: nat) returns (out: BatchOutput)
      requires Valid()
      modifies this
      ensures Valid()
      ensures (State(), out) == BatchStep(cfg, env, old(State()), batch, i)
    {
      batchNb := i;
      ghost var start := State();
      assert start == old(State()).(batchNb := i);
      out := RunTrainingBatch(env, batch, i);
      ghost var b := (State(), out);
      BatchStepAfterRun(cfg, env, old(State()), batch, i, b);
      AfterBatch(i, out);
      assert State() == b.0.(events := b.0.events + AfterBatchEvents(cfg, i, b.0.currentEpoch, out),
                             globalStep := b.0.globalStep + 1, totalBatchNb := b.0.totalBatchNb + 1);
    }

    /** The validation, logger-save and metric-logging checks after batch `batchNb`, then the batch counters. */
    method AfterBatch(batchNb: nat, out: BatchOutput)
      requires Valid()
      modifies this
      ensures Valid()
      ensures State() == old(State()).(events := old(events) + AfterBatchEvents(cfg, batchNb, currentEpoch, out),
                                       globalStep := old(globalStep) + 1,
                                       totalBatchNb := old(totalBatchNb) + 1)
    {
      var earlyStopEpoch := out.result == -1;

      var isValCheckBatch := (batchNb + 1) % cfg.valCheckBatch == 0;
      var canCheckEpoch := (currentEpoch + 1) % cfg.checkValEveryNEpoch == 0;
      var shouldCheckVal := (isValCheckBatch || earlyStopEpoch) && canCheckEpoch;
      var validation: seq<Event> := [];
      if cfg.fastDevRun || shouldCheckVal {
        validation := [Evaluation(cfg.testing)];
      }

      var save: seq<Event> := [];
      var shouldSaveLog := (batchNb + 1) % cfg.logSaveInterval == 0 || earlyStopEpoch;
      if shouldSaveLog || cfg.fastDevRun {
        if cfg.procRank == 0 && cfg.hasLogger {
          save := [LoggerSave];
        }
      }

      var logging: seq<Event> := [];
      var shouldLogMetrics := batchNb % cfg.rowLogInterval == 0 || earlyStopEpoch;
      if shouldLogMetrics || cfg.fastDevRun {
        logging := [LogMetrics(out.logMetrics, out.gradNorms)];
      }
      events := events + (validation + save + logging);
      totalBatchNb := totalBatchNb + 1;
      globalStep := globalStep + 1;
    }

    /** `train()`. */
    method Train(env: Env)
      requires Valid()
      modifies this
      ensures Valid()
      ensures State() == Training(cfg, env, old(State())).0
    {
      var outcome := RunEpochs(env);
      if outcome.EarlyStopped? {
        return;
      }
      events := events + [ProgressClose];
      if cfg.hasLogger {
        events := events + [LoggerFinalize("success")];
      }
    }

    /** The epoch loop of `train`; the outcome says whether it returned early. */
    method RunEpochs(env: Env) returns (outcome: Outcome)
      requires Valid()
      modifies this
      ensures Valid()
      ensures (State(), outcome) == EpochsFrom(cfg, env, old(State()), old(currentEpoch))
    {
      ghost var target := EpochsFrom(cfg, env, State(), currentEpoch);
      var epoch := currentEpoch;
      while epoch < cfg.maxNbEpochs
        invariant Valid()
        invariant EpochsFrom(cfg, env, State(), epoch) == target
        decreases cfg.maxNbEpochs - epoch
      {
        ghost var before := State();
        var stop := TrainEpoch(env, epoch);
        assert EpochsFrom(cfg, env, before, epoch)
               == if stop then (State(), EarlyStopped(epoch)) else EpochsFrom(cfg, env, State(), epoch + 1);
        if stop {
          return EarlyStopped(epoch);
        }
        epoch := epoch + 1;
      }
      return Completed;
    }

    /** The body of the epoch loop of `train`; `stop` is the early return. */
    method TrainEpoch(env: Env, epoch: int) returns (stop: bool)
      requires Valid()
      modifies this
      ensures Valid()
      ensures (State(), stop) == EpochTurn(cfg, env, old(State()), epoch)
    {
      BeginTrainingEpoch(env, epoch);
      RunTrainingEpoch(env);
      StepLrSchedulers();
      stop := false;
      var metMinEpochs := epoch > cfg.minNbEpochs;
      if cfg.enableEarlyStop && (metMinEpochs || cfg.fastDevRun) {
        var shouldStop := env.earlyStop(epoch, callbackMetrics);
        events := events + [EarlyStopQuery(epoch, shouldStop)];
        stop := shouldStop && metMinEpochs;
        if stop {
          events := events + [ProgressClose];
        }
      }
    }

    /** The epoch preamble: epoch number, progress estimate, loss reset, accumulation schedule. */
    method BeginTrainingEpoch(env: Env, epoch: int)
      requires Valid()
      modifies this
      ensures Valid()
      ensures State() == BeginEpoch(cfg, env, old(State()), epoch)
    {
      currentEpoch := epoch;

      var isValEpoch := (currentEpoch + 1) % cfg.checkValEveryNEpoch == 0;
      var valChecksPerEpoch := cfg.nbTrainingBatches / cfg.valCheckBatch;
      valChecksPerEpoch := if isValEpoch then valChecksPerEpoch else 0;
      totalBatches := cfg.nbTrainingBatches + cfg.nbValBatches * valChecksPerEpoch;
      batchLossValue := 0.0;

      var nbIterations: Option<int>;
      if cfg.fastDevRun {
        nbIterations := Some(2);
      } else if cfg.isIterableTrainDataloader {
        nbIterations := None;
      } else {
        nbIterations := Some(totalBatches);
      }
      if !cfg.progressBarDisabled {
        events := events + [ProgressReset(nbIterations)];
      }

      accumulateGradBatches := env.accumulationSchedule(epoch, accumulateGradBatches);
    }

    /** `lr_scheduler.step(current_epoch)` for every scheduler, in order. */
    method StepLrSchedulers()
      requires Valid()
      modifies this
      ensures Valid()
      ensures State() == old(State()).(events := old(events) + LrStepEvents(cfg.nbLrSchedulers, currentEpoch))
    {
      var k := 0;
      while k < cfg.nbLrSchedulers
        invariant 0 <= k <= cfg.nbLrSchedulers && Valid()
        invariant State() == old(State()).(events := old(events) + LrStepEvents(k, currentEpoch))
      {
        events := events + [LrSchedulerStep(k, currentEpoch)];
        k := k + 1;
      }
    }
  }

  /** One iteration of the batch loop is the batch's run followed by the checks after it. */
  lemma BatchStepAfterRun(cfg: Config, env: Env, s: TrainerState, batch: Option<Batch>, i: nat,
                          b: (TrainerState, BatchOutput))
    requires cfg.Wf() && |s.accumulateCounters| == cfg.nbOptimizers
    requires b == BatchRun(cfg, env, s.(batchNb := i), batch, i)
    ensures BatchStep(cfg, env, s, batch, i)
            == (b.0.(events := b.0.events + AfterBatchEvents(cfg, i, b.0.currentEpoch, b.1),
                     globalStep := b.0.globalStep + 1, totalBatchNb := b.0.totalBatchNb + 1), b.1)
  {
  }
}
