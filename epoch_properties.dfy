/**
 * What `run_training_epoch` and `train` promise: how many batches an epoch runs, how
 * the step counters move, and how the early stop and the logger finalisation are gated.
 */
module EpochProperties {
  import opened Wrappers
  import opened Types
  import opened Cadence
  import opened Accumulation
  import opened TrainSpec
  import opened BatchProperties

  /**
   * Reference count of the batches the loop of `run_training_epoch` processes from
   * batch `i` on: a batch is processed, and the loop goes on unless the sentinel, a
   * fast dev run or the batch limit ends it after that batch.
   */
  function BatchesRunFrom(cfg: Config, env: Env, batches: seq<Option<Batch>>, i: nat): (n: nat)
    requires i <= |batches|
    ensures n <= |batches| - i
    decreases |batches| - i
  {
    if i == |batches| then 0
    else if EndsEpoch(cfg, i, SignalsStop(env, batches[i])) then 1
    else 1 + BatchesRunFrom(cfg, env, batches, i + 1)
  }

  /** Each processed batch, the sentinel batch included, adds exactly one to `global_step` and `total_batch_nb`. */
  lemma BatchStepCounters(cfg: Config, env: Env, s: TrainerState, batch: Option<Batch>, i: nat)
    requires cfg.Wf() && |s.accumulateCounters| == cfg.nbOptimizers
    ensures var r := BatchStep(cfg, env, s, batch, i);
      && r.0.globalStep == s.globalStep + 1 && r.0.totalBatchNb == s.totalBatchNb + 1
      && (r.1.result == -1 <==> SignalsStop(env, batch))
  {
    BatchResultCode(cfg, env, s.(batchNb := i), batch, i);
  }

  /**
   * The epoch preamble of `train`: the epoch number is set, the accumulated loss cleared,
   * and (outside a fast dev run) `total_batches` counts the training batches plus one
   * validation pass for every batch among the first `nb_training_batches` after which the
   * runner's gate validates; the progress bar, unless disabled, is reset to 2 iterations
   * in a fast dev run and to no fixed length for an iterable loader.
   */
  lemma BeginEpochCadence(cfg: Config, env: Env, s: TrainerState, epoch: int)
    ensures var r := BeginEpoch(cfg, env, s, epoch);
      && r.currentEpoch == epoch && r.batchLossValue == 0.0
      && (!cfg.fastDevRun ==>
            r.totalBatches == cfg.nbTrainingBatches + cfg.nbValBatches * ValidationsAmong(cfg, epoch, cfg.nbTrainingBatches))
      && (cfg.progressBarDisabled ==> r.events == s.events)
      && (!cfg.progressBarDisabled ==>
            r.events == s.events + [ProgressReset(if cfg.fastDevRun then Some(2)
                                                  else if cfg.isIterableTrainDataloader then None
                                                  else Some(r.totalBatches))])
  {
    if !cfg.fastDevRun {
      ValChecksMatchGate(cfg, epoch);
    }
  }

  /** The epoch's batch loop moves both step counters by the number of batches it processes. */
  lemma {:induction false} EpochCounters(cfg: Config, env: Env, s: TrainerState, batches: seq<Option<Batch>>, i: nat)
    requires cfg.Wf() && |s.accumulateCounters| == cfg.nbOptimizers && i <= |batches|
    ensures var r := EpochFrom(cfg, env, s, batches, i);
      && r.globalStep == s.globalStep + BatchesRunFrom(cfg, env, batches, i)
      && r.totalBatchNb == s.totalBatchNb + BatchesRunFrom(cfg, env, batches, i)
    decreases |batches| - i
  {
    if i < |batches| {
      var step := BatchStep(cfg, env, s, batches[i], i);
      BatchStepCounters(cfg, env, s, batches[i], i);
      if !EndsEpoch(cfg, i, step.1.result == -1) {
        EpochCounters(cfg, env, step.0, batches, i + 1);
      }
    }
  }

  /** From a batch index within the limit, at most the batches up to index `nb_training_batches` run. */
  lemma {:induction false} BatchLimitFrom(cfg: Config, env: Env, batches: seq<Option<Batch>>, i: nat)
    requires i <= |batches| && i <= cfg.nbTrainingBatches
    ensures BatchesRunFrom(cfg, env, batches, i) <= cfg.nbTrainingBatches + 1 - i
    decreases |batches| - i
  {
    if i < |batches| && !EndsEpoch(cfg, i, SignalsStop(env, batches[i])) {
      BatchLimitFrom(cfg, env, batches, i + 1);
    }
  }

  /** An epoch processes at most `nb_training_batches + 1` batches (the limit check comes after the batch). */
  lemma BatchLimit(cfg: Config, env: Env, batches: seq<Option<Batch>>)
    ensures BatchesRunFrom(cfg, env, batches, 0) <= cfg.nbTrainingBatches + 1
  {
    BatchLimitFrom(cfg, env, batches, 0);
  }

  /** Without the sentinel, a fast dev run or a short loader, the loop runs on to index `nb_training_batches`. */
  lemma {:induction false} FullEpochFrom(cfg: Config, env: Env, batches: seq<Option<Batch>>, i: nat)
    requires !cfg.fastDevRun && |batches| > cfg.nbTrainingBatches && i <= cfg.nbTrainingBatches
    requires forall j :: 0 <= j <= cfg.nbTrainingBatches ==> !SignalsStop(env, batches[j])
    ensures BatchesRunFrom(cfg, env, batches, i) == cfg.nbTrainingBatches + 1 - i
    decreases cfg.nbTrainingBatches - i
  {
    if i < cfg.nbTrainingBatches {
      FullEpochFrom(cfg, env, batches, i + 1);
    }
  }

  /**
   * The limit `batch_nb >= nb_training_batches` is reached only after batch number
   * `nb_training_batches` itself, so a loader with more batches runs
   * `nb_training_batches + 1` of them.
   */
  lemma OneBatchPastTheLimit(cfg: Config, env: Env, batches: seq<Option<Batch>>)
    requires !cfg.fastDevRun && |batches| > cfg.nbTrainingBatches
    requires forall j :: 0 <= j <= cfg.nbTrainingBatches ==> !SignalsStop(env, batches[j])
    ensures BatchesRunFrom(cfg, env, batches, 0) == cfg.nbTrainingBatches + 1
  {
    FullEpochFrom(cfg, env, batches, 0);
  }

  /** A fast dev run processes exactly one batch. */
  lemma FastDevRunOneBatch(cfg: Config, env: Env, batches: seq<Option<Batch>>)
    requires cfg.fastDevRun && |batches| > 0
    ensures BatchesRunFrom(cfg, env, batches, 0) == 1
  {
  }

  /** The sentinel ends the epoch right after its batch. */
  lemma SentinelEndsEpoch(cfg: Config, env: Env, batches: seq<Option<Batch>>, i: nat)
    requires i < |batches| && SignalsStop(env, batches[i])
    ensures BatchesRunFrom(cfg, env, batches, i) == 1
  {
  }

  /**
   * The calls after a batch follow the gating predicates: evaluation iff `RunsValidation`,
   * logger save iff `SavesLog`, metric logging iff `LogsMetrics`.
   */
  lemma AfterBatchGating(cfg: Config, batchNb: nat, epoch: int, out: BatchOutput)
    ensures var evs := AfterBatchEvents(cfg, batchNb, epoch, out);
      var stop := out.result == -1;
      && (Evaluation(cfg.testing) in evs <==> RunsValidation(cfg, batchNb, epoch, stop))
      && (LoggerSave in evs <==> SavesLog(cfg, batchNb, stop))
      && (LogMetrics(out.logMetrics, out.gradNorms) in evs <==> LogsMetrics(cfg, batchNb, stop))
      && |evs| <= 3
  {
  }

  /** `run_training_epoch` moves both step counters by the number of batches its loop processes. */
  lemma EpochRunCounters(cfg: Config, env: Env, s: TrainerState)
    requires cfg.Wf() && |s.accumulateCounters| == cfg.nbOptimizers
    ensures var r := EpochRun(cfg, env, s);
      var n := BatchesRunFrom(cfg, env, env.trainBatches(s.currentEpoch), 0);
      r.globalStep == s.globalStep + n && r.totalBatchNb == s.totalBatchNb + n
  {
    var s1 := if env.hooks.onEpochStart then s.(events := s.events + [EpochStartHook]) else s;
    EpochCounters(cfg, env, s1, env.trainBatches(s1.currentEpoch), 0);
  }

  /** One epoch of `train` never lowers `global_step`. */
  lemma EpochTurnCounters(cfg: Config, env: Env, s: TrainerState, epoch: int)
    requires cfg.Wf() && |s.accumulateCounters| == cfg.nbOptimizers
    ensures EpochTurn(cfg, env, s, epoch).0.globalStep >= s.globalStep
    ensures EpochTurn(cfg, env, s, epoch).0.totalBatchNb >= s.totalBatchNb
  {
    EpochRunCounters(cfg, env, BeginEpoch(cfg, env, s, epoch));
  }

  /** `global_step` and `total_batch_nb` never decrease over the epochs of `train`. */
  lemma {:induction false} EpochsCounters(cfg: Config, env: Env, s: TrainerState, epoch: int)
    requires cfg.Wf() && |s.accumulateCounters| == cfg.nbOptimizers
    ensures EpochsFrom(cfg, env, s, epoch).0.globalStep >= s.globalStep
    ensures EpochsFrom(cfg, env, s, epoch).0.totalBatchNb >= s.totalBatchNb
    decreases cfg.maxNbEpochs - epoch
  {
    if epoch < cfg.maxNbEpochs {
      var turn := EpochTurn(cfg, env, s, epoch);
      EpochTurnCounters(cfg, env, s, epoch);
      if !turn.1 {
        EpochsCounters(cfg, env, turn.0, epoch + 1);
      }
    }
  }

  /**
   * An epoch turn stops `train` exactly when early stopping is enabled, the minimum
   * epoch count is passed and the early-stop callback, asked for this epoch, answered
   * stop; a stop comes right after that answer.
   */
  lemma EpochTurnStop(cfg: Config, env: Env, s: TrainerState, epoch: int) returns (t: seq<Event>)
    requires cfg.Wf() && |s.accumulateCounters| == cfg.nbOptimizers
    ensures EpochTurn(cfg, env, s, epoch).0.events == s.events + t
    ensures EpochTurn(cfg, env, s, epoch).1
            <==> cfg.enableEarlyStop && epoch > cfg.minNbEpochs && EarlyStopQuery(epoch, true) in t
    ensures var turn := EpochTurn(cfg, env, s, epoch);
      turn.1 ==>
        && cfg.enableEarlyStop && epoch > cfg.minNbEpochs
        && |turn.0.events| >= 2 && turn.0.events[|turn.0.events| - 2] == EarlyStopQuery(epoch, true)
  {
    var work := EpochTurnWork(cfg, env, s, epoch);
    assert EarlyStopQuery(epoch, true) !in work;
    var s1 := EpochRun(cfg, env, BeginEpoch(cfg, env, s, epoch));
    var s2 := s1.(events := s1.events + LrStepEvents(cfg.nbLrSchedulers, s1.currentEpoch));
    t := work;
    if ConsultsEarlyStop(cfg, epoch) {
      var q := EarlyStopQuery(epoch, env.earlyStop(epoch, s2.callbackMetrics));
      var close := if HonoursStop(cfg, epoch, q.answer) then [ProgressClose] else [];
      Append3(s.events, work, [q] + close);
      t := work + ([q] + close);
      assert EarlyStopQuery(epoch, true) in t <==> q.answer;
    }
  }

  /** An epoch turn that stops `train` ends with closing the progress bar. */
  lemma EpochTurnCloses(cfg: Config, env: Env, s: TrainerState, epoch: int)
    requires cfg.Wf() && |s.accumulateCounters| == cfg.nbOptimizers
    ensures var turn := EpochTurn(cfg, env, s, epoch);
      turn.1 ==> |turn.0.events| > 0 && turn.0.events[|turn.0.events| - 1] == ProgressClose
  {
  }

  /**
   * An early return of the epoch loop comes from one epoch turn within the epoch range
   * that asked to stop; `t` is the state that turn started from.
   */
  lemma {:induction false} StoppingTurn(cfg: Config, env: Env, s: TrainerState, epoch: int) returns (t: TrainerState)
    requires cfg.Wf() && |s.accumulateCounters| == cfg.nbOptimizers
    ensures var r := EpochsFrom(cfg, env, s, epoch);
      r.1.EarlyStopped? ==>
        && |t.accumulateCounters| == cfg.nbOptimizers
        && epoch <= r.1.epoch < cfg.maxNbEpochs
        && EpochTurn(cfg, env, t, r.1.epoch) == (r.0, true)
    decreases cfg.maxNbEpochs - epoch
  {
    t := s;
    if epoch < cfg.maxNbEpochs {
      var turn := EpochTurn(cfg, env, s, epoch);
      if !turn.1 {
        assert EpochsFrom(cfg, env, s, epoch) == EpochsFrom(cfg, env, turn.0, epoch + 1);
        t := StoppingTurn(cfg, env, turn.0, epoch + 1);
      }
    }
  }

  /**
   * `train` returns early only in an epoch past `min_nb_epochs`, with early stopping
   * enabled, within the epoch range, right after the early-stop callback answered stop
   * for that epoch.
   */
  lemma EarlyStopRespectsMinEpochs(cfg: Config, env: Env, s: TrainerState, epoch: int)
    requires cfg.Wf() && |s.accumulateCounters| == cfg.nbOptimizers
    ensures var r := EpochsFrom(cfg, env, s, epoch);
      r.1.EarlyStopped? ==>
        && cfg.enableEarlyStop && r.1.epoch > cfg.minNbEpochs && epoch <= r.1.epoch < cfg.maxNbEpochs
        && |r.0.events| >= 2 && r.0.events[|r.0.events| - 2] == EarlyStopQuery(r.1.epoch, true)
  {
    var r := EpochsFrom(cfg, env, s, epoch);
    var t := StoppingTurn(cfg, env, s, epoch);
    if r.1.EarlyStopped? {
      var _ := EpochTurnStop(cfg, env, t, r.1.epoch);
    }
  }

  /** When `train` returns early, its last call closed the progress bar. */
  lemma EarlyStopCloses(cfg: Config, env: Env, s: TrainerState, epoch: int)
    requires cfg.Wf() && |s.accumulateCounters| == cfg.nbOptimizers
    ensures var r := EpochsFrom(cfg, env, s, epoch);
      r.1.EarlyStopped? ==> |r.0.events| > 0 && r.0.events[|r.0.events| - 1] == ProgressClose
  {
    var r := EpochsFrom(cfg, env, s, epoch);
    var t := StoppingTurn(cfg, env, s, epoch);
    if r.1.EarlyStopped? {
      EpochTurnCloses(cfg, env, t, r.1.epoch);
    }
  }

  /** Without early stopping, or when no epoch passes `min_nb_epochs`, every epoch runs and training completes. */
  lemma CompletesWithoutEarlyStop(cfg: Config, env: Env, s: TrainerState)
    requires cfg.Wf() && |s.accumulateCounters| == cfg.nbOptimizers
    requires !cfg.enableEarlyStop || cfg.maxNbEpochs <= cfg.minNbEpochs + 1
    ensures Training(cfg, env, s).1 == Completed
  {
    EarlyStopRespectsMinEpochs(cfg, env, s, s.currentEpoch);
  }

  /**
   * `train` calls `logger.finalize("success")` at all exactly when training completed
   * and a logger is configured, and then as its last call; on completion the progress
   * bar is closed and the logger finalised after everything else.
   */
  lemma FinalizeOnlyOnCompletion(cfg: Config, env: Env, s: TrainerState)
    requires cfg.Wf() && |s.accumulateCounters| == cfg.nbOptimizers
    ensures var r := Training(cfg, env, s);
      && |r.0.events| > 0
      && (LoggerFinalize("success") in r.0.events[|s.events|..] <==> r.1 == Completed && cfg.hasLogger)
      && (r.0.events[|r.0.events| - 1] == LoggerFinalize("success") <==> r.1 == Completed && cfg.hasLogger)
      && (r.1 == Completed ==> exists prefix :: r.0.events == prefix + CompletionEvents(cfg))
  {
    var run := EpochsFrom(cfg, env, s, s.currentEpoch);
    var t := EpochsFromEvents(cfg, env, s, s.currentEpoch);
    var fin := LoggerFinalize("success");
    EarlyStopCloses(cfg, env, s, s.currentEpoch);
    if run.1.Completed? {
      var r := Training(cfg, env, s);
      assert r.0.events == run.0.events + CompletionEvents(cfg);
      Append3(s.events, t, CompletionEvents(cfg));
      SuffixAfter(s.events, t + CompletionEvents(cfg));
      assert fin in t + CompletionEvents(cfg) <==> cfg.hasLogger;
    } else {
      SuffixAfter(s.events, t);
    }
  }

  /** `train` never lowers `global_step` or `total_batch_nb`. */
  lemma TrainingCounters(cfg: Config, env: Env, s: TrainerState)
    requires cfg.Wf() && |s.accumulateCounters| == cfg.nbOptimizers
    ensures Training(cfg, env, s).0.globalStep >= s.globalStep
    ensures Training(cfg, env, s).0.totalBatchNb >= s.totalBatchNb
  {
    EpochsCounters(cfg, env, s, s.currentEpoch);
  }

  /** One iteration of the batch loop makes work calls only. */
  lemma BatchStepEvents(cfg: Config, env: Env, s: TrainerState, batch: Option<Batch>, i: nat) returns (t: seq<Event>)
    requires cfg.Wf() && |s.accumulateCounters| == cfg.nbOptimizers
    ensures BatchStep(cfg, env, s, batch, i).0.events == s.events + t
    ensures forall e :: e in t ==> WorkEvent(e)
  {
    var b := BatchRun(cfg, env, s.(batchNb := i), batch, i);
    var run := BatchRunEvents(cfg, env, s.(batchNb := i), batch, i);
    var after := AfterBatchEvents(cfg, i, b.0.currentEpoch, b.1);
    Append3(s.events, run, after);
    t := run + after;
  }

  /** The batch loop of an epoch makes work calls only. */
  lemma {:induction false} EpochFromEvents(cfg: Config, env: Env, s: TrainerState, batches: seq<Option<Batch>>, i: nat)
    returns (t: seq<Event>)
    requires cfg.Wf() && |s.accumulateCounters| == cfg.nbOptimizers && i <= |batches|
    ensures EpochFrom(cfg, env, s, batches, i).events == s.events + t
    ensures forall e :: e in t ==> WorkEvent(e)
    decreases |batches| - i
  {
    t := [];
    if i < |batches| {
      var step := BatchStep(cfg, env, s, batches[i], i);
      t := BatchStepEvents(cfg, env, s, batches[i], i);
      if !EndsEpoch(cfg, i, step.1.result == -1) {
        var rest := EpochFromEvents(cfg, env, step.0, batches, i + 1);
        Append3(s.events, t, rest);
        t := t + rest;
      }
    }
  }

  /** `run_training_epoch` makes work calls only: hooks, batches, evaluation, logging. */
  lemma EpochRunEvents(cfg: Config, env: Env, s: TrainerState) returns (t: seq<Event>)
    requires cfg.Wf() && |s.accumulateCounters| == cfg.nbOptimizers
    ensures EpochRun(cfg, env, s).events == s.events + t
    ensures forall e :: e in t ==> WorkEvent(e)
  {
    var pre := if env.hooks.onEpochStart then [EpochStartHook] else [];
    var post := if env.hooks.onEpochEnd then [EpochEndHook] else [];
    var s1 := if env.hooks.onEpochStart then s.(events := s.events + [EpochStartHook]) else s;
    assert s1.events == s.events + pre;
    var loop := EpochFromEvents(cfg, env, s1, env.trainBatches(s1.currentEpoch), 0);
    assert EpochRun(cfg, env, s).events == s1.events + loop + post;
    Regroup(s.events, pre, loop, post);
    t := pre + loop + post;
  }

  /** The calls of one epoch of `train` before the early-stop decision: none of them is the query or a finalisation. */
  lemma EpochTurnWork(cfg: Config, env: Env, s: TrainerState, epoch: int) returns (t: seq<Event>)
    requires cfg.Wf() && |s.accumulateCounters| == cfg.nbOptimizers
    ensures var s1 := EpochRun(cfg, env, BeginEpoch(cfg, env, s, epoch));
      s1.events + LrStepEvents(cfg.nbLrSchedulers, s1.currentEpoch) == s.events + t
    ensures forall e :: e in t ==> !e.EarlyStopQuery? && !e.LoggerFinalize?
  {
    var b := BeginEpoch(cfg, env, s, epoch);
    var pre := if cfg.progressBarDisabled then [] else [ProgressReset(NbIterations(cfg, epoch))];
    assert b.events == s.events + pre;
    var s1 := EpochRun(cfg, env, b);
    var run := EpochRunEvents(cfg, env, b);
    var lr := LrStepEvents(cfg.nbLrSchedulers, s1.currentEpoch);
    Regroup(s.events, pre, run, lr);
    t := pre + run + lr;
    forall e | e in t
      ensures !e.EarlyStopQuery? && !e.LoggerFinalize?
    {
      if e in lr {
        var k :| 0 <= k < |lr| && lr[k] == e;
      }
    }
  }

  /**
   * One epoch of `train` asks the early-stop callback exactly when `ConsultsEarlyStop`
   * holds, and never finalises the logger.
   */
  lemma EpochTurnEvents(cfg: Config, env: Env, s: TrainerState, epoch: int) returns (t: seq<Event>)
    requires cfg.Wf() && |s.accumulateCounters| == cfg.nbOptimizers
    ensures EpochTurn(cfg, env, s, epoch).0.events == s.events + t
    ensures (exists e :: e in t && e.EarlyStopQuery?) <==> ConsultsEarlyStop(cfg, epoch)
    ensures forall e :: e in t ==> !e.LoggerFinalize?
  {
    var work := EpochTurnWork(cfg, env, s, epoch);
    var s1 := EpochRun(cfg, env, BeginEpoch(cfg, env, s, epoch));
    var s2 := s1.(events := s1.events + LrStepEvents(cfg.nbLrSchedulers, s1.currentEpoch));
    t := work;
    if ConsultsEarlyStop(cfg, epoch) {
      var q := EarlyStopQuery(epoch, env.earlyStop(epoch, s2.callbackMetrics));
      var close := if HonoursStop(cfg, epoch, q.answer) then [ProgressClose] else [];
      Append3(s.events, work, [q] + close);
      t := work + ([q] + close);
      assert q in t;
    }
  }

  /** The epoch loop of `train` never finalises the logger. */
  lemma {:induction false} EpochsFromEvents(cfg: Config, env: Env, s: TrainerState, epoch: int) returns (t: seq<Event>)
    requires cfg.Wf() && |s.accumulateCounters| == cfg.nbOptimizers
    ensures EpochsFrom(cfg, env, s, epoch).0.events == s.events + t
    ensures forall e :: e in t ==> !e.LoggerFinalize?
    decreases cfg.maxNbEpochs - epoch
  {
    t := [];
    if epoch < cfg.maxNbEpochs {
      var turn := EpochTurn(cfg, env, s, epoch);
      t := EpochTurnEvents(cfg, env, s, epoch);
      if !turn.1 {
        assert EpochsFrom(cfg, env, s, epoch) == EpochsFrom(cfg, env, turn.0, epoch + 1);
        var rest := EpochsFromEvents(cfg, env, turn.0, epoch + 1);
        Append3(s.events, t, rest);
        t := t + rest;
      }
    }
  }

  /**
   * Reference count of the batches from `i` on that reach the closure: the batches the
   * loop processes that are present and not refused by the batch-start hook.
   */
  function ClosureBatchesFrom(cfg: Config, env: Env, batches: seq<Option<Batch>>, i: nat): (n: nat)
    requires i <= |batches|
    ensures n <= BatchesRunFrom(cfg, env, batches, i)
    decreases |batches| - i
  {
    if i == |batches| then 0
    else
      var here := if batches[i].Some? && !SignalsStop(env, batches[i]) then 1 else 0;
      if EndsEpoch(cfg, i, SignalsStop(env, batches[i])) then here
      else here + ClosureBatchesFrom(cfg, env, batches, i + 1)
  }

  /**
   * One batch in the plain accumulation setting without extra closure calls: a batch
   * that reaches the closure moves the counter from the reference value after `n` calls
   * to the one after `n + 1`, and the batch's own calls include `optimizer_step` exactly
   * when it reaches the closure and `n + 1` is a multiple of `accumulate_grad_batches`.
   */
  lemma BatchStepAccumulates(cfg: Config, env: Env, s: TrainerState, batch: Option<Batch>, i: nat, n: nat)
    requires cfg.Wf() && PlainAccumulation(cfg, env) && |s.accumulateCounters| == 1
    requires env.reEvaluations(s.currentEpoch, i, 0, 0) == 0
    requires s.accumulateCounters[0] == SlotAfterCalls(n, s.accumulateGradBatches)
    ensures var r := BatchStep(cfg, env, s, batch, i);
      var ran := batch.Some? && !SignalsStop(env, batch);
      && r.0.accumulateCounters[0] == SlotAfterCalls(if ran then n + 1 else n, s.accumulateGradBatches)
      && (OptimizerStep(s.currentEpoch, i, 0) in r.0.events[|s.events|..]
          <==> ran && (n + 1) % s.accumulateGradBatches == 0)
  {
    var s0 := s.(batchNb := i);
    var b := BatchRun(cfg, env, s0, batch, i);
    var after := AfterBatchEvents(cfg, i, b.0.currentEpoch, b.1);
    var r := BatchStep(cfg, env, s, batch, i);
    var step := OptimizerStep(s.currentEpoch, i, 0);
    assert r.0.events == b.0.events + after;
    assert step !in after;
    if batch.Some? && !SignalsStop(env, batch) {
      var pre := if env.hooks.onBatchStart.Some? then [BatchStartHook] else [];
      var s1 := if env.hooks.onBatchStart.Some? then s0.(events := s0.events + [BatchStartHook]) else s0;
      assert s1.events == s.events + pre;
      var work := BatchAccumulates(cfg, env, s1, batch.value, i, n);
      BatchRunShape(cfg, env, s0, batch.value, i);
      var post := if env.hooks.onBatchEnd then [BatchEndHook] else [];
      Regroup(s.events, pre, work, post);
      Append3(s.events, pre + work + post, after);
      SuffixAfter(s.events, pre + work + post + after);
      assert step in pre + work + post + after <==> step in work;
    } else {
      EarlyReturns(cfg, env, s0, batch, i);
      var pre := if batch.None? then [] else [BatchStartHook];
      Append3(s.events, pre, after);
      SuffixAfter(s.events, pre + after);
    }
  }

  /**
   * Over the batch loop of an epoch, in the plain accumulation setting without extra
   * closure calls, the counter advances exactly as the reference counter does once for
   * each batch that reaches the closure.
   */
  lemma {:induction false} EpochAccumulates(cfg: Config, env: Env, s: TrainerState, batches: seq<Option<Batch>>, i: nat, n: nat)
    requires cfg.Wf() && PlainAccumulation(cfg, env) && |s.accumulateCounters| == 1 && i <= |batches|
    requires forall b :: env.reEvaluations(s.currentEpoch, b, 0, 0) == 0
    requires s.accumulateCounters[0] == SlotAfterCalls(n, s.accumulateGradBatches)
    ensures EpochFrom(cfg, env, s, batches, i).accumulateCounters[0]
            == SlotAfterCalls(n + ClosureBatchesFrom(cfg, env, batches, i), s.accumulateGradBatches)
    decreases |batches| - i
  {
    if i < |batches| {
      var step := BatchStep(cfg, env, s, batches[i], i);
      BatchStepAccumulates(cfg, env, s, batches[i], i, n);
      BatchStepCounters(cfg, env, s, batches[i], i);
      var m := if batches[i].Some? && !SignalsStop(env, batches[i]) then n + 1 else n;
      if !EndsEpoch(cfg, i, step.1.result == -1) {
        EpochAccumulates(cfg, env, step.0, batches, i + 1, m);
      }
    }
  }
}
