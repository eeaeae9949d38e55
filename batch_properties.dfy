/**
 * What `run_training_batch` and its closure promise, stated about the functions of
 * TrainSpec (and so, through the method contracts, about the trainer).
 */
module BatchProperties {
  import opened Wrappers
  import opened Types
  import opened MetricMerge
  import opened LossWindow
  import opened Accumulation
  import opened ForwardDispatch
  import opened TrainSpec

  /** The ratio a closure call adds to its optimizer's counter. */
  function CallRatio(cfg: Config, env: Env, s: TrainerState, split: Batch, batchNb: nat, optIdx: nat): real
    requires cfg.Wf()
  {
    EfficiencyRatio(ForwardOutput(env, ForwardCallOf(cfg, env, split, batchNb, optIdx, s.hiddens)).callbackMetrics)
  }

  /** The batch result is the sentinel -1 exactly when the batch-start hook answers -1, and 0 otherwise. */
  lemma BatchResultCode(cfg: Config, env: Env, s: TrainerState, batch: Option<Batch>, batchNb: nat)
    requires cfg.Wf() && |s.accumulateCounters| == cfg.nbOptimizers
    ensures BatchRun(cfg, env, s, batch, batchNb).1.result == if SignalsStop(env, batch) then -1 else 0
  {
  }

  /**
   * The two early returns: a missing batch changes nothing and yields `(0, {}, {})`; a
   * batch refused by the hook only records the hook call and yields `(-1, {}, {})`.
   * Neither calls forward or backward, touches a counter, the loss or the hidden state.
   */
  lemma EarlyReturns(cfg: Config, env: Env, s: TrainerState, batch: Option<Batch>, batchNb: nat)
    requires cfg.Wf() && |s.accumulateCounters| == cfg.nbOptimizers
    requires batch.None? || SignalsStop(env, batch)
    ensures var r := BatchRun(cfg, env, s, batch, batchNb);
      && r.1 == BatchOutput(if batch.None? then 0 else -1, map[], map[])
      && r.0 == if batch.None? then s else s.(events := s.events + [BatchStartHook])
  {
  }

  /**
   * One closure call changes only its own optimizer's counter, by the call's ratio; it
   * makes the forward call, hands backward the step loss scaled by
   * `ratio / accumulate_grad_batches` (the loss it also returns), reports the progress
   * metrics and calls the after-backward hook when there is one, in that order.
   */
  lemma ClosureCounter(cfg: Config, env: Env, s: TrainerState, logs: seq<MetricMap>, callbacks: seq<MetricMap>,
                       split: Batch, batchNb: nat, optIdx: nat)
    requires cfg.Wf() && optIdx < |s.accumulateCounters|
    ensures var c := Closure(cfg, env, s, logs, callbacks, split, batchNb, optIdx);
      var ratio := CallRatio(cfg, env, s, split, batchNb, optIdx);
      var out := ForwardOutput(env, ForwardCallOf(cfg, env, split, batchNb, optIdx, s.hiddens));
      && c.s.accumulateCounters[optIdx] == s.accumulateCounters[optIdx] + ratio
      && (forall j :: 0 <= j < |s.accumulateCounters| && j != optIdx ==> c.s.accumulateCounters[j] == s.accumulateCounters[j])
      && c.loss * (s.accumulateGradBatches as real) == out.loss * ratio
      && c.s.events == s.events + [Forward(ForwardCallOf(cfg, env, split, batchNb, optIdx, s.hiddens)),
                                   Backward(optIdx, c.loss), ProgressMetrics(out.progressMetrics)]
                                + (if env.hooks.onAfterBackward then [AfterBackwardHook] else [])
      && c.s.hiddens == out.hiddens
      && c.logs == logs + [out.logMetrics] && c.callbacks == callbacks + [out.callbackMetrics]
  {
    var ratio := CallRatio(cfg, env, s, split, batchNb, optIdx);
    var out := ForwardOutput(env, ForwardCallOf(cfg, env, split, batchNb, optIdx, s.hiddens));
    var k := s.accumulateGradBatches as real;
    assert out.loss * (ratio / k) * k == out.loss * ratio;
  }

  /** The loss bookkeeping of an optimizer step, whatever the closure calls `optimizer_step` makes. */
  lemma StepTakenLoss(cfg: Config, env: Env, w: Work, split: Batch, batchNb: nat, optIdx: nat)
    requires cfg.Wf() && optIdx < |w.s.accumulateCounters|
    ensures var r := StepTaken(cfg, env, w, split, batchNb, optIdx);
      && r.s.runningLoss == w.s.runningLoss + [w.s.batchLossValue]
      && r.s.batchLossValue == 0.0
      && r.s.avgLoss == Mean(Window(r.s.runningLoss))
  {
  }

  /** An optimizer step without extra closure calls: counter reset, clip and step recorded, loss recorded. */
  lemma StepTakenAlone(cfg: Config, env: Env, w: Work, split: Batch, batchNb: nat, optIdx: nat)
    requires cfg.Wf() && optIdx < |w.s.accumulateCounters|
    requires env.reEvaluations(w.s.currentEpoch, batchNb, w.s.splitNb, optIdx) == 0
    ensures var r := StepTaken(cfg, env, w, split, batchNb, optIdx);
      && r.s.accumulateCounters == w.s.accumulateCounters[optIdx := 0.0]
      && r.s.events == w.s.events + [ClipGradients, OptimizerStep(w.s.currentEpoch, batchNb, optIdx)]
  {
  }

  /**
   * The loss bookkeeping of one optimizer pass, however often `optimizer_step` calls the
   * closure again: when the counter is due the accumulated `batch_loss_value` (with this
   * call's loss) is appended to `running_loss`, zeroed, and `avg_loss` becomes the mean
   * of the last (at most 100) entries; otherwise the loss is only added up.
   */
  lemma PassLoss(cfg: Config, env: Env, w: Work, split: Batch, batchNb: nat, optIdx: nat)
    requires cfg.Wf() && optIdx < |w.s.accumulateCounters|
    ensures var c := Closure(cfg, env, w.s, w.logs, w.callbacks, split, batchNb, optIdx);
      var r := Pass(cfg, env, w, split, batchNb, optIdx);
      var due := w.s.accumulateCounters[optIdx] + CallRatio(cfg, env, w.s, split, batchNb, optIdx)
                 >= w.s.accumulateGradBatches as real;
      if due then
        && r.s.runningLoss == w.s.runningLoss + [w.s.batchLossValue + c.loss]
        && r.s.batchLossValue == 0.0
        && r.s.avgLoss == Mean(Window(r.s.runningLoss))
      else
        && r.s.runningLoss == w.s.runningLoss
        && r.s.batchLossValue == w.s.batchLossValue + c.loss
        && r.s.avgLoss == w.s.avgLoss
  {
    ClosureCounter(cfg, env, w.s, w.logs, w.callbacks, split, batchNb, optIdx);
    if w.s.accumulateCounters[optIdx] + CallRatio(cfg, env, w.s, split, batchNb, optIdx) >= w.s.accumulateGradBatches as real {
      PassStepLoss(cfg, env, w, split, batchNb, optIdx);
    }
  }

  /** The due branch of a pass: the step records the loss accumulated with this call's loss. */
  lemma PassStepLoss(cfg: Config, env: Env, w: Work, split: Batch, batchNb: nat, optIdx: nat)
    requires cfg.Wf() && optIdx < |w.s.accumulateCounters|
    requires w.s.accumulateCounters[optIdx] + CallRatio(cfg, env, w.s, split, batchNb, optIdx)
             >= w.s.accumulateGradBatches as real
    ensures var c := Closure(cfg, env, w.s, w.logs, w.callbacks, split, batchNb, optIdx);
      var r := Pass(cfg, env, w, split, batchNb, optIdx);
      && r.s.runningLoss == w.s.runningLoss + [w.s.batchLossValue + c.loss]
      && r.s.batchLossValue == 0.0
      && r.s.avgLoss == Mean(Window(r.s.runningLoss))
  {
    var c := Closure(cfg, env, w.s, w.logs, w.callbacks, split, batchNb, optIdx);
    ClosureCounter(cfg, env, w.s, w.logs, w.callbacks, split, batchNb, optIdx);
    var w1 := Work(AccountLoss(cfg, c), c.logs, c.callbacks, w.gradNorms);
    assert StepDue(w1.s, optIdx);
    assert Pass(cfg, env, w, split, batchNb, optIdx) == StepTaken(cfg, env, w1, split, batchNb, optIdx);
    StepTakenLoss(cfg, env, w1, split, batchNb, optIdx);
    assert w1.s.runningLoss + [w1.s.batchLossValue] == w.s.runningLoss + [w.s.batchLossValue + c.loss];
  }

  /**
   * When `optimizer_step` does not call the closure again, the counter after a pass is
   * the reference `CounterAfterPass` of Accumulation and the other optimizers' counters
   * are untouched.
   */
  lemma PassCounter(cfg: Config, env: Env, w: Work, split: Batch, batchNb: nat, optIdx: nat)
    requires cfg.Wf() && optIdx < |w.s.accumulateCounters|
    requires env.reEvaluations(w.s.currentEpoch, batchNb, w.s.splitNb, optIdx) == 0
    ensures var r := Pass(cfg, env, w, split, batchNb, optIdx);
      var ratio := CallRatio(cfg, env, w.s, split, batchNb, optIdx);
      && r.s.accumulateCounters[optIdx] == CounterAfterPass(w.s.accumulateCounters[optIdx], ratio, w.s.accumulateGradBatches)
      && (forall j :: 0 <= j < |w.s.accumulateCounters| && j != optIdx ==> r.s.accumulateCounters[j] == w.s.accumulateCounters[j])
  {
    var c := Closure(cfg, env, w.s, w.logs, w.callbacks, split, batchNb, optIdx);
    ClosureCounter(cfg, env, w.s, w.logs, w.callbacks, split, batchNb, optIdx);
    var w1 := Work(AccountLoss(cfg, c), c.logs, c.callbacks, w.gradNorms);
    assert w1.s.accumulateCounters == c.s.accumulateCounters;
    if StepDue(w1.s, optIdx) {
      StepTakenAlone(cfg, env, w1, split, batchNb, optIdx);
    }
  }

  /**
   * A pass takes an optimizer step exactly when the counter plus this call's ratio
   * reaches `accumulate_grad_batches`, however often `optimizer_step` calls the closure
   * again: those calls add no optimizer step of their own.
   */
  lemma PassStepTaken(cfg: Config, env: Env, w: Work, split: Batch, batchNb: nat, optIdx: nat)
    requires cfg.Wf() && optIdx < |w.s.accumulateCounters|
    ensures var r := Pass(cfg, env, w, split, batchNb, optIdx);
      OptimizerStep(w.s.currentEpoch, batchNb, optIdx) in r.s.events[|w.s.events|..]
      <==> PassSteps(w.s.accumulateCounters[optIdx], CallRatio(cfg, env, w.s, split, batchNb, optIdx), w.s.accumulateGradBatches)
  {
    var c := Closure(cfg, env, w.s, w.logs, w.callbacks, split, batchNb, optIdx);
    ClosureCounter(cfg, env, w.s, w.logs, w.callbacks, split, batchNb, optIdx);
    var tail := ClosureTail(cfg, env, w.s, w.logs, w.callbacks, split, batchNb, optIdx);
    var w1 := Work(AccountLoss(cfg, c), c.logs, c.callbacks, w.gradNorms);
    var step := OptimizerStep(w.s.currentEpoch, batchNb, optIdx);
    var r := Pass(cfg, env, w, split, batchNb, optIdx);
    var due := StepDue(w1.s, optIdx);
    var extra := [];
    if due {
      var re := StepTakenEvents(cfg, env, w1, split, batchNb, optIdx);
      extra := [ClipGradients, step] + re;
    }
    assert r.s.events == w.s.events + (tail + extra);
    SuffixAfter(w.s.events, tail + extra);
    assert step in tail + extra <==> step in extra;
    assert step in extra <==> due;
  }

  /**
   * The hidden state is threaded through the passes: a pass makes its forward call with
   * the current `hiddens`, and when `optimizer_step` does not call the closure again the
   * pass leaves the hidden state that call returned, for the next pass to use.
   */
  lemma PassHiddens(cfg: Config, env: Env, w: Work, split: Batch, batchNb: nat, optIdx: nat)
    requires cfg.Wf() && optIdx < |w.s.accumulateCounters|
    requires env.reEvaluations(w.s.currentEpoch, batchNb, w.s.splitNb, optIdx) == 0
    ensures var call := ForwardCallOf(cfg, env, split, batchNb, optIdx, w.s.hiddens);
      var r := Pass(cfg, env, w, split, batchNb, optIdx);
      && |r.s.events| > |w.s.events| && r.s.events[|w.s.events|] == Forward(call)
      && r.s.hiddens == ForwardOutput(env, call).hiddens
  {
    var c := Closure(cfg, env, w.s, w.logs, w.callbacks, split, batchNb, optIdx);
    ClosureCounter(cfg, env, w.s, w.logs, w.callbacks, split, batchNb, optIdx);
    var tail := ClosureTail(cfg, env, w.s, w.logs, w.callbacks, split, batchNb, optIdx);
    var w1 := Work(AccountLoss(cfg, c), c.logs, c.callbacks, w.gradNorms);
    assert w1.s.hiddens == c.s.hiddens;
    assert w1.s.events[|w.s.events|] == tail[0];
    if StepDue(w1.s, optIdx) {
      StepTakenAlone(cfg, env, w1, split, batchNb, optIdx);
    }
  }

  /** The events a closure call and the NaN check add: none of them is an optimizer step. */
  lemma ClosureTail(cfg: Config, env: Env, s: TrainerState, logs: seq<MetricMap>, callbacks: seq<MetricMap>,
                    split: Batch, batchNb: nat, optIdx: nat) returns (tail: seq<Event>)
    requires cfg.Wf() && optIdx < |s.accumulateCounters|
    ensures AccountLoss(cfg, Closure(cfg, env, s, logs, callbacks, split, batchNb, optIdx)).events == s.events + tail
    ensures forall e :: e in tail ==> !e.OptimizerStep? && WorkEvent(e)
  {
    var c := Closure(cfg, env, s, logs, callbacks, split, batchNb, optIdx);
    var call := ForwardCallOf(cfg, env, split, batchNb, optIdx, s.hiddens);
    var out := ForwardOutput(env, call);
    var hook := if env.hooks.onAfterBackward then [AfterBackwardHook] else [];
    var nan := if cfg.printNanGrads then [NanGradientReport] else [];
    tail := [Forward(call), Backward(optIdx, c.loss), ProgressMetrics(out.progressMetrics)] + hook + nan;
  }

  lemma SuffixAfter<T>(a: seq<T>, b: seq<T>)
    ensures (a + b)[|a|..] == b
  {
  }

  /** A call a closure call makes: forward, backward, the progress metrics, the after-backward hook. */
  predicate ClosureEvent(e: Event) {
    e.Forward? || e.Backward? || e.ProgressMetrics? || e.AfterBackwardHook?
  }

  /**
   * A call the work of an epoch can make: anything but the early-stop query, closing
   * the progress bar and finalising the logger, which only `train` itself makes.
   */
  predicate WorkEvent(e: Event) {
    !e.EarlyStopQuery? && !e.ProgressClose? && !e.LoggerFinalize?
  }

  /** The closure calls `optimizer_step` makes add closure events only, and so no optimizer step. */
  lemma {:induction false} ReEvaluateEvents(cfg: Config, env: Env, w: Work, split: Batch, batchNb: nat, optIdx: nat, n: nat)
    returns (t: seq<Event>)
    requires cfg.Wf() && optIdx < |w.s.accumulateCounters|
    ensures ReEvaluate(cfg, env, w, split, batchNb, optIdx, n).s.events == w.s.events + t
    ensures forall e :: e in t ==> ClosureEvent(e)
    decreases n
  {
    t := [];
    if n > 0 {
      var c := Closure(cfg, env, w.s, w.logs, w.callbacks, split, batchNb, optIdx);
      ClosureCounter(cfg, env, w.s, w.logs, w.callbacks, split, batchNb, optIdx);
      var out := ForwardOutput(env, ForwardCallOf(cfg, env, split, batchNb, optIdx, w.s.hiddens));
      var head := [Forward(ForwardCallOf(cfg, env, split, batchNb, optIdx, w.s.hiddens)),
                   Backward(optIdx, c.loss), ProgressMetrics(out.progressMetrics)]
                + (if env.hooks.onAfterBackward then [AfterBackwardHook] else []);
      var rest := ReEvaluateEvents(cfg, env, Work(c.s, c.logs, c.callbacks, w.gradNorms), split, batchNb, optIdx, n - 1);
      Append3(w.s.events, head, rest);
      t := head + rest;
    }
  }

  /**
   * Each closure call `optimizer_step` makes appends one log and one callback dictionary
   * and leaves every other optimizer's counter alone.
   */
  lemma {:induction false} ReEvaluateCalls(cfg: Config, env: Env, w: Work, split: Batch, batchNb: nat, optIdx: nat, n: nat)
    requires cfg.Wf() && optIdx < |w.s.accumulateCounters|
    ensures var r := ReEvaluate(cfg, env, w, split, batchNb, optIdx, n);
      && |r.logs| == |w.logs| + n && |r.callbacks| == |w.callbacks| + n
      && r.logs[..|w.logs|] == w.logs && r.callbacks[..|w.callbacks|] == w.callbacks
      && (forall j :: 0 <= j < |w.s.accumulateCounters| && j != optIdx ==> r.s.accumulateCounters[j] == w.s.accumulateCounters[j])
    decreases n
  {
    if n > 0 {
      var c := Closure(cfg, env, w.s, w.logs, w.callbacks, split, batchNb, optIdx);
      ClosureCounter(cfg, env, w.s, w.logs, w.callbacks, split, batchNb, optIdx);
      ReEvaluateCalls(cfg, env, Work(c.s, c.logs, c.callbacks, w.gradNorms), split, batchNb, optIdx, n - 1);
    }
  }

  /** In the plain setting each closure call `optimizer_step` makes adds 1.0 to the optimizer's counter. */
  lemma {:induction false} ReEvaluatePlainCounter(cfg: Config, env: Env, w: Work, split: Batch, batchNb: nat, optIdx: nat, n: nat)
    requires cfg.Wf() && optIdx < |w.s.accumulateCounters| && PlainAccumulation(cfg, env)
    ensures ReEvaluate(cfg, env, w, split, batchNb, optIdx, n).s.accumulateCounters[optIdx]
            == w.s.accumulateCounters[optIdx] + n as real
    decreases n
  {
    if n > 0 {
      var c := Closure(cfg, env, w.s, w.logs, w.callbacks, split, batchNb, optIdx);
      ClosureCounter(cfg, env, w.s, w.logs, w.callbacks, split, batchNb, optIdx);
      ReEvaluatePlainCounter(cfg, env, Work(c.s, c.logs, c.callbacks, w.gradNorms), split, batchNb, optIdx, n - 1);
    }
  }

  /**
   * An optimizer step with `n` extra closure calls: the counter is reset before those
   * calls, so each of them adds to it again (the counter ends at `n`, not 0.0, in the
   * plain setting), each appends one log and one callback dictionary, and the other
   * optimizers' counters stay.
   */
  lemma StepTakenCalls(cfg: Config, env: Env, w: Work, split: Batch, batchNb: nat, optIdx: nat)
    requires cfg.Wf() && optIdx < |w.s.accumulateCounters|
    ensures var r := StepTaken(cfg, env, w, split, batchNb, optIdx);
      var n := env.reEvaluations(w.s.currentEpoch, batchNb, w.s.splitNb, optIdx);
      && |r.logs| == |w.logs| + n && |r.callbacks| == |w.callbacks| + n
      && r.logs[..|w.logs|] == w.logs && r.callbacks[..|w.callbacks|] == w.callbacks
      && (forall j :: 0 <= j < |w.s.accumulateCounters| && j != optIdx ==> r.s.accumulateCounters[j] == w.s.accumulateCounters[j])
      && (PlainAccumulation(cfg, env) ==> r.s.accumulateCounters[optIdx] == n as real)
  {
    var n := env.reEvaluations(w.s.currentEpoch, batchNb, w.s.splitNb, optIdx);
    var gradNorms := if batchNb % cfg.rowLogInterval == 0 && cfg.trackGradNorm > 0
                     then env.gradNorm(cfg.trackGradNorm, w.s.currentEpoch, batchNb, w.s.splitNb, optIdx) else w.gradNorms;
    var s2 := w.s.(accumulateCounters := w.s.accumulateCounters[optIdx := 0.0],
                   events := w.s.events + [ClipGradients, OptimizerStep(w.s.currentEpoch, batchNb, optIdx)]);
    var w2 := Work(s2, w.logs, w.callbacks, gradNorms);
    ReEvaluateCalls(cfg, env, w2, split, batchNb, optIdx, n);
    if PlainAccumulation(cfg, env) {
      ReEvaluatePlainCounter(cfg, env, w2, split, batchNb, optIdx, n);
    }
  }

  /**
   * The calls of an optimizer step: clip, `optimizer_step`, then only the closure calls
   * `optimizer_step` chooses to make.
   */
  lemma StepTakenEvents(cfg: Config, env: Env, w: Work, split: Batch, batchNb: nat, optIdx: nat)
    returns (re: seq<Event>)
    requires cfg.Wf() && optIdx < |w.s.accumulateCounters|
    ensures StepTaken(cfg, env, w, split, batchNb, optIdx).s.events
            == w.s.events + [ClipGradients, OptimizerStep(w.s.currentEpoch, batchNb, optIdx)] + re
    ensures forall e :: e in re ==> ClosureEvent(e)
  {
    var gradNorms := if batchNb % cfg.rowLogInterval == 0 && cfg.trackGradNorm > 0
                     then env.gradNorm(cfg.trackGradNorm, w.s.currentEpoch, batchNb, w.s.splitNb, optIdx) else w.gradNorms;
    var s2 := w.s.(accumulateCounters := w.s.accumulateCounters[optIdx := 0.0],
                   events := w.s.events + [ClipGradients, OptimizerStep(w.s.currentEpoch, batchNb, optIdx)]);
    re := ReEvaluateEvents(cfg, env, Work(s2, w.logs, w.callbacks, gradNorms), split, batchNb, optIdx,
                           env.reEvaluations(w.s.currentEpoch, batchNb, w.s.splitNb, optIdx));
  }

  /** An optimizer pass makes work calls only. */
  lemma PassEvents(cfg: Config, env: Env, w: Work, split: Batch, batchNb: nat, optIdx: nat) returns (t: seq<Event>)
    requires cfg.Wf() && optIdx < |w.s.accumulateCounters|
    ensures Pass(cfg, env, w, split, batchNb, optIdx).s.events == w.s.events + t
    ensures forall e :: e in t ==> WorkEvent(e)
  {
    var tail := ClosureTail(cfg, env, w.s, w.logs, w.callbacks, split, batchNb, optIdx);
    var more := PassStepEvents(cfg, env, w, split, batchNb, optIdx);
    Append3(w.s.events, tail, more);
    t := tail + more;
  }

  /** What a pass adds after the closure call and the NaN check: nothing, or a step with its closure calls. */
  lemma PassStepEvents(cfg: Config, env: Env, w: Work, split: Batch, batchNb: nat, optIdx: nat) returns (more: seq<Event>)
    requires cfg.Wf() && optIdx < |w.s.accumulateCounters|
    ensures Pass(cfg, env, w, split, batchNb, optIdx).s.events
            == AccountLoss(cfg, Closure(cfg, env, w.s, w.logs, w.callbacks, split, batchNb, optIdx)).events + more
    ensures forall e :: e in more ==> WorkEvent(e)
  {
    var c := Closure(cfg, env, w.s, w.logs, w.callbacks, split, batchNb, optIdx);
    var w1 := Work(AccountLoss(cfg, c), c.logs, c.callbacks, w.gradNorms);
    more := [];
    if StepDue(w1.s, optIdx) {
      var re := StepTakenEvents(cfg, env, w1, split, batchNb, optIdx);
      var step := [ClipGradients, OptimizerStep(w.s.currentEpoch, batchNb, optIdx)];
      assert Pass(cfg, env, w, split, batchNb, optIdx).s.events == StepTaken(cfg, env, w1, split, batchNb, optIdx).s.events;
      Append3(w1.s.events, step, re);
      more := step + re;
    }
  }

  /** The optimizer loop of a split makes work calls only. */
  lemma {:induction false} OptimizersFromEvents(cfg: Config, env: Env, w: Work, split: Batch, batchNb: nat, j: nat)
    returns (t: seq<Event>)
    requires cfg.Wf() && |w.s.accumulateCounters| == cfg.nbOptimizers && j <= cfg.nbOptimizers
    ensures OptimizersFrom(cfg, env, w, split, batchNb, j).s.events == w.s.events + t
    ensures forall e :: e in t ==> WorkEvent(e)
    decreases cfg.nbOptimizers - j
  {
    t := [];
    if j < cfg.nbOptimizers {
      var p := Pass(cfg, env, w, split, batchNb, j);
      var head := PassEvents(cfg, env, w, split, batchNb, j);
      var rest := OptimizersFromEvents(cfg, env, p, split, batchNb, j + 1);
      Append3(w.s.events, head, rest);
      t := head + rest;
    }
  }

  /** The split loop of a batch makes work calls only. */
  lemma {:induction false} SplitsFromEvents(cfg: Config, env: Env, w: Work, splits: seq<Batch>, batchNb: nat, i: nat)
    returns (t: seq<Event>)
    requires cfg.Wf() && |w.s.accumulateCounters| == cfg.nbOptimizers && i <= |splits|
    ensures SplitsFrom(cfg, env, w, splits, batchNb, i).s.events == w.s.events + t
    ensures forall e :: e in t ==> WorkEvent(e)
    decreases |splits| - i
  {
    t := [];
    if i < |splits| {
      var w0 := w.(s := w.s.(splitNb := i));
      var o := OptimizersFrom(cfg, env, w0, splits[i], batchNb, 0);
      var head := OptimizersFromEvents(cfg, env, w0, splits[i], batchNb, 0);
      var rest := SplitsFromEvents(cfg, env, o, splits, batchNb, i + 1);
      Append3(w.s.events, head, rest);
      t := head + rest;
    }
  }

  /**
   * `run_training_batch` makes work calls only: it never queries early stopping,
   * closes the progress bar or finalises the logger.
   */
  lemma BatchRunEvents(cfg: Config, env: Env, s: TrainerState, batch: Option<Batch>, batchNb: nat)
    returns (t: seq<Event>)
    requires cfg.Wf() && |s.accumulateCounters| == cfg.nbOptimizers
    ensures BatchRun(cfg, env, s, batch, batchNb).0.events == s.events + t
    ensures forall e :: e in t ==> WorkEvent(e)
  {
    if batch.None? {
      t := [];
      assert BatchRun(cfg, env, s, batch, batchNb).0 == s;
    } else if SignalsStop(env, batch) {
      t := [BatchStartHook];
      assert BatchRun(cfg, env, s, batch, batchNb).0 == s.(events := s.events + [BatchStartHook]);
    } else {
      t := BatchRunTail(cfg, env, s, batch.value, batchNb);
    }
  }

  /** The trace of a batch that reaches the split loop: the start hook, the split loop, the end hook. */
  lemma BatchRunTail(cfg: Config, env: Env, s: TrainerState, batch: Batch, batchNb: nat) returns (t: seq<Event>)
    requires cfg.Wf() && |s.accumulateCounters| == cfg.nbOptimizers && !SignalsStop(env, Some(batch))
    ensures BatchRun(cfg, env, s, Some(batch), batchNb).0.events == s.events + t
    ensures forall e :: e in t ==> WorkEvent(e)
  {
    var pre := if env.hooks.onBatchStart.Some? then [BatchStartHook] else [];
    var s1 := if env.hooks.onBatchStart.Some? then s.(events := s.events + [BatchStartHook]) else s;
    var work := BatchWorkEvents(cfg, env, s1, batch, batchNb);
    var post := if env.hooks.onBatchEnd then [BatchEndHook] else [];
    BatchRunShape(cfg, env, s, batch, batchNb);
    assert s1.events == s.events + pre;
    t := pre + work + post;
    Regroup(s.events, pre, work, post);
  }

  lemma Regroup<T>(a: seq<T>, b: seq<T>, c: seq<T>, d: seq<T>)
    ensures a + b + c + d == a + (b + c + d)
  {
  }

  lemma Append3<T>(a: seq<T>, b: seq<T>, c: seq<T>)
    ensures a + b + c == a + (b + c)
  {
  }

  /** The work of a batch that reaches the split loop makes work calls only. */
  lemma BatchWorkEvents(cfg: Config, env: Env, s: TrainerState, batch: Batch, batchNb: nat) returns (t: seq<Event>)
    requires cfg.Wf() && |s.accumulateCounters| == cfg.nbOptimizers
    ensures BatchWork(cfg, env, s, batch, batchNb).s.events == s.events + t
    ensures forall e :: e in t ==> WorkEvent(e)
  {
    t := SplitsFromEvents(cfg, env, Work(s.(hiddens := None), [], [], map[]), Splits(cfg, env, batch), batchNb, 0);
  }

  /** A batch that reaches the split loop: its trace and counters are those of the split loop, then the end hook. */
  lemma BatchRunShape(cfg: Config, env: Env, s: TrainerState, batch: Batch, batchNb: nat)
    requires cfg.Wf() && |s.accumulateCounters| == cfg.nbOptimizers && !SignalsStop(env, Some(batch))
    ensures var s1 := if env.hooks.onBatchStart.Some? then s.(events := s.events + [BatchStartHook]) else s;
      && BatchRun(cfg, env, s, Some(batch), batchNb).0.events
         == BatchWork(cfg, env, s1, batch, batchNb).s.events + (if env.hooks.onBatchEnd then [BatchEndHook] else [])
      && BatchRun(cfg, env, s, Some(batch), batchNb).0.accumulateCounters
         == BatchWork(cfg, env, s1, batch, batchNb).s.accumulateCounters
  {
  }

  /**
   * The plain accumulation setting: one optimizer, no truncated backprop, and no
   * closure output carrying a `batch_loss_efficiency_ratio`, so every call counts 1.0.
   */
  ghost predicate PlainAccumulation(cfg: Config, env: Env) {
    && cfg.nbOptimizers == 1 && cfg.truncatedBpttSteps.None?
    && forall call :: RatioKey !in ForwardOutput(env, call).callbackMetrics
  }

  /**
   * In the plain setting without extra closure calls, a batch's work is one closure
   * call: if the counter held the reference value after `n` calls it holds the value
   * after `n + 1`, and the batch steps exactly when `n + 1` is a multiple of
   * `accumulate_grad_batches`.
   */
  lemma BatchAccumulates(cfg: Config, env: Env, s: TrainerState, batch: Batch, batchNb: nat, n: nat)
    returns (t: seq<Event>)
    requires cfg.Wf() && PlainAccumulation(cfg, env) && |s.accumulateCounters| == 1
    requires env.reEvaluations(s.currentEpoch, batchNb, 0, 0) == 0
    requires s.accumulateCounters[0] == SlotAfterCalls(n, s.accumulateGradBatches)
    ensures var w := BatchWork(cfg, env, s, batch, batchNb);
      && w.s.events == s.events + t
      && w.s.accumulateCounters[0] == SlotAfterCalls(n + 1, s.accumulateGradBatches)
      && (OptimizerStep(s.currentEpoch, batchNb, 0) in t <==> (n + 1) % s.accumulateGradBatches == 0)
  {
    var k := s.accumulateGradBatches;
    var w0 := Work(s.(hiddens := None), [], [], map[]);
    var w1 := w0.(s := w0.s.(splitNb := 0));
    var p := Pass(cfg, env, w1, batch, batchNb, 0);
    assert OptimizersFrom(cfg, env, w1, batch, batchNb, 0) == p;
    assert SplitsFrom(cfg, env, w0, [batch], batchNb, 0) == SplitsFrom(cfg, env, p, [batch], batchNb, 1);
    assert BatchWork(cfg, env, s, batch, batchNb) == p;
    assert CallRatio(cfg, env, w1.s, batch, batchNb, 0) == 1.0;
    PassCounter(cfg, env, w1, batch, batchNb, 0);
    PassStepTaken(cfg, env, w1, batch, batchNb, 0);
    EveryKthCall(n + 1, k);
    t := p.s.events[|s.events|..];
    assert p.s.events == s.events + t;
  }



  /** Without extra closure calls the optimizer loop of a split calls the closure once per optimizer. */
  lemma {:induction false} OptimizersFromCalls(cfg: Config, env: Env, w: Work, split: Batch, batchNb: nat, j: nat)
    requires cfg.Wf() && |w.s.accumulateCounters| == cfg.nbOptimizers && j <= cfg.nbOptimizers
    requires forall e, b, p, o :: env.reEvaluations(e, b, p, o) == 0
    ensures var r := OptimizersFrom(cfg, env, w, split, batchNb, j);
      |r.logs| == |w.logs| + (cfg.nbOptimizers - j) && |r.callbacks| == |w.callbacks| + (cfg.nbOptimizers - j)
    decreases cfg.nbOptimizers - j
  {
    if j < cfg.nbOptimizers {
      var p := Pass(cfg, env, w, split, batchNb, j);
      var c := Closure(cfg, env, w.s, w.logs, w.callbacks, split, batchNb, j);
      assert |p.logs| == |w.logs| + 1 && |p.callbacks| == |w.callbacks| + 1;
      OptimizersFromCalls(cfg, env, p, split, batchNb, j + 1);
    }
  }

  /** Without extra closure calls the split loop calls the closure once per (split, optimizer) pair. */
  lemma {:induction false} SplitsFromCalls(cfg: Config, env: Env, w: Work, splits: seq<Batch>, batchNb: nat, i: nat)
    requires cfg.Wf() && |w.s.accumulateCounters| == cfg.nbOptimizers && i <= |splits|
    requires forall e, b, p, o :: env.reEvaluations(e, b, p, o) == 0
    ensures var r := SplitsFrom(cfg, env, w, splits, batchNb, i);
      |r.logs| == |w.logs| + (|splits| - i) * cfg.nbOptimizers
      && |r.callbacks| == |w.callbacks| + (|splits| - i) * cfg.nbOptimizers
    decreases |splits| - i
  {
    if i < |splits| {
      var w0 := w.(s := w.s.(splitNb := i));
      var o := OptimizersFrom(cfg, env, w0, splits[i], batchNb, 0);
      OptimizersFromCalls(cfg, env, w0, splits[i], batchNb, 0);
      SplitsFromCalls(cfg, env, o, splits, batchNb, i + 1);
      assert (|splits| - i) * cfg.nbOptimizers == (|splits| - (i + 1)) * cfg.nbOptimizers + cfg.nbOptimizers;
    }
  }

  /**
   * A batch that reaches the split loop collects one metric dictionary per closure call:
   * `len(splits) * nb_optimizers` of them when `optimizer_step` makes no extra calls.
   */
  lemma BatchClosureCalls(cfg: Config, env: Env, s: TrainerState, batch: Batch, batchNb: nat)
    requires cfg.Wf() && |s.accumulateCounters| == cfg.nbOptimizers
    requires forall e, b, p, o :: env.reEvaluations(e, b, p, o) == 0
    ensures var w := BatchWork(cfg, env, s, batch, batchNb);
      |w.logs| == |Splits(cfg, env, batch)| * cfg.nbOptimizers
      && |w.callbacks| == |Splits(cfg, env, batch)| * cfg.nbOptimizers
  {
    SplitsFromCalls(cfg, env, Work(s.(hiddens := None), [], [], map[]), Splits(cfg, env, batch), batchNb, 0);
  }

  /**
   * After a batch that ran, `callback_metrics` holds its old keys and the merged keys of
   * this batch; a merged key takes the batch's (latest) value, any other key keeps its value.
   * The returned log metrics are the merge of the closure calls' log dictionaries.
   */
  lemma BatchMetrics(cfg: Config, env: Env, s: TrainerState, batch: Option<Batch>, batchNb: nat)
    requires cfg.Wf() && |s.accumulateCounters| == cfg.nbOptimizers
    requires batch.Some? && !SignalsStop(env, batch)
    ensures var s1 := if env.hooks.onBatchStart.Some? then s.(events := s.events + [BatchStartHook]) else s;
      var w := BatchWork(cfg, env, s1, batch.value, batchNb);
      var r := BatchRun(cfg, env, s, batch, batchNb);
      var merged := MergeAll(w.callbacks);
      && r.1 == BatchOutput(0, w.gradNorms, MergeAll(w.logs))
      && r.0.callbackMetrics.Keys == s.callbackMetrics.Keys + merged.Keys
      && (forall k :: k in merged ==> r.0.callbackMetrics[k] == merged[k])
      && (forall k :: k in s.callbackMetrics && k !in merged ==> r.0.callbackMetrics[k] == s.callbackMetrics[k])
  {
  }

  /**
   * Every batch starts from a clear hidden state: with at least one split and one
   * optimizer, the first forward call of the batch is made with `hiddens = None`.
   */
  lemma BatchResetsHiddens(cfg: Config, env: Env, s: TrainerState, batch: Batch, batchNb: nat)
    requires cfg.Wf() && |s.accumulateCounters| == cfg.nbOptimizers
    requires |Splits(cfg, env, batch)| > 0 && cfg.nbOptimizers > 0
    ensures var w := BatchWork(cfg, env, s, batch, batchNb);
      |w.s.events| > |s.events|
      && w.s.events[|s.events|] == Forward(ForwardCallOf(cfg, env, Splits(cfg, env, batch)[0], batchNb, 0, None))
  {
    var splits := Splits(cfg, env, batch);
    var w0 := Work(s.(hiddens := None), [], [], map[]);
    var w1 := w0.(s := w0.s.(splitNb := 0));
    var p := Pass(cfg, env, w1, splits[0], batchNb, 0);
    var c := Closure(cfg, env, w1.s, w1.logs, w1.callbacks, splits[0], batchNb, 0);
    var call := ForwardCallOf(cfg, env, splits[0], batchNb, 0, None);
    assert c.s.events[|s.events|] == Forward(call);
    var w2 := Work(AccountLoss(cfg, c), c.logs, c.callbacks, w1.gradNorms);
    assert c.s.events <= w2.s.events;
    assert w2.s.events <= p.s.events;
    var o := OptimizersFrom(cfg, env, w1, splits[0], batchNb, 0);
    assert o == OptimizersFrom(cfg, env, p, splits[0], batchNb, 1);
    assert p.s.events <= o.s.events;
    assert o.s.events <= BatchWork(cfg, env, s, batch, batchNb).s.events;
  }
}
