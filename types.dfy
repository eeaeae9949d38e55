/**
 * The entities of the training loop: its configuration, the collaborators it
 * calls (model, hooks, data loader, callbacks), the observable calls it makes,
 * and the trainer fields it updates in place.
 */
module Types {
  import opened Wrappers

  /** A strictly positive integer (every interval and divisor of the loop). */
  type Pos = n: int | n >= 1 witness 1

  /** A string-keyed metric dictionary. */
  type MetricMap = map<string, real>

  /** Opaque tensors: a batch (or one split of it) and a recurrent hidden state. */
  datatype Batch = Batch(data: seq<int>)
  datatype Hidden = Hidden(data: seq<int>)

  /** Whatever `training_step` returns, before `training_end` and `process_output`. */
  datatype RawOutput = RawOutput(handle: int)

  /** The canonical tuple produced by `process_output`: (loss, progress, log, callback, hiddens). */
  datatype StepOutput = StepOutput(
    loss: real,
    progressMetrics: MetricMap,
    logMetrics: MetricMap,
    callbackMetrics: MetricMap,
    hiddens: Option<Hidden>)

  /** One positional argument of `training_step`. */
  datatype Arg =
    | BatchArg(batch: Batch)
    | BatchIndexArg(index: nat)
    | OptimizerIndexArg(optIdx: nat)
    | HiddensArg(hiddens: Option<Hidden>)

  /** The three forward strategies: the wrapped model (dp, ddp, ddp2), one device, the host. */
  datatype Strategy = Wrapped | SingleDevice(gpuId: int) | Host

  /** One forward invocation: the strategy taken and the arguments passed. */
  datatype ForwardCall = ForwardCall(strategy: Strategy, args: seq<Arg>)

  /** `data_parallel_device_ids`: either a Python list or some other value. */
  datatype DeviceIds = DeviceList(ids: seq<int>) | NotAList

  /** The trainer options the loop reads; none of them changes during training. */
  datatype Config = Config(
    maxNbEpochs: int,
    minNbEpochs: int,
    checkValEveryNEpoch: Pos,
    valCheckBatch: Pos,
    nbTrainingBatches: nat,
    nbValBatches: nat,
    fastDevRun: bool,
    isIterableTrainDataloader: bool,
    progressBarDisabled: bool,
    enableEarlyStop: bool,
    rowLogInterval: Pos,
    logSaveInterval: Pos,
    procRank: int,
    hasLogger: bool,
    testing: bool,
    truncatedBpttSteps: Option<nat>,
    trackGradNorm: int,
    printNanGrads: bool,
    nbOptimizers: nat,
    nbLrSchedulers: nat,
    useDdp: bool,
    useDdp2: bool,
    useDp: bool,
    singleGpu: bool,
    deviceIds: DeviceIds)
  {
    /** The single-device strategy reads the first device id of a list, so that list is not empty. */
    predicate Wf() {
      !(useDdp || useDdp2 || useDp) && singleGpu && deviceIds.DeviceList? ==> |deviceIds.ids| > 0
    }
  }

  /**
   * Which optional model hooks are implemented. `onBatchStart` returns the hook's
   * response (Python's `None` is any value other than -1); `trainingEnd` is the
   * overridden `training_end`.
   */
  datatype Hooks = Hooks(
    onEpochStart: bool,
    onEpochEnd: bool,
    onBatchStart: Option<Batch -> int>,
    onBatchEnd: bool,
    onAfterBackward: bool,
    trainingEnd: Option<RawOutput -> RawOutput>)

  /** The collaborators of the loop, as total functions of what they are given. */
  datatype Env = Env(
    hooks: Hooks,
    /** `self.model(*args)` under dp, ddp or ddp2. */
    wrappedForward: seq<Arg> -> RawOutput,
    /** `self.model.training_step(*args)`. */
    trainingStep: seq<Arg> -> RawOutput,
    /** `transfer_batch_to_gpu(batch, gpu_id)`. */
    transferToGpu: (Batch, int) -> Batch,
    /** `process_output(output, train=True)`. */
    processOutput: RawOutput -> StepOutput,
    /** `tbptt_split_batch(batch, truncated_bptt_steps)`. */
    splitBatch: (Batch, nat) -> seq<Batch>,
    /** `grad_norm(track_grad_norm)` at (epoch, batch_nb, split_nb, opt_idx). */
    gradNorm: (int, int, nat, int, nat) -> MetricMap,
    /**
     * How many more times `optimizer_step(epoch, batch_nb, optimizer, opt_idx, closure)`
     * calls the closure, at (epoch, batch_nb, split_nb, opt_idx).
     */
    reEvaluations: (int, nat, int, nat) -> nat,
    /** The batches the train dataloader yields in an epoch. */
    trainBatches: int -> seq<Option<Batch>>,
    /** `accumulation_scheduler.on_epoch_begin`: the new `accumulate_grad_batches`. */
    accumulationSchedule: (int, Pos) -> Pos,
    /** `early_stop_callback.on_epoch_end(epoch, logs)`. */
    earlyStop: (int, MetricMap) -> bool)

  /** The observable calls the loop makes into its collaborators, in order. */
  datatype Event =
    | EpochStartHook
    | EpochEndHook
    | BatchStartHook
    | BatchEndHook
    | AfterBackwardHook
    | ProgressReset(iterations: Option<int>)
    | ProgressClose
    | Forward(call: ForwardCall)
    | Backward(optIdx: nat, loss: real)
    | ProgressMetrics(metrics: MetricMap)
    | NanGradientReport
    | ClipGradients
    | OptimizerStep(epoch: int, batchNb: nat, optIdx: nat)
    | Evaluation(test: bool)
    | LoggerSave
    | LogMetrics(metrics: MetricMap, gradNorms: MetricMap)
    | LrSchedulerStep(scheduler: nat, epoch: int)
    | EarlyStopQuery(epoch: int, answer: bool)
    | LoggerFinalize(status: string)

  /** The trainer fields the loop updates, plus the trace of calls made so far. */
  datatype TrainerState = TrainerState(
    currentEpoch: int,
    globalStep: int,
    totalBatchNb: int,
    batchNb: int,
    splitNb: int,
    totalBatches: int,
    batchLossValue: real,
    runningLoss: seq<real>,
    avgLoss: real,
    hiddens: Option<Hidden>,
    accumulateCounters: seq<real>,
    accumulateGradBatches: Pos,
    callbackMetrics: MetricMap,
    events: seq<Event>)

  /** What `run_training_batch` returns: (batch_result, grad_norm_dic, log metrics). */
  datatype BatchOutput = BatchOutput(result: int, gradNorms: MetricMap, logMetrics: MetricMap)

  /** How `train` ended: the epoch range ran out, or the early-stop return at an epoch. */
  datatype Outcome = Completed | EarlyStopped(epoch: int)
}
