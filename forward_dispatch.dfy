/**
 * `training_forward`: the positional arguments of `training_step`, the choice of
 * forward strategy, and the optional `training_end` before `process_output`.
 */
module ForwardDispatch {
  import opened Wrappers
  import opened Types

  /** `[batch, batch_nb]`, then `opt_idx` with several optimizers, then `hiddens` under truncated backprop. */
  function ForwardArgs(cfg: Config, batch: Batch, batchNb: nat, optIdx: nat, hiddens: Option<Hidden>): seq<Arg> {
    [BatchArg(batch), BatchIndexArg(batchNb)]
    + (if cfg.nbOptimizers > 1 then [OptimizerIndexArg(optIdx)] else [])
    + (if cfg.truncatedBpttSteps.Some? then [HiddensArg(hiddens)] else [])
  }

  /** The device of the single-device strategy: the first listed id, else 0. */
  function GpuId(cfg: Config): int
    requires cfg.Wf() && !(cfg.useDdp || cfg.useDdp2 || cfg.useDp) && cfg.singleGpu
  {
    if cfg.deviceIds.DeviceList? then cfg.deviceIds.ids[0] else 0
  }

  /** dp, ddp and ddp2 go through the wrapped model; else one device; else the host. */
  function SelectStrategy(cfg: Config): Strategy
    requires cfg.Wf()
  {
    if cfg.useDdp || cfg.useDdp2 || cfg.useDp then Wrapped
    else if cfg.singleGpu then SingleDevice(GpuId(cfg))
    else Host
  }

  /** The call `training_forward` makes; the single-device strategy first moves the batch. */
  function ForwardCallOf(cfg: Config, env: Env, batch: Batch, batchNb: nat, optIdx: nat, hiddens: Option<Hidden>): ForwardCall
    requires cfg.Wf()
  {
    var args := ForwardArgs(cfg, batch, batchNb, optIdx, hiddens);
    var strategy := SelectStrategy(cfg);
    if strategy.SingleDevice? then
      ForwardCall(strategy, args[0 := BatchArg(env.transferToGpu(batch, strategy.gpuId))])
    else
      ForwardCall(strategy, args)
  }

  /** The canonical output of a call: the entry point, then `training_end` if overridden, then `process_output`. */
  function ForwardOutput(env: Env, call: ForwardCall): StepOutput {
    var raw := if call.strategy.Wrapped? then env.wrappedForward(call.args) else env.trainingStep(call.args);
    var ended := if env.hooks.trainingEnd.Some? then env.hooks.trainingEnd.value(raw) else raw;
    env.processOutput(ended)
  }

  /** What `training_step` receives, read back from its positional arguments. */
  datatype StepArgs = StepArgs(batch: Batch, batchNb: nat, optIdx: Option<nat>, hiddens: Option<Option<Hidden>>)

  /** Decode a positional argument list the way a `training_step` with the matching signature binds it. */
  function ParseArgs(cfg: Config, args: seq<Arg>): Option<StepArgs> {
    var n := 2 + (if cfg.nbOptimizers > 1 then 1 else 0) + (if cfg.truncatedBpttSteps.Some? then 1 else 0);
    if |args| != n || !args[0].BatchArg? || !args[1].BatchIndexArg? then None
    else if cfg.nbOptimizers > 1 && !args[2].OptimizerIndexArg? then None
    else if cfg.truncatedBpttSteps.Some? && !args[n - 1].HiddensArg? then None
    else Some(StepArgs(
      args[0].batch,
      args[1].index,
      if cfg.nbOptimizers > 1 then Some(args[2].optIdx) else None,
      if cfg.truncatedBpttSteps.Some? then Some(args[n - 1].hiddens) else None))
  }

  /**
   * The argument list round-trips: `training_step` gets the batch and its index, the
   * optimizer index exactly when there is more than one optimizer, and the hidden
   * state exactly when truncated backprop is configured.
   */
  lemma ForwardArgsRoundTrip(cfg: Config, batch: Batch, batchNb: nat, optIdx: nat, hiddens: Option<Hidden>)
    ensures ParseArgs(cfg, ForwardArgs(cfg, batch, batchNb, optIdx, hiddens))
            == Some(StepArgs(batch, batchNb,
                             if cfg.nbOptimizers > 1 then Some(optIdx) else None,
                             if cfg.truncatedBpttSteps.Some? then Some(hiddens) else None))
  {
  }

  /**
   * The strategy chosen for a call and what `training_step` receives: only the
   * single-device strategy moves the batch, to the first listed device or device 0;
   * under every strategy the batch index, the optimizer index and the hidden state
   * reach `training_step` unchanged.
   */
  lemma ForwardCallShape(cfg: Config, env: Env, batch: Batch, batchNb: nat, optIdx: nat, hiddens: Option<Hidden>)
    requires cfg.Wf()
    ensures var call := ForwardCallOf(cfg, env, batch, batchNb, optIdx, hiddens);
      && (call.strategy.Wrapped? <==> cfg.useDdp || cfg.useDdp2 || cfg.useDp)
      && (call.strategy.Host? <==> !(cfg.useDdp || cfg.useDdp2 || cfg.useDp) && !cfg.singleGpu)
      && (call.strategy.SingleDevice? ==>
            call.strategy.gpuId == (if cfg.deviceIds.DeviceList? then cfg.deviceIds.ids[0] else 0))
      && ParseArgs(cfg, call.args)
         == Some(StepArgs(if call.strategy.SingleDevice? then env.transferToGpu(batch, call.strategy.gpuId) else batch,
                          batchNb,
                          if cfg.nbOptimizers > 1 then Some(optIdx) else None,
                          if cfg.truncatedBpttSteps.Some? then Some(hiddens) else None))
      && (!call.strategy.SingleDevice? ==> call.args == ForwardArgs(cfg, batch, batchNb, optIdx, hiddens))
  {
  }
}
