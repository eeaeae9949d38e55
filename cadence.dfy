/**
 * The integer cadence rules of the epoch controller and the epoch runner.
 * Every divisor is positive and every left operand is a batch or epoch number,
 * so Python's floor `//` and `%` agree with Dafny's Euclidean `/` and `%` here.
 */
module Cadence {
  import opened Wrappers
  import opened Types
  import opened IntArith

  /** Validation may run in this epoch. */
  predicate IsValEpoch(cfg: Config, epoch: int) {
    (epoch + 1) % cfg.checkValEveryNEpoch == 0
  }

  /** How many validation checks the epoch's progress estimate accounts for. */
  function ValChecksPerEpoch(cfg: Config, epoch: int): nat {
    if IsValEpoch(cfg, epoch) then cfg.nbTrainingBatches / cfg.valCheckBatch else 0
  }

  /** Training batches plus every validation pass of the epoch. */
  function TotalBatches(cfg: Config, epoch: int): nat {
    cfg.nbTrainingBatches + cfg.nbValBatches * ValChecksPerEpoch(cfg, epoch)
  }

  /** The progress-bar length: 2 in a fast dev run, unknown for an iterable loader. */
  function NbIterations(cfg: Config, epoch: int): Option<int> {
    if cfg.fastDevRun then Some(2)
    else if cfg.isIterableTrainDataloader then None
    else Some(TotalBatches(cfg, epoch))
  }

  /** The early-stop callback is asked at the end of this epoch. */
  predicate ConsultsEarlyStop(cfg: Config, epoch: int) {
    cfg.enableEarlyStop && (epoch > cfg.minNbEpochs || cfg.fastDevRun)
  }

  /** The callback's answer makes `train` return. */
  predicate HonoursStop(cfg: Config, epoch: int, answer: bool) {
    answer && epoch > cfg.minNbEpochs
  }

  /** `should_check_val`: a validation batch (or the sentinel) in a validation epoch. */
  predicate ShouldCheckVal(cfg: Config, batchNb: nat, epoch: int, stop: bool) {
    ((batchNb + 1) % cfg.valCheckBatch == 0 || stop) && IsValEpoch(cfg, epoch)
  }

  /** `run_evaluation` is called after this batch. */
  predicate RunsValidation(cfg: Config, batchNb: nat, epoch: int, stop: bool) {
    cfg.fastDevRun || ShouldCheckVal(cfg, batchNb, epoch, stop)
  }

  /** `logger.save()` is called after this batch. */
  predicate SavesLog(cfg: Config, batchNb: nat, stop: bool) {
    ((batchNb + 1) % cfg.logSaveInterval == 0 || stop || cfg.fastDevRun)
    && cfg.procRank == 0 && cfg.hasLogger
  }

  /** `log_metrics` is called after this batch. */
  predicate LogsMetrics(cfg: Config, batchNb: nat, stop: bool) {
    batchNb % cfg.rowLogInterval == 0 || stop || cfg.fastDevRun
  }

  /** The batch loop breaks after this batch. */
  predicate EndsEpoch(cfg: Config, batchNb: nat, stop: bool) {
    stop || cfg.fastDevRun || batchNb >= cfg.nbTrainingBatches
  }

  /** The number of batches among the first `n` after which a batch loop without the sentinel validates. */
  function ValidationsAmong(cfg: Config, epoch: int, n: nat): nat {
    if n == 0 then 0
    else ValidationsAmong(cfg, epoch, n - 1) + (if RunsValidation(cfg, n - 1, epoch, false) then 1 else 0)
  }

  lemma DivStep(n: nat, d: Pos)
    requires n >= 1
    ensures n / d == (n - 1) / d + (if n % d == 0 then 1 else 0)
  {
    var q, r := (n - 1) / d, (n - 1) % d;
    assert n - 1 == q * d + r && 0 <= r < d;
    if r + 1 == d {
      assert n == (q + 1) * d + 0;
      DivModUnique(n, d, q + 1, 0);
    } else {
      DivModUnique(n, d, q, r + 1);
    }
  }

  /**
   * Outside a fast dev run, the validation gate passes after exactly `n / val_check_batch`
   * of the first `n` batches of a validation epoch, and after none in other epochs; for
   * `n = nb_training_batches` this is the controller's `val_checks_per_epoch`.
   */
  lemma {:induction false} ValidationsAmongCount(cfg: Config, epoch: int, n: nat)
    requires !cfg.fastDevRun
    ensures ValidationsAmong(cfg, epoch, n) == if IsValEpoch(cfg, epoch) then n / cfg.valCheckBatch else 0
  {
    if n > 0 {
      ValidationsAmongCount(cfg, epoch, n - 1);
      DivStep(n, cfg.valCheckBatch);
    }
  }

  /** The controller's check count agrees with the runner's gate over the training batches. */
  lemma ValChecksMatchGate(cfg: Config, epoch: int)
    requires !cfg.fastDevRun
    ensures ValidationsAmong(cfg, epoch, cfg.nbTrainingBatches) == ValChecksPerEpoch(cfg, epoch)
    ensures TotalBatches(cfg, epoch)
            == cfg.nbTrainingBatches + cfg.nbValBatches * ValidationsAmong(cfg, epoch, cfg.nbTrainingBatches)
  {
    ValidationsAmongCount(cfg, epoch, cfg.nbTrainingBatches);
  }

  /**
   * With validation every epoch and no fast dev run, a batch validates exactly when
   * `(batch_nb + 1) % val_check_batch == 0` or it carries the sentinel, and the gate
   * repeats with period `val_check_batch`.
   */
  lemma ValidationEveryEpoch(cfg: Config, epoch: int, batchNb: nat, stop: bool)
    requires cfg.checkValEveryNEpoch == 1 && !cfg.fastDevRun
    ensures RunsValidation(cfg, batchNb, epoch, stop) <==> (batchNb + 1) % cfg.valCheckBatch == 0 || stop
    ensures RunsValidation(cfg, batchNb, epoch, false) == RunsValidation(cfg, batchNb + cfg.valCheckBatch, epoch, false)
  {
    var d := cfg.valCheckBatch;
    var q, r := (batchNb + 1) / d, (batchNb + 1) % d;
    assert batchNb + 1 == q * d + r && 0 <= r < d;
    assert batchNb + d + 1 == (q + 1) * d + r;
    DivModUnique(batchNb + d + 1, d, q + 1, r);
  }

  /** Early stop: the callback is never honoured at or below `min_nb_epochs`, even in a fast dev run. */
  lemma StopNeedsMinEpochs(cfg: Config, epoch: int, answer: bool)
    ensures ConsultsEarlyStop(cfg, epoch) && HonoursStop(cfg, epoch, answer)
            <==> cfg.enableEarlyStop && answer && epoch > cfg.minNbEpochs
    ensures cfg.fastDevRun && cfg.enableEarlyStop ==> ConsultsEarlyStop(cfg, epoch)
  {
  }
}
