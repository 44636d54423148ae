/** The decisions of the Keras Horovod training script's `main`: the
    learning rate handed to SGD, the callbacks every rank registers, the
    (always zero) resume epoch, the steps per epoch and the per-epoch timing
    callback. Training itself runs inside Keras and Horovod and is not
    modelled. */
module KerasTraining {
  import opened Wrappers
  import HorovodRoles
  import Timing
  import PosixPath

  const LearningRate: real := 0.001
  const Momentum: real := 0.9
  const BatchSize: nat := 64
  const WarmupEpochs: nat := 5

  // ---------------------------------------------------------------------
  // `_get_optimizer`

  datatype Optimizer = Sgd(lr: real, momentum: real) | DistributedOptimizer(inner: Optimizer)

  function BaseRate(opt: Optimizer): real
  {
    match opt
    case Sgd(lr, _) => lr
    case DistributedOptimizer(inner) => BaseRate(inner)
  }

  /** Distributed runs scale the learning rate by the world size and wrap
      SGD in Horovod's distributed optimizer; single-process runs keep the
      base rate. */
  function GetOptimizer(learningRate: real, momentum: real, distributed: bool, worldSize: nat)
    : (opt: Optimizer)
    ensures opt.DistributedOptimizer? <==> distributed
    ensures opt.DistributedOptimizer? ==> opt.inner.Sgd? && opt.inner.momentum == momentum
    ensures opt.Sgd? ==> opt.momentum == momentum
    ensures BaseRate(opt) == if distributed then learningRate * worldSize as real else learningRate
  {
    if distributed then DistributedOptimizer(Sgd(learningRate * worldSize as real, momentum))
    else Sgd(learningRate, momentum)
  }

  // ---------------------------------------------------------------------
  // `_get_hooks` and the callback list built in `main`

  datatype Callback =
    | BroadcastGlobalVariables(rootRank: nat)
    | MetricAverage
    | LearningRateWarmup(warmupEpochs: nat, verbose: nat)
    | LearningRateSchedule(startEpoch: nat, endEpoch: Option<nat>, multiplier: real)
    | EpochLogger(dataLength: nat)
    | ModelCheckpoint(filepath: string)

  /** `_get_hooks`: Horovod's callbacks for a distributed run, none otherwise. */
  function GetHooks(distributed: bool, verbose: nat): (hooks: seq<Callback>)
    ensures !distributed ==> hooks == []
    ensures distributed ==> |hooks| == 7
    ensures distributed ==> hooks[0] == BroadcastGlobalVariables(0) && hooks[1] == MetricAverage
    ensures distributed ==> hooks[2] == LearningRateWarmup(WarmupEpochs, verbose)
  {
    if distributed then
      [ BroadcastGlobalVariables(0),
        MetricAverage,
        LearningRateWarmup(WarmupEpochs, verbose),
        LearningRateSchedule(WarmupEpochs, Some(30), 1.0),
        LearningRateSchedule(30, Some(60), 0.1),
        LearningRateSchedule(60, Some(80), 0.01),
        LearningRateSchedule(80, None, 0.001) ]
    else []
  }

  /** A schedule callback is active from its start epoch up to, not
      including, its end epoch. */
  predicate Covers(c: Callback, epoch: nat)
  {
    c.LearningRateSchedule? && c.startEpoch <= epoch && (c.endEpoch.None? || epoch < c.endEpoch.value)
  }

  /** The multiplier of the first schedule callback active at `epoch`. */
  function ScheduledMultiplier(hooks: seq<Callback>, epoch: nat): Option<real>
    decreases |hooks|
  {
    if hooks == [] then None
    else if Covers(hooks[0], epoch) then Some(hooks[0].multiplier)
    else ScheduledMultiplier(hooks[1..], epoch)
  }

  /** The schedule windows follow the warmup without gap or overlap, and the
      rate drops tenfold at epochs 30, 60 and 80. */
  lemma ScheduleAfterWarmup(verbose: nat, epoch: nat)
    ensures var hooks := GetHooks(true, verbose);
      && (forall i, j :: 0 <= i < j < |hooks| && Covers(hooks[i], epoch) ==> !Covers(hooks[j], epoch))
      && ScheduledMultiplier(hooks, epoch) ==
           if epoch < WarmupEpochs then None
           else if epoch < 30 then Some(1.0)
           else if epoch < 60 then Some(0.1)
           else if epoch < 80 then Some(0.01)
           else Some(0.001)
  {
    var hooks := GetHooks(true, verbose);
    var tail := hooks[3..];
    assert ScheduledMultiplier(hooks, epoch) == ScheduledMultiplier(hooks[1..], epoch);
    assert hooks[1..][1..] == hooks[2..] && hooks[2..][1..] == tail;
    assert ScheduledMultiplier(hooks[1..], epoch) == ScheduledMultiplier(tail, epoch);
    assert tail[1..][1..][1..][1..] == [];
    if epoch >= 30 {
      assert ScheduledMultiplier(tail, epoch) == ScheduledMultiplier(tail[1..], epoch);
      if epoch >= 60 {
        assert ScheduledMultiplier(tail[1..], epoch) == ScheduledMultiplier(tail[1..][1..], epoch);
        if epoch >= 80 {
          assert ScheduledMultiplier(tail[1..][1..], epoch) == ScheduledMultiplier(tail[1..][1..][1..], epoch);
        }
      }
    } else if epoch < WarmupEpochs {
      assert ScheduledMultiplier(tail, epoch) == ScheduledMultiplier(tail[1..], epoch);
      assert ScheduledMultiplier(tail[1..], epoch) == ScheduledMultiplier(tail[1..][1..], epoch);
      assert ScheduledMultiplier(tail[1..][1..], epoch) == ScheduledMultiplier(tail[1..][1..][1..], epoch);
      assert ScheduledMultiplier(tail[1..][1..][1..], epoch) == None;
    }
  }

  /** The callback list of `main`: the Horovod hooks (built with the default
      `verbose=1` on every rank), then the epoch logger for every rank, then
      the checkpoint writer on the master only. */
  method AssembleCallbacks(distributed: bool, rank: nat, dataLength: nat, checkpointFormat: string)
    returns (callbacks: seq<Callback>)
    ensures var hooks := GetHooks(distributed, 1);
      && |hooks| < |callbacks|
      && callbacks[..|hooks|] == hooks
      && callbacks[|hooks|] == EpochLogger(dataLength)
      && callbacks[|hooks| + 1..] == if distributed && rank != 0 then [] else [ModelCheckpoint(checkpointFormat)]
  {
    callbacks := GetHooks(distributed, 1);
    callbacks := callbacks + [EpochLogger(dataLength)];
    var master := HorovodRoles.IsMaster(distributed, HorovodRoles.Answers(rank));
    if master.value {
      callbacks := callbacks + [ModelCheckpoint(checkpointFormat)];
    }
  }

  /** Exactly the master registers a checkpoint writer. */
  lemma CheckpointWriterOnlyOnMaster(distributed: bool, rank: nat, callbacks: seq<Callback>,
                                     dataLength: nat, checkpointFormat: string)
    requires callbacks == GetHooks(distributed, 1) + [EpochLogger(dataLength)]
      + (if distributed && rank != 0 then [] else [ModelCheckpoint(checkpointFormat)])
    ensures (exists i :: 0 <= i < |callbacks| && callbacks[i].ModelCheckpoint?)
        <==> HorovodRoles.IsMaster(distributed, HorovodRoles.Answers(rank)).value
  {
    if !(distributed && rank != 0) {
      assert callbacks[|callbacks| - 1].ModelCheckpoint?;
    }
  }

  /** `checkpoint_format`: `os.path.join(model_dir, "checkpoint-{epoch}.h5")`;
      joining an unset directory raises `TypeError`. */
  function CheckpointFormat(modelDir: Option<string>): (f: Result<string>)
    ensures f.Ok? <==> modelDir.Some?
    ensures f.Ok? ==> f.value == PosixPath.Join(modelDir.value, "checkpoint-{epoch}.h5")
  {
    match modelDir
    case None => Raised(TypeError("expected str, bytes or os.PathLike object, not NoneType"))
    case Some(d) => Ok(PosixPath.Join(d, "checkpoint-{epoch}.h5"))
  }

  // ---------------------------------------------------------------------
  // Resume, steps and verbosity in `main`

  /** `hvd.broadcast(value, root)`: the value received is one that some rank
      holds (rank `root`'s copy). */
  function Broadcast(held: seq<int>, root: nat): (v: int)
    requires root < |held|
    ensures v in held
  {
    held[root]
  }

  /** `resume_from_epoch`: every rank holds 0, and a distributed run
      replaces it by rank 0's copy, which is that same 0. */
  function ResumeFromEpoch(distributed: bool, worldSize: nat): int
    requires distributed ==> worldSize >= 1
  {
    if distributed then Broadcast(seq(worldSize, r => 0), 0) else 0
  }

  /** The guard of the checkpoint restore. */
  predicate RestoresCheckpoint(resumeFromEpoch: int, master: bool)
  {
    resumeFromEpoch > 0 && master
  }

  /** The restore path is dead: no rank, master or not, ever loads weights. */
  lemma NeverRestores(distributed: bool, worldSize: nat, rank: nat)
    requires distributed ==> worldSize >= 1
    ensures ResumeFromEpoch(distributed, worldSize) == 0
    ensures !RestoresCheckpoint(ResumeFromEpoch(distributed, worldSize),
                                HorovodRoles.IsMaster(distributed, HorovodRoles.Answers(rank)).value)
  {
    if distributed {
      var held := seq(worldSize, r => 0);
      assert held[0] == 0;
    }
  }

  /** `num_workers`: the world size when distributed, 1 otherwise. */
  function NumWorkers(distributed: bool, worldSize: nat): (n: nat)
    requires distributed ==> worldSize >= 1
    ensures n >= 1
    ensures n == if distributed then worldSize else 1
  {
    if distributed then worldSize else 1
  }

  /** `steps_per_epoch = len(train_iter) // num_workers`: each worker takes
      the largest whole share of the batches. */
  function StepsPerEpoch(distributed: bool, worldSize: nat, trainBatches: nat): (steps: nat)
    requires distributed ==> worldSize >= 1
    ensures var n := NumWorkers(distributed, worldSize);
      steps * n <= trainBatches < (steps + 1) * n
  {
    trainBatches / NumWorkers(distributed, worldSize)
  }

  /** `verbose`: 1 on the master, 0 on the other ranks. */
  function Verbosity(distributed: bool, rank: nat): (v: nat)
    ensures v == 1 <==> HorovodRoles.IsMaster(distributed, HorovodRoles.Answers(rank)).value
    ensures v <= 1
  {
    if distributed then (if rank == 0 then 1 else 0) else 1
  }

  // ---------------------------------------------------------------------
  // The final evaluation block of `main`

  /** What the final evaluation block does: nothing, or evaluate on this
      rank and (when `averaged`) average the score over all ranks with
      `hvd.allreduce`. */
  datatype FinalEvaluation = NotRun | Evaluated(averaged: bool)

  /** The block as written: it runs on every rank, master or not, whenever
      real data is used and validation is on, and always calls
      `hvd.allreduce`. The name `hvd` is bound only by the import under
      `if _DISTRIBUTED:`, so a single-process run raises `NameError` before
      the evaluation starts. */
  function FinalEvaluationAsWritten(distributed: bool, fake: bool, validation: bool): (r: Result<FinalEvaluation>)
    ensures r.Raised? <==> !distributed && !fake && validation
    ensures r.Raised? ==> r.error.NameError?
    ensures r.Ok? ==> (r.value.Evaluated? <==> !fake && validation)
  {
    if !(fake == false && validation) then Ok(NotRun)
    else if !distributed then Raised(NameError("name 'hvd' is not defined"))
    else Ok(Evaluated(true))
  }

  /** The discrepancy: a single-process run on real data with validation
      fails in the evaluation block. */
  lemma SingleProcessEvaluationFails()
    ensures FinalEvaluationAsWritten(false, false, true).Raised?
    ensures FinalEvaluationAsWritten(false, false, true).error == NameError("name 'hvd' is not defined")
  {
  }

  /** The block as the rest of the script evidently intends: every Horovod
      call is guarded by `_DISTRIBUTED`, so the score is averaged over the
      ranks only in a distributed run. */
  function FinalEvaluationIntended(distributed: bool, fake: bool, validation: bool): (r: FinalEvaluation)
    ensures r.Evaluated? <==> !fake && validation
    ensures r.Evaluated? ==> (r.averaged <==> distributed)
  {
    if fake == false && validation then Evaluated(distributed) else NotRun
  }

  /** The corrected block never fails, and agrees with the block as written
      wherever that one does not fail. */
  lemma IntendedAgreesWhereWrittenSucceeds(distributed: bool, fake: bool, validation: bool)
    ensures FinalEvaluationAsWritten(distributed, fake, validation).Ok? ==>
      FinalEvaluationAsWritten(distributed, fake, validation).value == FinalEvaluationIntended(distributed, fake, validation)
    ensures FinalEvaluationAsWritten(distributed, fake, validation).Raised? <==>
      (!distributed && FinalEvaluationIntended(distributed, fake, validation).Evaluated?)
  {
  }

  // ---------------------------------------------------------------------
  // `LoggerCallback`

  class LoggerCallback {
    const timer: Timing.Timer
    const dataLength: nat

    /** The callback never stops its timer, and the timer counts in ticks. */
    predicate Valid()
      reads timer
    {
      timer.end.None? && timer.factor == 1
    }

    /** `Timer(output=logger.info, prefix="Epoch duration: ", fmt="{:.3f} seconds")`. */
    constructor (dataLength: nat)
      ensures fresh(timer) && this.dataLength == dataLength
      ensures timer.output == Timing.Sink("logger.info") && timer.prefix == "Epoch duration: "
      ensures timer.fmt == Timing.Format("", " seconds") && timer.factor == 1
      ensures timer.start.None? && timer.end.None?
      ensures Valid()
    {
      this.dataLength := dataLength;
      timer := new Timing.Timer(1, Timing.Sink("logger.info"), Timing.Format("", " seconds"), "Epoch duration: ");
    }

    /** `on_epoch_begin`: tag the log with the epoch and restart the timer. */
    method OnEpochBegin(adapter: HorovodRoles.HorovodAdapter, epoch: nat, now: int)
      requires Valid()
      modifies adapter`strEpoch, timer`start
      ensures Valid()
      ensures adapter.strEpoch == HorovodRoles.EpochTag(epoch)
      ensures timer.start == Some(now)
    {
      adapter.SetEpoch(epoch);
      timer.Start(now);
    }

    /** `on_epoch_end`: the epoch's duration is the timer's running
        `elapsed`, the timer is never stopped. */
    method OnEpochEnd(now: int) returns (duration: Result<int>)
      requires Valid()
      ensures Valid()
      ensures duration.Ok? <==> timer.start.Some?
      ensures timer.start.Some? ==> duration == Ok(now - timer.start.value)
      ensures timer.start.Some? && timer.end.None? ==> duration == Ok((now - timer.start.value) * timer.factor)
    {
      duration := timer.Elapsed(now);
    }
  }

  /** One epoch through the callback: the duration reported at the end is
      the distance between the two clock readings. */
  method EpochThroughLogger(adapter: HorovodRoles.HorovodAdapter, epoch: nat, begin: int, end: int)
    returns (duration: Result<int>)
    modifies adapter`strEpoch
    ensures adapter.strEpoch == HorovodRoles.EpochTag(epoch)
    ensures duration == Ok(end - begin)
  {
    var cb := new LoggerCallback(BatchSize);
    cb.OnEpochBegin(adapter, epoch, begin);
    duration := cb.OnEpochEnd(end);
  }
}
