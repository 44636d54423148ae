/** The PyTorch Horovod training script: the label shift applied to the CSV
    class ids, the fake dataset, the logging cadence of `train`, the scaled
    learning rate and the epoch loop of `main`. Model, loss and optimizer
    steps run inside PyTorch and Horovod and are not modelled. The rank,
    master and logging-adapter helpers are those of `HorovodRoles`. */
module TorchTraining {
  import opened Wrappers
  import HorovodRoles
  import Timing
  import NumpyRandom
  import KerasTraining

  const LearningRate: real := 0.001
  const LogEvery: nat := 100

  // ---------------------------------------------------------------------
  // Label shift in `_create_data_fn`

  function Decremented(s: seq<int>): (r: seq<int>)
    ensures |r| == |s|
  {
    seq(|s|, i requires 0 <= i < |s| => s[i] - 1)
  }

  /** `labels -= 1`, in place on the NumPy array. */
  method DecrementInPlace(labels: array<int>)
    modifies labels
    ensures labels[..] == Decremented(old(labels[..]))
  {
    var i := 0;
    while i < labels.Length
      invariant 0 <= i <= labels.Length
      invariant forall k :: 0 <= k < i ==> labels[k] == old(labels[k]) - 1
      invariant forall k :: i <= k < labels.Length ==> labels[k] == old(labels[k])
    {
      labels[i] := labels[i] - 1;
      i := i + 1;
    }
  }

  /** The label part of `_create_data_fn`: the training and the validation
      class ids are each shifted down by one. */
  method ShiftLabels(trainLabels: array<int>, validationLabels: array<int>)
    requires trainLabels != validationLabels
    modifies trainLabels, validationLabels
    ensures trainLabels[..] == Decremented(old(trainLabels[..]))
    ensures validationLabels[..] == Decremented(old(validationLabels[..]))
  {
    DecrementInPlace(trainLabels);
    DecrementInPlace(validationLabels);
  }

  /** The shift turns 1-based `num_id`s in [1, n] into 0-based class
      indices in [0, n), keeping their order. */
  lemma OneBasedBecomesZeroBased(ids: seq<int>, n: nat)
    requires forall i :: 0 <= i < |ids| ==> 1 <= ids[i] <= n
    ensures forall i :: 0 <= i < |ids| ==> 0 <= Decremented(ids)[i] < n
    ensures forall i, j :: 0 <= i < |ids| && 0 <= j < |ids| ==>
      (ids[i] < ids[j] <==> Decremented(ids)[i] < Decremented(ids)[j])
  {
  }

  // ---------------------------------------------------------------------
  // `FakeData`

  /** What `__getitem__` returns as data: the pool row itself, or the
      configured transform (named) applied to it. */
  datatype Item = Raw(sample: NumpyRandom.Sample) | Transformed(transform: string, sample: NumpyRandom.Sample)

  datatype FakeData = FakeData(
    dim: (nat, nat),
    nChannels: nat,
    nClasses: nat,
    numBatches: nat,
    data: seq<NumpyRandom.Sample>,
    labels: seq<nat>,
    translationIndex: seq<nat>,
    length: nat,
    transform: Option<string>)

  ghost predicate Valid(fd: FakeData) {
    && |fd.labels| == |fd.data|
    && (forall i :: 0 <= i < |fd.labels| ==> fd.labels[i] < fd.nClasses)
    && |fd.translationIndex| == fd.length
    && (forall k :: 0 <= k < fd.length ==> fd.translationIndex[k] < |fd.labels|)
  }

  /** `_create_data` of this script: NCHW images, drawn after seeding with
      `seed` (the constructor leaves it at its default, 42). */
  function CreateData(batchSize: nat, numBatches: nat, dim: (nat, nat), channels: nat, seed: int)
    : (data: seq<NumpyRandom.Sample>)
    ensures |data| == batchSize * numBatches
    ensures forall i :: 0 <= i < |data| ==> data[i].seed == seed && data[i].shape == [channels, dim.0, dim.1]
  {
    NumpyRandom.Rand(seed, batchSize * numBatches, [channels, dim.0, dim.1])
  }

  /** `FakeData.__init__`: a pool of `batch_size * num_batches` rows,
      labels drawn below `n_classes`, and `length` translation entries drawn
      over the pool. Its own `seed` argument is not used. */
  function NewFakeData(
    batchSize: nat, numBatches: nat, dim: (nat, nat), nChannels: nat, nClasses: nat,
    length: nat, seed: int, transform: Option<string>,
    labelDraws: NumpyRandom.Stream, indexDraws: NumpyRandom.Stream)
    : (fd: Result<FakeData>)
    ensures fd.Ok? <==> (nClasses > 0 || batchSize * numBatches == 0) && (batchSize * numBatches > 0 || length == 0)
    ensures fd.Ok? ==> Valid(fd.value)
    ensures fd.Ok? ==> fd.value.nClasses == nClasses && fd.value.length == length
    ensures fd.Ok? ==> |fd.value.data| == batchSize * numBatches && fd.value.transform == transform
    ensures fd.Ok? ==> forall i :: 0 <= i < |fd.value.data| ==> fd.value.data[i].seed == 42
  {
    var data := CreateData(batchSize, numBatches, dim, nChannels, 42);
    var labels := NumpyRandom.Choice(nClasses, batchSize * numBatches, labelDraws);
    if labels.Raised? then Raised(labels.error)
    else
      var index := NumpyRandom.Choice(|labels.value|, length, indexDraws);
      if index.Raised? then Raised(index.error)
      else Ok(FakeData(dim, nChannels, nClasses, numBatches, data, labels.value, index.value, length, transform))
  }

  /** `__len__`. */
  function Len(fd: FakeData): nat
  {
    fd.length
  }

  /** The dataset's length is the configured `length`, whatever the size of
      the pool behind it. */
  lemma LenIsConfiguredLength(
    batchSize: nat, numBatches: nat, dim: (nat, nat), nChannels: nat, nClasses: nat,
    length: nat, seed: int, transform: Option<string>,
    labelDraws: NumpyRandom.Stream, indexDraws: NumpyRandom.Stream)
    requires NewFakeData(batchSize, numBatches, dim, nChannels, nClasses, length, seed, transform, labelDraws, indexDraws).Ok?
    ensures var fd := NewFakeData(batchSize, numBatches, dim, nChannels, nClasses, length, seed, transform, labelDraws, indexDraws).value;
      Len(fd) == length && |fd.data| == batchSize * numBatches
  {
  }

  /** `__getitem__(idx)`: the data row and the label at the same translated
      position; the transform, when set, touches the data only. An index past
      the translation index raises `IndexError`. */
  function GetItem(fd: FakeData, idx: nat): (r: Result<(Item, nat)>)
    requires Valid(fd)
    ensures r.Ok? <==> idx < Len(fd)
    ensures r.Ok? ==> var row := fd.translationIndex[idx];
      && r.value.1 == fd.labels[row]
      && r.value.0.sample == fd.data[row]
      && (r.value.0.Raw? <==> fd.transform.None?)
  {
    if idx >= fd.length then Raised(IndexError("index out of bounds"))
    else
      var row := fd.translationIndex[idx];
      var item := match fd.transform
        case None => Raw(fd.data[row])
        case Some(name) => Transformed(name, fd.data[row]);
      Ok((item, fd.labels[row]))
  }

  /** Switching the transform on or off never changes the label returned. */
  lemma TransformLeavesLabel(fd: FakeData, idx: nat, name: string)
    requires Valid(fd) && idx < Len(fd)
    ensures GetItem(fd.(transform := Some(name)), idx).value.1 == GetItem(fd.(transform := None), idx).value.1
    ensures GetItem(fd.(transform := None), idx).value.0 == Raw(fd.data[fd.translationIndex[idx]])
  {
  }

  // ---------------------------------------------------------------------
  // `train`: logging cadence

  /** One progress line of `train` (the loss value is left out). */
  datatype StepLog = StepLog(step: nat, elapsed: int, samples: nat)

  /** The condition under which `train` logs at step `i`. */
  predicate IsLogStep(i: nat) {
    i % LogEvery == 0
  }

  /** Number of progress lines for `n` batches. */
  function LogCount(n: nat): (c: nat)
    ensures n <= LogEvery * c < n + LogEvery
  {
    (n + LogEvery - 1) / LogEvery
  }

  /** The progress lines of `train` over batches of sizes `batchLens`, with
      `clock(j)` the `j`-th clock reading of its timer: reading 0 starts it,
      and each log reads the clock once for `elapsed` and once to restart. */
  function TrainLogs(batchLens: seq<nat>, clock: nat -> int): (logs: seq<StepLog>)
  {
    seq(LogCount(|batchLens|), k requires 0 <= k < LogCount(|batchLens|) => LogAt(batchLens, clock, k))
  }

  /** The `k`-th progress line of `train`: step `100 * k`, timed between
      clock readings `2k` and `2k + 1`. */
  function LogAt(batchLens: seq<nat>, clock: nat -> int, k: nat): StepLog
    requires LogEvery * k < |batchLens|
  {
    StepLog(LogEvery * k, clock(2 * k + 1) - clock(2 * k), LogEvery * k * batchLens[LogEvery * k])
  }

  /** `train` logs exactly at the steps `i` with `i % 100 == 0`, in order;
      each line measures from the previous restart of the timer. */
  lemma TrainLogsCadence(batchLens: seq<nat>, clock: nat -> int)
    ensures var logs := TrainLogs(batchLens, clock);
      && (forall k :: 0 <= k < |logs| ==> logs[k].step < |batchLens| && IsLogStep(logs[k].step))
      && (forall k, m :: 0 <= k < m < |logs| ==> logs[k].step < logs[m].step)
      && (forall i :: 0 <= i < |batchLens| && IsLogStep(i) ==>
            i / LogEvery < |logs| && logs[i / LogEvery].step == i)
      && (forall k :: 0 <= k < |logs| ==> logs[k].elapsed == clock(2 * k + 1) - clock(2 * k))
  {
  }

  lemma StepIsLogStepIff(i: nat, c: nat)
    requires i <= LogEvery * c < i + LogEvery
    ensures IsLogStep(i) <==> i == LogEvery * c
  {
  }

  /** `train(train_loader, model, criterion, optimizer, epoch)`, its logging
      part: the epoch tag is set, and a timer started at reading 0 is read and
      restarted at every hundredth step. */
  method Train(adapter: HorovodRoles.HorovodAdapter, epoch: nat, batchLens: seq<nat>, clock: nat -> int)
    returns (logs: seq<StepLog>)
    modifies adapter`strEpoch
    ensures adapter.strEpoch == HorovodRoles.EpochTag(epoch)
    ensures logs == TrainLogs(batchLens, clock)
  {
    var t := new Timing.Timer(1, Timing.Unset, Timing.DefaultFormat, "");
    t.Start(clock(0));
    adapter.SetEpoch(epoch);
    logs := [];
    var tick := 0;
    var i := 0;
    while i < |batchLens|
      invariant 0 <= i <= |batchLens|
      invariant i <= LogEvery * |logs| < i + LogEvery
      invariant tick == 2 * |logs|
      invariant t.start == Some(clock(tick)) && t.end == None && t.factor == 1
      invariant adapter.strEpoch == HorovodRoles.EpochTag(epoch)
      invariant forall k :: 0 <= k < |logs| ==> LogEvery * k < |batchLens| && logs[k] == LogAt(batchLens, clock, k)
    {
      StepIsLogStepIff(i, |logs|);
      if i % LogEvery == 0 {
        var e := t.Elapsed(clock(tick + 1));
        logs := logs + [StepLog(i, e.value, i * batchLens[i])];
        t.Start(clock(tick + 2));
        tick := tick + 2;
      }
      i := i + 1;
    }
    assert LogCount(|batchLens|) == |logs|;
  }

  // ---------------------------------------------------------------------
  // `main`: learning rate and epoch loop

  /** `lr=_LR * num_gpus`, with one GPU when not distributed: the rate the
      Keras script's optimizer gets for the same base rate and world. */
  function ScaledLearningRate(distributed: bool, worldSize: nat): (lr: real)
    requires distributed ==> worldSize >= 1
    ensures lr == KerasTraining.BaseRate(KerasTraining.GetOptimizer(LearningRate, 0.9, distributed, worldSize))
  {
    LearningRate * KerasTraining.NumWorkers(distributed, worldSize) as real
  }

  /** The line the epoch's `Timer` hands to `logger.info`: "Training took ... seconds". */
  function EpochLine(elapsed: int): Timing.Emission
  {
    Timing.Emission("logger.info", "Training", Timing.DefaultFormat, elapsed)
  }

  /** Leaving the epoch's `Timer(output=logger.info, prefix="Training")`
      block: entered at `enterAt`, it hands the elapsed time to `logger.info`. */
  method LeaveEpochTimer(t: Timing.Timer, enterAt: int, exitAt: int) returns (line: Timing.Emission)
    requires t.start == Some(enterAt) && t.factor == 1
    requires t.output == Timing.Sink("logger.info") && t.prefix == "Training" && t.fmt == Timing.DefaultFormat
    modifies t`end, t`output
    ensures t.end == Some(exitAt) && t.output == Timing.Sink("logger.info")
    ensures line == EpochLine(exitAt - enterAt)
  {
    var out := t.Exit(exitAt);
    line := out.value.value;
  }

  /** One iteration of the epoch loop of `main`: a `Timer(output=logger.info,
      prefix="Training")` block entered at `enterAt` and left at `exitAt`,
      around the epoch's training. */
  method RunEpoch(adapter: HorovodRoles.HorovodAdapter, epoch: nat, batchLens: seq<nat>,
                  clock: nat -> int, enterAt: int, exitAt: int)
    returns (line: Timing.Emission, logs: seq<StepLog>)
    modifies adapter`strEpoch
    ensures adapter.strEpoch == HorovodRoles.EpochTag(epoch)
    ensures line == EpochLine(exitAt - enterAt)
    ensures logs == TrainLogs(batchLens, clock)
  {
    var t := new Timing.Timer(1, Timing.Sink("logger.info"), Timing.DefaultFormat, "Training");
    var same := t.Enter(enterAt);
    logs := Train(adapter, epoch, batchLens, clock);
    line := LeaveEpochTimer(t, enterAt, exitAt);
  }

  /** The lines the epoch timers hand to `logger.info` over the first `n` epochs. */
  function EpochLines(enter: nat -> int, exit: nat -> int, n: nat): (lines: seq<Timing.Emission>)
    ensures |lines| == n
    ensures forall e :: 0 <= e < n ==> lines[e] == EpochLine(exit(e) - enter(e))
  {
    if n == 0 then [] else EpochLines(enter, exit, n - 1) + [EpochLine(exit(n - 1) - enter(n - 1))]
  }

  /** The progress lines of `train` over the first `n` epochs. */
  function EpochLogs(batchLens: seq<nat>, clock: nat -> nat -> int, n: nat): (logs: seq<seq<StepLog>>)
    ensures |logs| == n
    ensures forall e :: 0 <= e < n ==> logs[e] == TrainLogs(batchLens, clock(e))
  {
    if n == 0 then [] else EpochLogs(batchLens, clock, n - 1) + [TrainLogs(batchLens, clock(n - 1))]
  }

  /** The epochs `0, 1, ..., n - 1`, in order. */
  function Upto(n: nat): (r: seq<nat>)
    ensures |r| == n && forall k :: 0 <= k < n ==> r[k] == k
  {
    if n == 0 then [] else Upto(n - 1) + [n - 1]
  }

  /** Epoch `e` of the loop of `main`, appended to what the first `e` epochs
      recorded: the sampler is told the epoch (distributed runs only), then
      the epoch trains inside its timed block. */
  method NextEpoch(adapter: HorovodRoles.HorovodAdapter, e: nat, distributed: bool, batchLens: seq<nat>,
                   clock: nat -> nat -> int, enter: nat -> int, exit: nat -> int,
                   samplerEpochs: seq<nat>, lines: seq<Timing.Emission>, logs: seq<seq<StepLog>>)
    returns (samplerEpochs': seq<nat>, lines': seq<Timing.Emission>, logs': seq<seq<StepLog>>)
    requires samplerEpochs == if distributed then Upto(e) else []
    requires lines == EpochLines(enter, exit, e) && logs == EpochLogs(batchLens, clock, e)
    modifies adapter`strEpoch
    ensures samplerEpochs' == if distributed then Upto(e + 1) else []
    ensures adapter.strEpoch == HorovodRoles.EpochTag(e)
    ensures lines' == EpochLines(enter, exit, e + 1) && logs' == EpochLogs(batchLens, clock, e + 1)
  {
    samplerEpochs' := if distributed then samplerEpochs + [e] else samplerEpochs;
    var line, epochLogs := RunEpoch(adapter, e, batchLens, clock(e), enter(e), exit(e));
    lines', logs' := lines + [line], logs + [epochLogs];
    assert logs' == EpochLogs(batchLens, clock, e) + [TrainLogs(batchLens, clock(e))];
  }

  /** The epoch loop of `main`: every epoch tells the distributed sampler
      its epoch (distributed runs only) and trains inside a timed block
      entered at `enter(e)` and left at `exit(e)`; `clock(e)` gives the
      readings of that epoch's `train`. */
  method TrainingLoop(adapter: HorovodRoles.HorovodAdapter, epochs: nat, distributed: bool,
                      batchLens: seq<nat>, clock: nat -> nat -> int, enter: nat -> int, exit: nat -> int)
    returns (samplerEpochs: seq<nat>, lines: seq<Timing.Emission>, logs: seq<seq<StepLog>>)
    modifies adapter`strEpoch
    ensures samplerEpochs == if distributed then Upto(epochs) else []
    ensures lines == EpochLines(enter, exit, epochs)
    ensures logs == EpochLogs(batchLens, clock, epochs)
    ensures epochs > 0 ==> adapter.strEpoch == HorovodRoles.EpochTag(epochs - 1)
    ensures epochs == 0 ==> adapter.strEpoch == old(adapter.strEpoch)
  {
    samplerEpochs, lines, logs := [], [], [];
    if epochs == 0 {
      return;
    }
    var e := 0;
    while e < epochs
      invariant 0 <= e <= epochs
      invariant samplerEpochs == if distributed then Upto(e) else []
      invariant lines == EpochLines(enter, exit, e)
      invariant logs == EpochLogs(batchLens, clock, e)
      invariant e > 0 ==> adapter.strEpoch == HorovodRoles.EpochTag(e - 1)
    {
      samplerEpochs, lines, logs := NextEpoch(adapter, e, distributed, batchLens, clock, enter, exit,
                                              samplerEpochs, lines, logs);
      e := e + 1;
    }
  }
}
