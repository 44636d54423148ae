/** The decisions of the TensorFlow Estimator Horovod training script: the
    hooks, the total number of training steps, the fake-data generator that
    slices a fixed pool into batches, and the evaluation gate. The
    rank, master and model-directory helpers are those of `HorovodRoles`. */
module TfTraining {
  import opened Wrappers
  import HorovodRoles
  import NumpyRandom
  import KerasTraining

  const BatchSize: nat := 64
  const Classes: nat := 1000
  const Height: nat := 224
  const Width: nat := 224
  const Channels: nat := 3

  // ---------------------------------------------------------------------
  // `_get_hooks`

  datatype Hook = BroadcastGlobalVariablesHook(rootRank: nat)

  /** No hooks for a single process; one broadcast-from-rank-0 hook when distributed. */
  function GetHooks(distributed: bool): (hooks: seq<Hook>)
    ensures |hooks| == if distributed then 1 else 0
    ensures forall i :: 0 <= i < |hooks| ==> hooks[i] == BroadcastGlobalVariablesHook(0)
  {
    if distributed then [BroadcastGlobalVariablesHook(0)] else []
  }

  // ---------------------------------------------------------------------
  // Step count and evaluation gate of `main`

  /** `steps = _EPOCHS * length // (_BATCHSIZE * num_gpus)`, where
      `num_gpus` is the Keras script's worker count (the world size when
      distributed, 1 otherwise): the whole global batches that fit in
      `epochs` passes over the data. */
  function TrainingSteps(epochs: nat, length: nat, distributed: bool, worldSize: nat): (steps: nat)
    requires distributed ==> worldSize >= 1
    ensures var global := BatchSize * KerasTraining.NumWorkers(distributed, worldSize);
      steps * global <= epochs * length < (steps + 1) * global
  {
    epochs * length / (BatchSize * KerasTraining.NumWorkers(distributed, worldSize))
  }

  /** The evaluation gate `_is_master() and _FAKE is False and _VALIDATION`:
      the master test is evaluated first, so a failing rank query raises
      whatever the flags; otherwise evaluation runs on the master only, with
      real data and validation on. */
  function RunsEvaluation(distributed: bool, q: HorovodRoles.RankQuery, fake: bool, validation: bool)
    : (run: Result<bool>)
    ensures run.Ok? <==> !distributed || q.Answers?
    ensures run.Raised? ==> run == Raised(HorovodRoles.RankUnavailable)
    ensures run.Ok? ==> (run.value <==> (!distributed || q.rank == 0) && !fake && validation)
  {
    var master := HorovodRoles.IsMaster(distributed, q);
    if master.Raised? then Raised(master.error)
    else Ok(master.value && fake == false && validation)
  }

  /** On a non-master rank nothing is evaluated, whatever the flags. */
  lemma EvaluationOnlyOnMaster(rank: nat, fake: bool, validation: bool)
    requires rank != 0
    ensures RunsEvaluation(true, HorovodRoles.Answers(rank), fake, validation) == Ok(false)
  {
  }

  /** The two scripts gate their final evaluation differently: on a
      non-master rank, with real data and validation on, the Keras script
      evaluates while this one does not. */
  lemma GateDiffersFromKerasScript(rank: nat)
    requires rank != 0
    ensures KerasTraining.FinalEvaluationAsWritten(true, false, true) == Ok(KerasTraining.Evaluated(true))
    ensures RunsEvaluation(true, HorovodRoles.Answers(rank), false, true) == Ok(false)
  {
  }

  // ---------------------------------------------------------------------
  // `_create_fake_data_fn` and its `fake_data_generator`

  /** NumPy's `a[lo:hi]` for `0 <= lo`: both bounds are clipped to the length. */
  function Slice<T>(a: seq<T>, lo: nat, hi: nat): (s: seq<T>)
    ensures lo <= hi && hi <= |a| ==> s == a[lo..hi]
  {
    var l := if lo <= |a| then lo else |a|;
    var h := if hi <= |a| then hi else |a|;
    if l <= h then a[l..h] else []
  }

  /** Rows `[i * 64, (i + 1) * 64)` of an array. */
  function Batch<T>(a: seq<T>, i: nat): seq<T>
  {
    Slice(a, i * BatchSize, (i + 1) * BatchSize)
  }

  /** The generator's output, as the sequence of pairs it yields:
      exactly `num_batches` pairs, pair `i` holding batch `i` of the data
      and of the labels. */
  method FakeDataGenerator<D, L>(data: seq<D>, labels: seq<L>, numBatches: nat)
    returns (yielded: seq<(seq<D>, seq<L>)>)
    ensures |yielded| == numBatches
    ensures forall i :: 0 <= i < numBatches ==> yielded[i] == (Batch(data, i), Batch(labels, i))
  {
    yielded := [];
    var i := 0;
    while i < numBatches
      invariant 0 <= i <= numBatches
      invariant |yielded| == i
      invariant forall k :: 0 <= k < i ==> yielded[k] == (Batch(data, k), Batch(labels, k))
    {
      yielded := yielded + [(Batch(data, i), Batch(labels, i))];
      i := i + 1;
    }
  }

  function Concat<T>(parts: seq<seq<T>>): seq<T>
    decreases |parts|
  {
    if parts == [] then [] else Concat(parts[..|parts| - 1]) + parts[|parts| - 1]
  }

  /** On a pool of exactly `num_batches * 64` rows the batches are
      consecutive, do not overlap, and together give back the pool in order. */
  lemma {:induction false} BatchesPartitionPool<T>(a: seq<T>, numBatches: nat, k: nat)
    requires |a| == numBatches * BatchSize && k <= numBatches
    ensures forall i :: 0 <= i < k ==> |Batch(a, i)| == BatchSize
    ensures Concat(seq(k, i requires 0 <= i < k => Batch(a, i))) == a[..k * BatchSize]
  {
    var parts := seq(k, i requires 0 <= i < k => Batch(a, i));
    if k > 0 {
      BatchesPartitionPool(a, numBatches, k - 1);
      assert parts[..k - 1] == seq(k - 1, i requires 0 <= i < k - 1 => Batch(a, i));
      assert a[..(k - 1) * BatchSize] + a[(k - 1) * BatchSize..k * BatchSize] == a[..k * BatchSize];
    }
  }

  /** `_create_fake_data_fn`'s pool: `64 * num_batches` images in NCHW
      layout drawn after seeding with 42, and as many labels below 1000. */
  function CreateFakePool(numBatches: nat, labelDraws: NumpyRandom.Stream)
    : (pool: (seq<NumpyRandom.Sample>, seq<nat>))
    ensures |pool.0| == BatchSize * numBatches && |pool.1| == BatchSize * numBatches
    ensures forall i :: 0 <= i < |pool.1| ==> pool.1[i] < Classes
  {
    var data := NumpyRandom.Rand(42, BatchSize * numBatches, [Channels, Height, Width]);
    var labels := NumpyRandom.Choice(Classes, BatchSize * numBatches, labelDraws);
    (data, labels.value)
  }

  /** The generator over the fake pool yields `num_batches` full batches
      whose images, and whose labels, concatenate back to the pool. */
  method FakeEpoch(numBatches: nat, labelDraws: NumpyRandom.Stream)
    returns (yielded: seq<(seq<NumpyRandom.Sample>, seq<nat>)>)
    ensures var pool := CreateFakePool(numBatches, labelDraws);
      && |yielded| == numBatches
      && (forall i :: 0 <= i < numBatches ==> |yielded[i].0| == BatchSize && |yielded[i].1| == BatchSize)
      && Concat(seq(numBatches, i requires 0 <= i < numBatches => yielded[i].0)) == pool.0
      && Concat(seq(numBatches, i requires 0 <= i < numBatches => yielded[i].1)) == pool.1
  {
    var pool := CreateFakePool(numBatches, labelDraws);
    yielded := FakeDataGenerator(pool.0, pool.1, numBatches);
    BatchesPartitionPool(pool.0, numBatches, numBatches);
    BatchesPartitionPool(pool.1, numBatches, numBatches);
    assert seq(numBatches, i requires 0 <= i < numBatches => yielded[i].0)
        == seq(numBatches, i requires 0 <= i < numBatches => Batch(pool.0, i));
    assert seq(numBatches, i requires 0 <= i < numBatches => yielded[i].1)
        == seq(numBatches, i requires 0 <= i < numBatches => Batch(pool.1, i));
    assert pool.0[..numBatches * BatchSize] == pool.0;
    assert pool.1[..numBatches * BatchSize] == pool.1;
  }
}
