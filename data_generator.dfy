/** The Keras fake-data iterator: a fixed pool of `batch_size * num_batches`
    random images and labels, a translation index of `length` random pool
    positions, and batches assembled by looking sample indices up through
    that index, with one-hot labels. */
module DataGenerator {
  import opened Wrappers
  import opened NumpyRandom

  /** `_create_data`: `batch_size * num_batches` images of shape
      (height, width, channels). The generator is always seeded with 42,
      whatever `seed` is passed. */
  function CreateData(batchSize: nat, numBatches: nat, dim: (nat, nat), channels: nat, seed: int)
    : (data: seq<Sample>)
    ensures |data| == batchSize * numBatches
    ensures forall i :: 0 <= i < |data| ==> data[i].seed == 42 && data[i].shape == [dim.0, dim.1, channels]
  {
    Rand(42, batchSize * numBatches, [dim.0, dim.1, channels])
  }

  /** The `seed` argument of `_create_data` has no effect. */
  lemma CreateDataIgnoresSeed(batchSize: nat, numBatches: nat, dim: (nat, nat), channels: nat, s1: int, s2: int)
    ensures CreateData(batchSize, numBatches, dim, channels, s1) == CreateData(batchSize, numBatches, dim, channels, s2)
  {
  }

  /** `_create_labels`: one class in [0, n_classes) per pool position. */
  function CreateLabels(batchSize: nat, numBatches: nat, nClasses: nat, draws: Stream)
    : (labels: Result<seq<nat>>)
    ensures labels.Ok? <==> (nClasses > 0 || batchSize * numBatches == 0)
    ensures labels.Ok? ==> |labels.value| == batchSize * numBatches
    ensures labels.Ok? ==> forall i :: 0 <= i < |labels.value| ==> labels.value[i] < nClasses
  {
    Choice(nClasses, batchSize * numBatches, draws)
  }

  /** The fields the constructor sets. The Keras `Iterator` base class's own
      state (shuffling, position) is not part of this model. */
  datatype FakeDataGenerator = FakeDataGenerator(
    batchSize: nat,
    numBatches: nat,
    dim: (nat, nat),
    nChannels: nat,
    nClasses: nat,
    length: nat,
    data: seq<Sample>,
    labels: seq<nat>,
    translationIndex: seq<nat>)

  /** What construction guarantees: a pool of `batch_size * num_batches`
      images and labels, labels below `n_classes`, and `length` translation
      entries each naming a pool position. */
  ghost predicate Valid(g: FakeDataGenerator) {
    && |g.data| == g.batchSize * g.numBatches
    && |g.labels| == |g.data|
    && (forall i :: 0 <= i < |g.labels| ==> g.labels[i] < g.nClasses)
    && |g.translationIndex| == g.length
    && (forall k :: 0 <= k < g.length ==> g.translationIndex[k] < |g.labels|)
  }

  /** `FakeDataGenerator.__init__`. The two `np.random.choice` calls read
      their own draw streams. It raises when there are no classes to draw
      labels from, or when the pool is empty but `length` entries are asked of it. */
  function NewFakeDataGenerator(
    batchSize: nat, numBatches: nat, dim: (nat, nat), nChannels: nat, nClasses: nat,
    length: nat, seed: int, labelDraws: Stream, indexDraws: Stream)
    : (g: Result<FakeDataGenerator>)
    ensures g.Ok? <==> (nClasses > 0 || batchSize * numBatches == 0) && (batchSize * numBatches > 0 || length == 0)
    ensures g.Ok? ==> Valid(g.value)
    ensures g.Ok? ==> g.value.length == length && g.value.nClasses == nClasses && g.value.batchSize == batchSize
    ensures g.Ok? ==> g.value.numBatches == numBatches && g.value.dim == dim && g.value.nChannels == nChannels
    ensures g.Ok? ==> |g.value.data| == batchSize * numBatches && |g.value.labels| == batchSize * numBatches
    ensures g.Ok? ==> forall i :: 0 <= i < |g.value.data| ==> g.value.data[i].seed == 42
  {
    var data := CreateData(batchSize, numBatches, dim, nChannels, seed);
    var labels := CreateLabels(batchSize, numBatches, nClasses, labelDraws);
    if labels.Raised? then Raised(labels.error)
    else
      var index := Choice(|labels.value|, length, indexDraws);
      if index.Raised? then Raised(index.error)
      else Ok(FakeDataGenerator(batchSize, numBatches, dim, nChannels, nClasses, length,
                                data, labels.value, index.value))
  }

  /** `keras.utils.to_categorical` of one class. */
  function OneHot(c: nat, width: nat): (v: seq<int>)
    ensures |v| == width
  {
    seq(width, j requires 0 <= j < width => if j == c then 1 else 0)
  }

  function Sum(v: seq<int>): int
    decreases |v|
  {
    if v == [] then 0 else Sum(v[..|v| - 1]) + v[|v| - 1]
  }

  /** A one-hot row of width `n_classes` holds a single 1, at the class. */
  lemma {:induction false} OneHotHasSingleOne(c: nat, width: nat)
    requires c < width
    ensures OneHot(c, width)[c] == 1
    ensures forall j :: 0 <= j < width && j != c ==> OneHot(c, width)[j] == 0
    ensures Sum(OneHot(c, width)) == 1
  {
    OneHotPrefixSum(c, width, width);
    assert OneHot(c, width)[..width] == OneHot(c, width);
  }

  lemma {:induction false} OneHotPrefixSum(c: nat, width: nat, k: nat)
    requires k <= width
    ensures Sum(OneHot(c, width)[..k]) == if c < k then 1 else 0
  {
    var v := OneHot(c, width);
    if k > 0 {
      OneHotPrefixSum(c, width, k - 1);
      assert v[..k][..k - 1] == v[..k - 1];
    }
  }

  /** `_get_batches_of_transformed_samples(index_array)`: sample `j` takes its
      image and its label from the same pool row,
      `translation_index[index_array[j]]`; labels come back one-hot. An
      index past the translation index raises `IndexError`. */
  function BatchOf(g: FakeDataGenerator, indexArray: seq<nat>)
    : (r: Result<(seq<Sample>, seq<seq<int>>)>)
    requires Valid(g)
    ensures r.Ok? <==> forall j :: 0 <= j < |indexArray| ==> indexArray[j] < g.length
    ensures r.Ok? ==> |r.value.0| == |indexArray| && |r.value.1| == |indexArray|
    ensures r.Ok? ==> forall j :: 0 <= j < |indexArray| ==>
      var row := g.translationIndex[indexArray[j]];
      r.value.0[j] == g.data[row] && r.value.1[j] == OneHot(g.labels[row], g.nClasses)
  {
    if exists j :: 0 <= j < |indexArray| && indexArray[j] >= g.length then
      Raised(IndexError("index out of bounds"))
    else
      var rows := seq(|indexArray|, j requires 0 <= j < |indexArray| => g.translationIndex[indexArray[j]]);
      Ok((seq(|rows|, j requires 0 <= j < |rows| => g.data[rows[j]]),
          seq(|rows|, j requires 0 <= j < |rows| => OneHot(g.labels[rows[j]], g.nClasses))))
  }

  /** Every label of a batch is a valid one-hot row: width `n_classes`, a
      single 1, at the class of the image it travels with. */
  lemma BatchLabelsAreOneHot(g: FakeDataGenerator, indexArray: seq<nat>, j: nat)
    requires Valid(g)
    requires BatchOf(g, indexArray).Ok? && j < |indexArray|
    ensures var row := g.translationIndex[indexArray[j]];
      var hot := BatchOf(g, indexArray).value.1[j];
      |hot| == g.nClasses && Sum(hot) == 1 && hot[g.labels[row]] == 1
  {
    var row := g.translationIndex[indexArray[j]];
    OneHotHasSingleOne(g.labels[row], g.nClasses);
  }
}
