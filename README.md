# A model of the deterministic core of the AI reference architectures

The repository collects reference architectures for training and serving
models on Azure. Most of it calls into Horovod, Keras, TensorFlow, PyTorch
and Azure. This project covers the small, deterministic decisions around
those calls:

- **Rank and role decisions of the three Horovod training scripts** (Keras,
  TensorFlow Estimator, PyTorch). These cover environment-flag parsing, the
  rank lookup and the master test. They also cover the model directory, the
  learning-rate scaling, the callbacks and hooks, the resume path, the step
  arithmetic and the evaluation gates. `_str_to_bool`, `_get_rank`,
  `_is_master` and `HorovodAdapter` have identical bodies in all three
  scripts, and `_get_model_dir` has identical bodies in the Keras and
  TensorFlow scripts (the PyTorch script has none), so they are defined once,
  in `HorovodRoles`. The table cites the Keras copy. The TensorFlow copies
  are at `imagenet_estimator_tf_horovod.py` lines 36-40, 60-81, 364-374 and
  387-394. The PyTorch copies are at `imagenet_pytorch_horovod.py` lines
  28-32, 59-81 and 194-201.
- **Fake data** covers three pieces:
  - the Keras `FakeDataGenerator`, with its pool, translation index and one-hot batches;
  - the TensorFlow `fake_data_generator`, which yields consecutive slices of a fixed pool;
  - the PyTorch `FakeData` dataset.
- **The PyTorch training loop**: the in-place label shift, the logging cadence
  of `train`, and the epoch loop of `main` with its timed blocks.
- **The shared `Timer`** is a class whose `start`/`stop`/`elapsed`/
  `__enter__`/`__exit__` update and read its fields. The clock is not an
  object here: every method that reads the clock takes the reading as a
  parameter `now`. The `timer` decorator dispatch is modelled too.
- **The cookiecutter pre-generation hook**: the module-name pattern, the
  subscription id and image-name checks, and their order.
- **The Databricks job configurator**: it substitutes placeholders in every
  `*.tmpl` file and writes the result under a name with `tmpl` rewritten to
  `json`.
- **`validate_input` of the Azure ML workspace script**: the required
  settings are checked in a fixed order, and the region recommender is a
  function parameter.

Horovod is a rank oracle, `RankQuery = Answers(rank) | Raises`. Where the
code makes it decide, the world size is a parameter. NumPy's random
generator is symbolic: `Sample(seed, row, shape)` stands for a drawn row, and
integer choices read a draw stream `nat -> nat`. Exceptions are
`Result.Raised` values carrying the Python exception class.

## Model

| member | source | states |
|---|---|---|
| HorovodRoles.Lower | architectures/Python-Keras-Training/HorovodKeras/src/imagenet_keras_horovod.py:24 | lower-casing keeps the length and maps every character through ASCII lower-casing |
| HorovodRoles.StrToBool | architectures/Python-Keras-Training/HorovodKeras/src/imagenet_keras_horovod.py:23-27 | a flag is on exactly when some character of the text is 't' or 'T' |
| HorovodRoles.StrToBoolExamples | architectures/Python-Keras-Training/HorovodKeras/src/imagenet_keras_horovod.py:23-27 | "False", "" and "false" are off; "True", "TRUE" and "true" are on; "1" and "yes" are off as well |
| HorovodRoles.GetRank | architectures/Python-Keras-Training/HorovodKeras/src/imagenet_keras_horovod.py:59-66 | the logged rank is 0 when not distributed and 0 when the rank query raises; otherwise it is the rank the query answers |
| HorovodRoles.IsMaster | architectures/Python-Keras-Training/HorovodKeras/src/imagenet_keras_horovod.py:247-254 | succeeds exactly when not distributed or the query answers; then it is master exactly when not distributed or the rank is 0 |
| HorovodRoles.LoggedRankZeroIffMaster | architectures/Python-Keras-Training/HorovodKeras/src/imagenet_keras_horovod.py:59-66 | where the query answers, a process is master exactly when its logged rank is 0 |
| HorovodRoles.FailedQueryMaskedOnlyInLog | architectures/Python-Keras-Training/HorovodKeras/src/imagenet_keras_horovod.py:247-254 | a failing rank query is logged as rank 0 but makes the master test raise in a distributed run |
| HorovodRoles.GetModelDir | architectures/Python-Keras-Training/HorovodKeras/src/imagenet_keras_horovod.py:181-191 | fails exactly when the master test fails; otherwise it is the output-model directory for the master and the job temporary directory for every other rank |
| HorovodRoles.OnlyMasterWritesOutputDir | architectures/Python-Keras-Training/HorovodKeras/src/imagenet_keras_horovod.py:181-191 | when the two directories differ, a process gets the output-model directory exactly when it is not distributed or has rank 0 |
| HorovodRoles.EpochTagShape | architectures/Python-Keras-Training/HorovodKeras/src/imagenet_keras_horovod.py:75-76 | the tag is "[Epoch ", the decimal numeral of the epoch, then "]" |
| HorovodRoles.EpochTag | architectures/Python-Keras-Training/HorovodKeras/src/imagenet_keras_horovod.py:76 | (no contract of its own) the `set_epoch` format; EpochTagShape and EpochTagInjective state its shape and injectivity |
| HorovodRoles.EpochTagInjective | architectures/Python-Keras-Training/HorovodKeras/src/imagenet_keras_horovod.py:75-76 | two epochs with the same tag are the same epoch |
| HorovodRoles.HorovodAdapter.constructor | architectures/Python-Keras-Training/HorovodKeras/src/imagenet_keras_horovod.py:70-73 | a new adapter has an empty epoch tag and rank field 0 |
| HorovodRoles.HorovodAdapter.SetEpoch | architectures/Python-Keras-Training/HorovodKeras/src/imagenet_keras_horovod.py:75-76 | the stored tag becomes the epoch's tag; nothing else changes |
| HorovodRoles.HorovodAdapter.Process | architectures/Python-Keras-Training/HorovodKeras/src/imagenet_keras_horovod.py:78-80 | the message passes unchanged; the keyword arguments gain or overwrite `extra` = (logged rank, current tag) and keep every other key and value |
| HorovodRoles.TagLifecycle | architectures/Python-Keras-Training/HorovodTF/src/imagenet_estimator_tf_horovod.py:70-81 | records carry an empty epoch tag until `set_epoch(n)`, and "[Epoch n]" afterwards |
| Decimal.NatToString | architectures/Python-Keras-Training/HorovodKeras/src/imagenet_keras_horovod.py:76 | the numeral of a number is non-empty, all digits, without leading zero |
| Decimal.ParseNatToString | architectures/Python-Keras-Training/HorovodKeras/src/imagenet_keras_horovod.py:76 | reading the numeral back gives the number |
| Decimal.NatToStringInjective | architectures/Python-Keras-Training/HorovodKeras/src/imagenet_keras_horovod.py:76 | distinct numbers have distinct numerals |
| Decimal.IntToString | archectures/Python-Keras-Training/common/timer.py:56 | the printed integer starts with '-' exactly when it is negative, and the magnitude's numeral follows the sign; a non-negative one prints as its numeral |
| KerasTraining.GetOptimizer | architectures/Python-Keras-Training/HorovodKeras/src/imagenet_keras_horovod.py:155-166 | the distributed optimizer wraps SGD exactly when distributed; the rate is the base rate times the world size when distributed, the base rate otherwise; the momentum is kept |
| KerasTraining.GetHooks | architectures/Python-Keras-Training/HorovodKeras/src/imagenet_keras_horovod.py:194-227 | no callbacks for a single process; for a distributed run seven callbacks, starting with the broadcast from rank 0, the metric average and the warmup |
| KerasTraining.ScheduleAfterWarmup | architectures/Python-Keras-Training/HorovodKeras/src/imagenet_keras_horovod.py:211-224 | at most one schedule window covers any epoch; the multiplier is none during warmup, then 1.0, 0.1, 0.01 and 0.001 from epochs 5, 30, 60 and 80 |
| KerasTraining.AssembleCallbacks | architectures/Python-Keras-Training/HorovodKeras/src/imagenet_keras_horovod.py:313-318 | the list is the Horovod hooks built with the default verbosity 1 on every rank, then the epoch logger, then the checkpoint writer exactly on the master |
| KerasTraining.CheckpointWriterOnlyOnMaster | architectures/Python-Keras-Training/HorovodKeras/src/imagenet_keras_horovod.py:313-318 | the list holds a checkpoint writer exactly when the process is master |
| KerasTraining.CheckpointFormat | architectures/Python-Keras-Training/HorovodKeras/src/imagenet_keras_horovod.py:310-311 | an unset model directory raises TypeError; otherwise the pattern is the directory joined with "checkpoint-{epoch}.h5" |
| KerasTraining.Broadcast | architectures/Python-Keras-Training/HorovodKeras/src/imagenet_keras_horovod.py:289-291 | the broadcast value is one of the values the ranks hold |
| KerasTraining.NeverRestores | architectures/Python-Keras-Training/HorovodKeras/src/imagenet_keras_horovod.py:323-324 | the resume epoch set at lines 287-291 is always 0, so no rank, master or not, loads a checkpoint |
| KerasTraining.NumWorkers | architectures/Python-Keras-Training/HorovodKeras/src/imagenet_keras_horovod.py:331 | the worker count is the world size when distributed, 1 otherwise, and never 0 |
| KerasTraining.ResumeFromEpoch | architectures/Python-Keras-Training/HorovodKeras/src/imagenet_keras_horovod.py:287-291 | (no contract of its own) every rank holds 0 and a distributed run takes rank 0's copy; NeverRestores states the result |
| KerasTraining.RestoresCheckpoint | architectures/Python-Keras-Training/HorovodKeras/src/imagenet_keras_horovod.py:323 | (no contract of its own) the restore guard: a positive resume epoch on the master |
| KerasTraining.StepsPerEpoch | architectures/Python-Keras-Training/HorovodKeras/src/imagenet_keras_horovod.py:331-334 | the steps are the largest whole share of the batches per worker: steps·workers ≤ batches < (steps+1)·workers |
| KerasTraining.Verbosity | architectures/Python-Keras-Training/HorovodKeras/src/imagenet_keras_horovod.py:274-280 | verbosity is 1 exactly on the master and 0 elsewhere |
| KerasTraining.LoggerCallback.constructor | architectures/Python-Keras-Training/HorovodKeras/src/imagenet_keras_horovod.py:231-235 | the callback owns a fresh timer that reports to `logger.info` with prefix "Epoch duration: " and is not started; `Valid` (the timer is never stopped) holds |
| KerasTraining.LoggerCallback.OnEpochBegin | architectures/Python-Keras-Training/HorovodKeras/src/imagenet_keras_horovod.py:237-240 | the adapter's tag becomes the epoch's tag and the timer restarts at the current reading; `Valid` is kept |
| KerasTraining.LoggerCallback.OnEpochEnd | architectures/Python-Keras-Training/HorovodKeras/src/imagenet_keras_horovod.py:242-244 | the duration is the running elapsed time since the last start, since `Valid` keeps the timer running; it raises when the timer was never started |
| KerasTraining.EpochThroughLogger | architectures/Python-Keras-Training/HorovodKeras/src/imagenet_keras_horovod.py:237-244 | through one epoch the tag is the epoch's and the reported duration is end − begin |
| KerasTraining.FinalEvaluationAsWritten | architectures/Python-Keras-Training/HorovodKeras/src/imagenet_keras_horovod.py:344-349 | on real data with validation on, every rank evaluates and averages with `hvd.allreduce`; a single-process run raises NameError there, since `hvd` is imported only when distributed (lines 55-56); otherwise nothing runs |
| KerasTraining.SingleProcessEvaluationFails | architectures/Python-Keras-Training/HorovodKeras/src/imagenet_keras_horovod.py:344-349 | a single-process run on real data with validation raises NameError in the evaluation block |
| KerasTraining.FinalEvaluationIntended | architectures/Python-Keras-Training/HorovodKeras/src/imagenet_keras_horovod.py:344-349 | the corrected block evaluates exactly on real data with validation on, and averages over the ranks exactly when distributed |
| KerasTraining.IntendedAgreesWhereWrittenSucceeds | architectures/Python-Keras-Training/HorovodKeras/src/imagenet_keras_horovod.py:344-349 | the corrected block agrees with the block as written wherever that one succeeds, and the written block fails exactly when the corrected one evaluates without Horovod |
| DataGenerator.CreateData | architectures/Python-Keras-Training/HorovodKeras/src/data_generator.py:9-14 | batch_size·num_batches rows of shape (height, width, channels), all drawn after seeding with 42 |
| DataGenerator.CreateDataIgnoresSeed | architectures/Python-Keras-Training/HorovodKeras/src/data_generator.py:9-14 | the `seed` argument has no effect on the data |
| DataGenerator.CreateLabels | architectures/Python-Keras-Training/HorovodKeras/src/data_generator.py:17-18 | batch_size·num_batches labels, each below n_classes; raises exactly when there are no classes but labels are asked for |
| DataGenerator.NewFakeDataGenerator | architectures/Python-Keras-Training/HorovodKeras/src/data_generator.py:24-45 | succeeds exactly when labels and translation entries can be drawn; then the record keeps every constructor argument, data and labels have batch_size·num_batches rows, every image is drawn after seeding with 42, labels are below n_classes, and the translation index has `length` entries that each name a pool row |
| DataGenerator.OneHotHasSingleOne | architectures/Python-Keras-Training/HorovodKeras/src/data_generator.py:53 | a one-hot row has a 1 at the class, 0 everywhere else, and sums to 1 |
| DataGenerator.OneHot | architectures/Python-Keras-Training/HorovodKeras/src/data_generator.py:53 | `to_categorical` of one class has width n_classes; OneHotHasSingleOne states its single 1 |
| DataGenerator.BatchOf | architectures/Python-Keras-Training/HorovodKeras/src/data_generator.py:48-53 | fails exactly when some index is past the translation index; otherwise the batch has one sample per index, and sample j takes its image and its one-hot label from the same pool row `translation_index[index_array[j]]` |
| DataGenerator.BatchLabelsAreOneHot | architectures/Python-Keras-Training/HorovodKeras/src/data_generator.py:53 | every batch label has width n_classes, sums to 1 and has its 1 at the class of the sample's pool row |
| NumpyRandom.Rand | architectures/Python-Keras-Training/HorovodKeras/src/data_generator.py:10-14 | `rows` rows, each tagged with the seed set before drawing and the requested shape |
| NumpyRandom.Choice | architectures/Python-Keras-Training/HorovodKeras/src/data_generator.py:18 | succeeds exactly when the range is non-empty or nothing is drawn; then it gives `count` values, each below n |
| TfTraining.GetHooks | architectures/Python-Keras-Training/HorovodTF/src/imagenet_estimator_tf_horovod.py:377-384 | no hooks for a single process; exactly one broadcast-from-rank-0 hook when distributed |
| TfTraining.TrainingSteps | architectures/Python-Keras-Training/HorovodTF/src/imagenet_estimator_tf_horovod.py:441-446 | with the GPU count being the Keras worker count (world size when distributed, else 1), the steps are the whole global batches in `epochs` passes: steps·64·gpus ≤ epochs·length < (steps+1)·64·gpus |
| TfTraining.RunsEvaluation | architectures/Python-Keras-Training/HorovodTF/src/imagenet_estimator_tf_horovod.py:452 | the master test is evaluated first, so a failing rank query in a distributed run raises whatever the flags; otherwise evaluation runs exactly when not distributed or on rank 0, with real data and validation on |
| TfTraining.EvaluationOnlyOnMaster | architectures/Python-Keras-Training/HorovodTF/src/imagenet_estimator_tf_horovod.py:452-455 | a distributed rank other than 0 never evaluates, whatever the flags |
| TfTraining.GateDiffersFromKerasScript | architectures/Python-Keras-Training/HorovodTF/src/imagenet_estimator_tf_horovod.py:452 | on a non-master rank with real data and validation on, the Keras block evaluates while the TensorFlow gate does not |
| TfTraining.Slice | architectures/Python-Keras-Training/HorovodTF/src/imagenet_estimator_tf_horovod.py:308-309 | within bounds, NumPy slicing is the subsequence between the bounds |
| TfTraining.FakeDataGenerator | architectures/Python-Keras-Training/HorovodTF/src/imagenet_estimator_tf_horovod.py:306-310 | exactly `num_batches` pairs are yielded; pair i holds rows [64i, 64(i+1)) of the data and of the labels |
| TfTraining.BatchesPartitionPool | architectures/Python-Keras-Training/HorovodTF/src/imagenet_estimator_tf_horovod.py:306-310 | on a pool of num_batches·64 rows every batch is full and the batches, concatenated in order, give the pool back |
| TfTraining.CreateFakePool | architectures/Python-Keras-Training/HorovodTF/src/imagenet_estimator_tf_horovod.py:302-303 | 64·num_batches images and as many labels, each label below 1000 |
| TfTraining.FakeEpoch | architectures/Python-Keras-Training/HorovodTF/src/imagenet_estimator_tf_horovod.py:295-343 | the generator over the fake pool yields num_batches full batches whose images, and whose labels, concatenate back to the pool |
| TorchTraining.DecrementInPlace | archectures/Python-Keras-Training/HorovodPytorch/src/imagenet_pytorch_horovod.py:130 | `labels -= 1` in place: every element of the array is one less than before |
| TorchTraining.ShiftLabels | archectures/Python-Keras-Training/HorovodPytorch/src/imagenet_pytorch_horovod.py:127-131 | the training and the validation labels are each decremented in place |
| TorchTraining.OneBasedBecomesZeroBased | archectures/Python-Keras-Training/HorovodPytorch/src/imagenet_pytorch_horovod.py:127-131 | ids in [1, n] become class indices in [0, n), and their order is kept |
| TorchTraining.CreateData | archectures/Python-Keras-Training/HorovodPytorch/src/imagenet_pytorch_horovod.py:135-139 | batch_size·num_batches rows of shape (channels, height, width) drawn after seeding with `seed` |
| TorchTraining.NewFakeData | archectures/Python-Keras-Training/HorovodPytorch/src/imagenet_pytorch_horovod.py:147-175 | succeeds exactly when labels and translation entries can be drawn; then n_classes and length are the arguments, labels are below n_classes, the translation index has `length` entries each naming a pool row, the pool has batch_size·num_batches rows seeded with 42, and the transform is kept |
| TorchTraining.LenIsConfiguredLength | archectures/Python-Keras-Training/HorovodPytorch/src/imagenet_pytorch_horovod.py:190-191 | the dataset's length is the configured `length`, whatever the size of the pool |
| TorchTraining.GetItem | archectures/Python-Keras-Training/HorovodPytorch/src/imagenet_pytorch_horovod.py:177-188 | fails exactly when the index is past the length; otherwise data and label come from the same translated row, and the data is raw exactly when there is no transform |
| TorchTraining.Len | archectures/Python-Keras-Training/HorovodPytorch/src/imagenet_pytorch_horovod.py:190-191 | (no contract of its own) `__len__` is the configured length; LenIsConfiguredLength ties it to the constructor's argument |
| TorchTraining.TransformLeavesLabel | archectures/Python-Keras-Training/HorovodPytorch/src/imagenet_pytorch_horovod.py:183-188 | the transform never changes the label, and without a transform the data row is returned unchanged |
| TorchTraining.LogCount | archectures/Python-Keras-Training/HorovodPytorch/src/imagenet_pytorch_horovod.py:210-221 | the number of progress lines for n batches is the number of multiples of 100 below n |
| TorchTraining.TrainLogsCadence | archectures/Python-Keras-Training/HorovodPytorch/src/imagenet_pytorch_horovod.py:210-221 | progress lines are exactly at the steps i with i % 100 == 0, in increasing order, each timed from the previous restart of the timer |
| TorchTraining.StepIsLogStepIff | archectures/Python-Keras-Training/HorovodPytorch/src/imagenet_pytorch_horovod.py:219 | between two consecutive multiples of 100, only the lower one is a log step |
| TorchTraining.Train | archectures/Python-Keras-Training/HorovodPytorch/src/imagenet_pytorch_horovod.py:204-221 | the loop sets the epoch tag and produces exactly the progress lines of the cadence specification |
| TorchTraining.ScaledLearningRate | archectures/Python-Keras-Training/HorovodPytorch/src/imagenet_pytorch_horovod.py:331-333 | the rate equals the rate the Keras script's optimizer gets for the same base rate and world (base rate times world size when distributed, base rate otherwise) |
| TorchTraining.LeaveEpochTimer | archectures/Python-Keras-Training/HorovodPytorch/src/imagenet_pytorch_horovod.py:351-355 | leaving the epoch's timed block hands "Training" and the elapsed time since entry to `logger.info`; the timer is stopped at the exit reading and keeps its `logger.info` output |
| TorchTraining.RunEpoch | archectures/Python-Keras-Training/HorovodPytorch/src/imagenet_pytorch_horovod.py:351-355 | one epoch sets the tag, produces the cadence's progress lines and emits the timing line for exit − enter |
| TorchTraining.EpochLines | archectures/Python-Keras-Training/HorovodPytorch/src/imagenet_pytorch_horovod.py:350-356 | over n epochs, line e reports exit(e) − enter(e) |
| TorchTraining.EpochLogs | archectures/Python-Keras-Training/HorovodPytorch/src/imagenet_pytorch_horovod.py:350-356 | over n epochs, epoch e's progress lines follow the cadence with that epoch's clock readings |
| TorchTraining.Upto | archectures/Python-Keras-Training/HorovodPytorch/src/imagenet_pytorch_horovod.py:350 | the epochs 0 … n−1 in order |
| TorchTraining.NextEpoch | archectures/Python-Keras-Training/HorovodPytorch/src/imagenet_pytorch_horovod.py:350-356 | one more epoch extends the sampler epochs (distributed only), the timing lines and the progress lines by that epoch's entries |
| TorchTraining.TrainingLoop | archectures/Python-Keras-Training/HorovodPytorch/src/imagenet_pytorch_horovod.py:350-356 | the sampler is told epochs 0 … n−1 once each and in order, only when distributed; every epoch emits its timing line and progress lines; the last tag is the last epoch's, and with no epochs the tag is untouched |
| Timing.ResolveOutput | archectures/Python-Keras-Training/common/timer.py:52-53 | the output is callable exactly when it was callable, or True, or unset with a non-empty prefix; a newly callable output is `print`; a callable output is kept |
| Timing.Text | archectures/Python-Keras-Training/common/timer.py:56 | the emitted text is the prefix, one space, then the formatted elapsed time, so an empty prefix still leaves a leading space |
| Timing.Timer.constructor | archectures/Python-Keras-Training/common/timer.py:19-31 | the settings are stored and both start and end are unset |
| Timing.Timer.Start | archectures/Python-Keras-Training/common/timer.py:33-34 | start holds the current reading; end is untouched |
| Timing.Timer.Stop | archectures/Python-Keras-Training/common/timer.py:36-37 | end holds the current reading; start is untouched |
| Timing.Timer.Elapsed | archectures/Python-Keras-Training/common/timer.py:62-71 | raises TypeError when never started; before a stop it is (now − start)·factor, after it (end − start)·factor |
| Timing.Timer.Enter | archectures/Python-Keras-Training/common/timer.py:43-46 | entering starts the timer and returns the timer itself |
| Timing.Timer.Exit | archectures/Python-Keras-Training/common/timer.py:48-57 | exiting stops the timer and resolves the output; if the output is callable it receives the prefix and the elapsed time (a never-started timer raises), otherwise nothing is emitted |
| Timing.ElapsedFrozenAfterStop | archectures/Python-Keras-Training/common/timer.py:66-71 | once stopped, elapsed no longer depends on the clock |
| Timing.RestartAfterStop | archectures/Python-Keras-Training/common/timer.py:33-34 | stop then start keeps the old end, so elapsed measures from the new start back to the old end |
| Timing.TimedBlock | archectures/Python-Keras-Training/common/timer.py:43-57 | a `with Timer(output=sink, prefix=...)` block entered at t0 and left at t1 emits prefix and t1 − t0 to the sink, and reports elapsed t1 − t0 |
| Timing.OutputDefaults | archectures/Python-Keras-Training/common/timer.py:52-57 | with neither output nor prefix nothing is emitted; a prefix alone prints; `output=True` with an empty prefix prints a line starting with a space |
| Timing.Bind | archectures/Python-Keras-Training/common/timer.py:74-78 | the first positional argument binds to `logger`, and only arguments after the third reach `func_or_func_args` |
| Timing.TimerAsWritten | archectures/Python-Keras-Training/common/timer.py:101-105 | the call returns the wrapped function exactly when four positional arguments are given and the fourth is callable; otherwise it returns the decorator |
| Timing.BareDecoratorMisbinds | archectures/Python-Keras-Training/common/timer.py:101-105 | bare `@timer` binds the function to `logger` and returns the decorator, not the wrapped function |
| Timing.TimerDecorator | archectures/Python-Keras-Training/common/timer.py:101-105 | a lone callable is wrapped with the defaults; every other call behaves as written |
| Timing.CallWrapped | archectures/Python-Keras-Training/common/timer.py:81-97 | the wrapped function's result or exception passes through unchanged; the inner Timer built from the keyword arguments emits its own line exactly when its output resolves to a callable, also when the function raised; on a return the time (scaled by `factor`) reaches the logger when there is one and `print` otherwise, and on an exception nothing is reported |
| PreGenHook.WordRunEnd | Python-Keras-RealTimeServing/hooks/pre_gen_project.py:5 | the greedy run of word characters ends at the first non-word character or at the end |
| PreGenHook.MatchesModuleRegex | Python-Keras-RealTimeServing/hooks/pre_gen_project.py:5-9 | (no contract of its own) `re.match` of the pattern; MatcherIsValidModuleName states what it accepts |
| PreGenHook.MatcherIsValidModuleName | Python-Keras-RealTimeServing/hooks/pre_gen_project.py:5-9 | the pattern matches exactly a letter or underscore followed by one or more word characters, optionally followed by one final newline |
| PreGenHook.HyphenRejected | Python-Keras-RealTimeServing/hooks/pre_gen_project.py:9-17 | a name containing '-' never matches |
| PreGenHook.ShortNamesRejected | Python-Keras-RealTimeServing/hooks/pre_gen_project.py:5 | names of fewer than two characters never match |
| PreGenHook.TrailingNewlineAccepted | Python-Keras-RealTimeServing/hooks/pre_gen_project.py:5-9 | a valid name followed by one "\n" still matches |
| PreGenHook.ModuleNameExamples | Python-Keras-RealTimeServing/hooks/pre_gen_project.py:5-9 | "my_project" and "_x1" match; "my-project", "1st_project" and "a" do not |
| PreGenHook.ErrorTextsNameTheInput | Python-Keras-RealTimeServing/hooks/pre_gen_project.py:10-14 | the slug and image-name error messages contain the rejected input at its place in the message |
| PreGenHook.CheckModule | Python-Keras-RealTimeServing/hooks/pre_gen_project.py:8-17 | passes exactly for valid module names; otherwise prints the slug error naming the input |
| PreGenHook.CheckSubId | Python-Keras-RealTimeServing/hooks/pre_gen_project.py:20-27 | passes exactly for non-empty ids; otherwise prints the missing-id error |
| PreGenHook.CheckImageName | Python-Keras-RealTimeServing/hooks/pre_gen_project.py:30-39 | passes exactly for names without '_'; otherwise prints the underscore error naming the input |
| PreGenHook.RunHook | Python-Keras-RealTimeServing/hooks/pre_gen_project.py:42-51 | the exit status is 0 or 1, at least one line is printed, and the status is 0 exactly when the first line is "All checks passed" |
| PreGenHook.HookPassesIffAllValid | Python-Keras-RealTimeServing/hooks/pre_gen_project.py:42-51 | the hook exits 0 exactly when all three inputs are valid; otherwise it exits 1 after printing one error line and never "All checks passed" |
| PreGenHook.BadModuleStopsFirst | Python-Keras-RealTimeServing/hooks/pre_gen_project.py:43 | a bad slug is reported alone, whatever the other inputs |
| PreGenHook.MissingSubIdBeforeImage | Python-Keras-RealTimeServing/hooks/pre_gen_project.py:44-45 | with a good slug, a missing subscription id is reported before any image-name problem |
| PreGenHook.DeploymentAnnouncement | Python-Keras-RealTimeServing/hooks/pre_gen_project.py:46-51 | when all pass, "All checks passed" is printed first and then the AKS or IoT Edge announcement for those deployment types |
| PosixPath.Join | architectures/PySpark-ML-Scoring/scripts/config.py:52 | the joined path is dir + name when dir is empty or ends with '/', and dir + "/" + name otherwise |
| PosixPath.JoinEndsWithName | architectures/PySpark-ML-Scoring/scripts/config.py:52 | the joined path ends with the name |
| JobConfig.Split | architectures/PySpark-ML-Scoring/scripts/config.py:56 | splitting at the occurrences always leaves at least one piece |
| JobConfig.ReplaceIsJoinOfSplit | architectures/PySpark-ML-Scoring/scripts/config.py:56 | replacing is splitting at the occurrences and joining the pieces with the replacement |
| JobConfig.ReplaceBySelf | architectures/PySpark-ML-Scoring/scripts/config.py:56 | replacing a string by itself changes nothing |
| JobConfig.SplitJoinRoundTrip | architectures/PySpark-ML-Scoring/scripts/config.py:56 | joining the pieces with the placeholder gives the text back |
| JobConfig.FirstPieceIsPrefix | architectures/PySpark-ML-Scoring/scripts/config.py:56 | the first piece is a prefix of the text |
| JobConfig.PiecesAreFree | architectures/PySpark-ML-Scoring/scripts/config.py:55-58 | no piece left between replacements contains the placeholder: every occurrence is replaced |
| JobConfig.ReplaceAbsent | architectures/PySpark-ML-Scoring/scripts/config.py:55-58 | a text without the placeholder is left unchanged |
| JobConfig.ReplaceWhole | architectures/PySpark-ML-Scoring/scripts/config.py:56 | a text that is exactly the placeholder becomes the replacement |
| JobConfig.ReplaceKeepsLength | architectures/PySpark-ML-Scoring/scripts/config.py:60 | an equally long replacement keeps the length |
| JobConfig.Replace | architectures/PySpark-ML-Scoring/scripts/config.py:56 | (no contract of its own) `str.replace`, left to right; the Replace lemmas state its meaning |
| JobConfig.Substitute | architectures/PySpark-ML-Scoring/scripts/config.py:55-58 | raises TypeError exactly when the placeholder is present and its value is missing; a text without the placeholder is returned unchanged |
| JobConfig.Configure | architectures/PySpark-ML-Scoring/scripts/config.py:55-58 | a configuration failure is always a TypeError; ConfigureReplacesAll and MissingClusterId state when and what |
| JobConfig.ConfigureReplacesAll | architectures/PySpark-ML-Scoring/scripts/config.py:55-58 | with both values given, every cluster placeholder and then every user placeholder is replaced |
| JobConfig.NoPlaceholdersUnchanged | architectures/PySpark-ML-Scoring/scripts/config.py:53-62 | a template with neither placeholder is written unchanged, whatever the arguments |
| JobConfig.MissingClusterId | architectures/PySpark-ML-Scoring/scripts/config.py:55-58 | without a cluster id, configuration fails exactly when the cluster placeholder is present, or the user placeholder is present and the username is missing too |
| JobConfig.ClusterValueIntroducesUser | architectures/PySpark-ML-Scoring/scripts/config.py:55-58 | a user placeholder brought in by the cluster value is replaced as well |
| JobConfig.OutputName | architectures/PySpark-ML-Scoring/scripts/config.py:60 | the output name is as long as the template path |
| JobConfig.OutputNameExamples | architectures/PySpark-ML-Scoring/scripts/config.py:60 | "a.tmpl" becomes "a.json", and "tmpl/a.tmpl" becomes "json/a.json": directory names are rewritten too |
| JobConfig.Selected | architectures/PySpark-ML-Scoring/scripts/config.py:52 | (no contract of its own) the `*.tmpl` glob: names ending in ".tmpl", not hidden |
| JobConfig.SelectedEntries | architectures/PySpark-ML-Scoring/scripts/config.py:52 | the selected entries, in listing order, are all selected and no more than the listing |
| JobConfig.Run | architectures/PySpark-ML-Scoring/scripts/config.py:52-63 | (no contract of its own) the loop's specification; the lemmas below state its outcome |
| JobConfig.WrittenMatchesPrinted | architectures/PySpark-ML-Scoring/scripts/config.py:60-63 | each file written is the `json` name of the template path printed with it, in the same order |
| JobConfig.AllSelectedWritten | architectures/PySpark-ML-Scoring/scripts/config.py:52-63 | with both values given nothing fails; the printed paths are the directory joined with each selected name, in listing order, and each written file is the path's `json` name holding the template with both placeholders replaced |
| JobConfig.FirstFailureStops | architectures/PySpark-ML-Scoring/scripts/config.py:52-63 | the first selected template whose placeholder has no value ends the run with a `TypeError`; the files written and names printed before it stay, and later entries are not touched |
| JobConfig.UnselectedIgnored | architectures/PySpark-ML-Scoring/scripts/config.py:52 | entries the glob does not select are never read, written or printed |
| JobConfig.ConfigureJobs | architectures/PySpark-ML-Scoring/scripts/config.py:52-63 | the loop writes, prints and stops on the first failure exactly as the run specification says |
| WorkspaceInput.ValidateInput | AzureML_AI.py:13-28 | succeeds exactly when subscription, resource group and workspace name are all given; every failure is a ValueError |
| WorkspaceInput.SubscriptionCheckedFirst | AzureML_AI.py:15-17 | a missing subscription id is reported first, whatever else is missing |
| WorkspaceInput.ResourceGroupCheckedSecond | AzureML_AI.py:18-20 | with a subscription id, a missing resource group is reported next |
| WorkspaceInput.WorkspaceNameCheckedThird | AzureML_AI.py:21-23 | with both before it, a missing workspace name is reported |
| WorkspaceInput.RegionChoice | AzureML_AI.py:24-28 | on success the region is the given one, or else the recommender's answer for the subscription |
| WorkspaceInput.GivenRegionIgnoresRecommender | AzureML_AI.py:28 | a given region is returned whatever the recommender would say |

## Left out

- Horovod itself is not modelled: `hvd.init`, the collectives, the distributed optimizer, and the broadcast, metric-average, warmup and schedule callbacks. These run as separate processes inside a library. Rank and world size are parameters, and the callbacks are values recording the arguments they receive.
- Model construction, training, evaluation and the loss are not modelled. They are numerics inside Keras, TensorFlow and PyTorch. `train` keeps only its logging and timing; the loss value is dropped from its progress line.
- Floating point is not modelled. Clock readings and elapsed times are integers. The "{:.3f}" format prints the elapsed value as an integer numeral. Learning rates are `real`.
- HorovodRoles.Lower: lower-cases ASCII letters only; Unicode case mapping is not modelled.
- Environment and command-line reading (`os.getenv`, argparse, getopt) is not modelled. Settings are parameters. When `EPOCHS` is set it is a string, so the TensorFlow step formula would repeat a string; the model takes epochs as an integer.
- `validate`, `_get_runconfig`, `_log_summary`, the logger handler setup and `lru_cache` are left out. They are logging and I/O plumbing or foreign calls.
- The Keras `Iterator` base class (its shuffling and position) is left out. It is foreign code; the model starts from the `index_array` it passes in.
- TensorFlow's `tf.data` preprocessing and the image pipelines are left out. They are foreign calls.
- NumPy's random generator is symbolic. Drawn values are not computed, and negative NumPy indices do not occur at the call sites.
- File I/O is left out, and so is the directory listing `glob` returns. The model takes the directory's entries as a sequence in glob's order. Directories whose names end in ".tmpl" are not distinguished from files.
- PosixPath.Join: an absolute second component, which discards the directory, is not modelled. It does not occur at the call sites.
- The `main` of the Azure ML workspace script (getopt, `Workspace.create`, the dotenv file) is left out. It is I/O and foreign calls. The logging calls inside `validate_input` are left out as well.
- The `with Timer(...)` block in the TensorFlow `main` is covered by the generic Timing.TimedBlock rather than by a member of its own.
- KerasTraining.LoggerCallback.OnEpochEnd: the `_log_summary` throughput line it writes is left out, since it is floating point. Only the epoch duration is stated.
- Timing.CallWrapped: the `%`-formatted report text is not rendered; the report records the function name and the execution time. The inner Timer's `timer` (clock) keyword is replaced by the readings `t0` and `t1`.
- Timing.Bind: `logger`, `level` and `fmt` passed by keyword (`@timer(logger=log)`) are not modelled; only positional binding is.
- Timing.TimerDecorator: `collections.Callable` no longer exists on recent Python versions. There the dispatch raises AttributeError whenever exactly one positional argument follows logger, level and fmt; the `and` short-circuits, so every other call, bare `@timer` included, still returns `wrapped_f`. The model treats that test as a callable check.

## Findings

| source | as written | input that shows it | evidently intended | confidence | as-written member | corrected member |
|---|---|---|---|---|---|---|
| architectures/Python-Keras-Training/HorovodKeras/src/imagenet_keras_horovod.py:344-349 | the evaluation block runs whenever real data and validation are on and always calls `hvd.allreduce`, but `hvd` is imported only when distributed (lines 55-56) | DISTRIBUTED unset, FAKE=False, VALIDATION=True: `hvd.allreduce` raises NameError before `evaluate_generator` runs; the `Testing` timer still emits its line on the way out | the score is averaged with Horovod only in a distributed run, as every other Horovod call in the script is guarded | not executed | KerasTraining.FinalEvaluationAsWritten | KerasTraining.FinalEvaluationIntended |
| archectures/Python-Keras-Training/common/timer.py:101-105 | the decorator wraps directly only when one callable follows the three named parameters, so a lone positional argument binds to `logger` | bare `@timer` on a function `f`, i.e. `timer(f)`: `f` becomes the logger and the call returns the decorator `wrapped_f`, so calling the "decorated" `f(x)` wraps `x` instead of running `f` | `@timer` used bare wraps `f` with the default logger, level and format | not executed | Timing.TimerAsWritten | Timing.TimerDecorator |
