/** The rank and role helpers that the three Horovod training scripts (Keras,
    TensorFlow Estimator, PyTorch) each define with identical bodies:
    environment-flag parsing, the rank lookup, the master test, the choice of
    model directory and the logging adapter that tags every record with the
    worker's rank and the current epoch.

    The Horovod runtime is not modelled. Each query of `hvd.rank()` is a
    `RankQuery`: it either answers with this process's rank or raises (for
    instance because `hvd.init()` has not run). */
module HorovodRoles {
  import opened Wrappers
  import Decimal

  // ---------------------------------------------------------------------
  // `_str_to_bool`

  /** ASCII lower-casing of one character, as `str.lower` does on ASCII. */
  function LowerChar(c: char): (l: char)
    ensures ('A' <= c <= 'Z') ==> l as int == c as int + 32
    ensures !('A' <= c <= 'Z') ==> l == c
  {
    if 'A' <= c <= 'Z' then (c as int + 32) as char else c
  }

  function Lower(s: string): (l: string)
    ensures |l| == |s|
    ensures forall i :: 0 <= i < |s| ==> l[i] == LowerChar(s[i])
  {
    seq(|s|, i requires 0 <= i < |s| => LowerChar(s[i]))
  }

  /** An environment flag is on exactly when its lower-cased text contains a 't'. */
  function StrToBool(s: string): (b: bool)
    ensures b <==> exists i :: 0 <= i < |s| && (s[i] == 't' || s[i] == 'T')
  {
    var l := Lower(s);
    assert forall i :: 0 <= i < |s| ==> (l[i] == 't' <==> (s[i] == 't' || s[i] == 'T'));
    't' in l
  }

  /** The defaults and the usual spellings. Any text without a 't' is off,
      so "1" and "yes" are off as well. */
  lemma StrToBoolExamples()
    ensures !StrToBool("False") && !StrToBool("") && !StrToBool("false")
    ensures StrToBool("True") && StrToBool("TRUE") && StrToBool("true")
    ensures !StrToBool("1") && !StrToBool("yes")
  {
    assert "True"[0] == 'T';
    assert "TRUE"[0] == 'T';
    assert "true"[0] == 't';
  }

  // ---------------------------------------------------------------------
  // Rank, master and model directory

  /** One call of `hvd.rank()`: an answer, or an exception. */
  datatype RankQuery = Answers(rank: nat) | Raises

  const RankUnavailable := RuntimeError("Horovod has not been initialized")

  /** `_get_rank`: the rank reported to the log; any failure of the query
      is swallowed and reported as rank 0. */
  function GetRank(distributed: bool, q: RankQuery): (r: nat)
    ensures !distributed ==> r == 0
    ensures q.Raises? ==> r == 0
    ensures distributed && q.Answers? ==> r == q.rank
  {
    if distributed then
      match q
      case Answers(rank) => rank
      case Raises => 0
    else 0
  }

  /** `_is_master`: single-process runs are always master; a distributed
      run is master exactly on rank 0. Unlike `GetRank`, a failing rank
      query propagates. */
  function IsMaster(distributed: bool, q: RankQuery): (m: Result<bool>)
    ensures m.Ok? <==> (!distributed || q.Answers?)
    ensures m.Ok? ==> (m.value <==> (!distributed || q.rank == 0))
  {
    if distributed then
      match q
      case Answers(rank) => Ok(rank == 0)
      case Raises => Raised(RankUnavailable)
    else Ok(true)
  }

  /** Where the rank query answers, the logged rank is 0 exactly on the master. */
  lemma LoggedRankZeroIffMaster(distributed: bool, rank: nat)
    ensures IsMaster(distributed, Answers(rank)).Ok?
    ensures IsMaster(distributed, Answers(rank)).value <==> GetRank(distributed, Answers(rank)) == 0
  {
  }

  /** A failing rank query is hidden by `_get_rank` but not by `_is_master`. */
  lemma FailedQueryMaskedOnlyInLog(distributed: bool)
    ensures GetRank(distributed, Raises) == 0
    ensures distributed ==> IsMaster(distributed, Raises).Raised?
  {
  }

  /** The two directories `_get_model_dir` reads from the environment
      (`os.getenv` gives `None` when a variable is unset). */
  datatype ModelDirs = ModelDirs(outputModel: Option<string>, jobTempDir: Option<string>)

  /** `_get_model_dir`: the output-model directory for the master, the job's
      temporary directory for every other rank. */
  function GetModelDir(distributed: bool, q: RankQuery, env: ModelDirs): (d: Result<Option<string>>)
    ensures d.Ok? <==> IsMaster(distributed, q).Ok?
    ensures d.Ok? ==> d.value == if IsMaster(distributed, q).value then env.outputModel else env.jobTempDir
  {
    if distributed then
      match q
      case Answers(rank) => Ok(if rank == 0 then env.outputModel else env.jobTempDir)
      case Raises => Raised(RankUnavailable)
    else Ok(env.outputModel)
  }

  /** Only one process of a run, the master, ever gets the output-model
      directory as its model directory, when the two directories differ. */
  lemma OnlyMasterWritesOutputDir(distributed: bool, rank: nat, env: ModelDirs)
    requires env.outputModel != env.jobTempDir
    ensures GetModelDir(distributed, Answers(rank), env) == Ok(env.outputModel)
        <==> (!distributed || rank == 0)
  {
  }

  // ---------------------------------------------------------------------
  // `HorovodAdapter`

  /** The tag `set_epoch` stores: `"[Epoch {}]".format(epoch)`. */
  function EpochTag(epoch: nat): string
  {
    "[Epoch " + Decimal.NatToString(epoch) + "]"
  }

  /** The tag reads "[Epoch ", the epoch's numeral, then "]". */
  lemma EpochTagShape(epoch: nat)
    ensures var tag := EpochTag(epoch);
      |tag| > 8 && tag[..7] == "[Epoch " && tag[|tag| - 1] == ']' &&
      tag[7..|tag| - 1] == Decimal.NatToString(epoch)
  {
    var tag := EpochTag(epoch);
    assert tag[..7] == "[Epoch ";
    assert tag[7..|tag| - 1] == Decimal.NatToString(epoch);
  }

  /** Distinct epochs are told apart in the log. */
  lemma EpochTagInjective(a: nat, b: nat)
    requires EpochTag(a) == EpochTag(b)
    ensures a == b
  {
    EpochTagShape(a);
    EpochTagShape(b);
    Decimal.NatToStringInjective(a, b);
  }

  /** The `extra` record attached to every log call. */
  datatype LogExtra = LogExtra(gpurank: nat, epoch: string)

  /** A keyword argument of a logging call: the `extra` record or anything else. */
  datatype Kwarg = Extra(fields: LogExtra) | Other(text: string)

  class HorovodAdapter {
    var strEpoch: string
    /** Set by the constructor and never read. */
    var gpuRank: nat

    constructor ()
      ensures strEpoch == "" && gpuRank == 0
    {
      strEpoch := "";
      gpuRank := 0;
    }

    method SetEpoch(epoch: nat)
      modifies this`strEpoch
      ensures strEpoch == EpochTag(epoch)
    {
      strEpoch := EpochTag(epoch);
    }

    /** `process`: the message is passed through; the keyword arguments gain
        (or have overwritten) `extra`, holding the logged rank and the tag. */
    function Process(msg: string, kwargs: map<string, Kwarg>, distributed: bool, q: RankQuery)
      : (r: (string, map<string, Kwarg>))
      reads this
      ensures r.0 == msg
      ensures r.1.Keys == kwargs.Keys + {"extra"}
      ensures r.1["extra"] == Extra(LogExtra(GetRank(distributed, q), strEpoch))
      ensures forall k :: k in kwargs && k != "extra" ==> r.1[k] == kwargs[k]
    {
      (msg, kwargs["extra" := Extra(LogExtra(GetRank(distributed, q), strEpoch))])
    }
  }

  /** Until `set_epoch` runs, records carry an empty epoch tag; afterwards
      they carry the tag of the last epoch set. */
  method TagLifecycle(msg: string, distributed: bool, q: RankQuery, epoch: nat)
    returns (before: LogExtra, after: LogExtra)
    ensures before == LogExtra(GetRank(distributed, q), "")
    ensures after == LogExtra(GetRank(distributed, q), EpochTag(epoch))
  {
    var adapter := new HorovodAdapter();
    var r := adapter.Process(msg, map[], distributed, q);
    before := r.1["extra"].fields;
    adapter.SetEpoch(epoch);
    r := adapter.Process(msg, map[], distributed, q);
    after := r.1["extra"].fields;
  }
}
