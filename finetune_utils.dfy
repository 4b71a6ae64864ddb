/** The fine-tuning plumbing of experiment/finetuning/utils.py: decoding hyperopt's best
    parameters, building the fine-tune config, fresh file names, and the saved sweep record. */
module FinetuneUtils {
  import opened Wrappers
  import opened Text
  import opened Paths
  import opened Store
  import RunLayout

  // ---------------------------------------------------------------------------
  // Decoding hyperopt's output

  const LOSSES: seq<string> := ["NSE", "MSE", "RMSE"]

  /** `int(x)` on a float: truncation toward zero. */
  function TruncToInt(x: real): (r: int)
    ensures x >= 0.0 ==> r as real <= x < r as real + 1.0
    ensures x < 0.0 ==> r as real - 1.0 < x <= r as real
  {
    if x >= 0.0 then x.Floor else -((-x).Floor)
  }

  /** `LOSSES[i]` with Python's indexing: -3 .. 2 are valid, negative ones count from the end. */
  function LossAt(i: int): (r: Result<string>)
    ensures r.Ok? <==> -|LOSSES| <= i < |LOSSES|
    ensures 0 <= i < |LOSSES| ==> r == Ok(LOSSES[i])
    ensures -|LOSSES| <= i < 0 ==> r == Ok(LOSSES[|LOSSES| + i])
    ensures r.Err? ==> r.error.IndexError?
  {
    if 0 <= i < |LOSSES| then Ok(LOSSES[i])
    else if -|LOSSES| <= i < 0 then Ok(LOSSES[|LOSSES| + i])
    else Err(IndexError("list index out of range"))
  }

  /** The fine-tune arguments: `basin`, `epochs`, the `learning_rate` schedule, `loss` and `lstm`. */
  datatype Args = Args(basin: string, epochs: int, learningRate: map<int, real>, loss: string, lstm: int)

  /** param_dict_from_model_output. */
  function ParamDict(best: BestParams, basin: string): (r: Result<Args>)
    ensures r.Ok? <==> -|LOSSES| <= best.loss < |LOSSES|
    ensures r.Ok? ==>
      && r.value.basin == basin
      && r.value.epochs == TruncToInt(best.epochs)
      && r.value.learningRate == map[0 := best.lr1, 30 := best.lr2]
      && r.value.loss in LOSSES
      && (0 <= best.loss ==> r.value.loss == LOSSES[best.loss])
      && r.value.lstm == best.lstm
  {
    var loss :- LossAt(best.loss);
    Ok(Args(basin, TruncToInt(best.epochs), map[0 := best.lr1, 30 := best.lr2], loss, best.lstm))
  }

  // ---------------------------------------------------------------------------
  // cfg_from_args

  /** The modules to fine-tune: always the head, first; the LSTM too when `lstm` is truthy. */
  function Modules(lstm: int): (r: seq<Value>)
    ensures |r| >= 1 && r[0] == Str("head")
    ensures lstm != 0 <==> r == [Str("head"), Str("lstm")]
    ensures lstm == 0 <==> r == [Str("head")]
  {
    [Str("head")] + (if lstm != 0 then [Str("lstm")] else [])
  }

  /** The four keys cfg_from_args sets. */
  const ArgKeys: set<string> := {"epochs", "learning_rate", "loss", "finetune_modules"}

  /** The fine-tune config derived from the base config and the arguments. */
  function FinetuneConfig(base: Config, args: Args): (c: Config)
    ensures c.Keys == base.Keys + ArgKeys
    ensures c["epochs"] == Int(args.epochs)
    ensures c["learning_rate"] == Schedule(args.learningRate)
    ensures c["loss"] == Str(args.loss)
    ensures c["finetune_modules"] == List(Modules(args.lstm))
    ensures forall k :: k in base && k !in ArgKeys ==> c[k] == base[k]
  {
    base["epochs" := Int(args.epochs)]["learning_rate" := Schedule(args.learningRate)]
        ["loss" := Str(args.loss)]["finetune_modules" := List(Modules(args.lstm))]
  }

  function FinetuneYml(finetuningDir: Path): Path {
    finetuningDir + ["assets", "finetune.yml"]
  }

  /** cfg_from_args: load the base fine-tune YAML next to this module and set the four keys
      one after the other. */
  method CfgFromArgs(files: map<Path, Content>, finetuningDir: Path, args: Args) returns (r: Result<Config>)
    ensures var yml := FinetuneYml(finetuningDir);
      && (r.Ok? <==> yml in files && files[yml].Yaml?)
      && (r.Ok? ==> r.value == FinetuneConfig(files[yml].cfg, args))
  {
    var yml := FinetuneYml(finetuningDir);
    if yml !in files || !files[yml].Yaml? {
      return Err(FileNotFound(yml));
    }
    var data := files[yml].cfg;
    var modules := [Str("head")];
    if args.lstm != 0 {
      modules := modules + [Str("lstm")];
    }
    data := data["epochs" := Int(args.epochs)];
    data := data["learning_rate" := Schedule(args.learningRate)];
    data := data["loss" := Str(args.loss)];
    data := data["finetune_modules" := List(modules)];
    return Ok(data);
  }

  /** Decoding and then building the config: the loss is one of LOSSES, the epochs are the
      truncated draw, the learning rate changes at epochs 0 and 30 only, and the modules
      start with the head. */
  lemma DecodedConfig(base: Config, best: BestParams, basin: string)
    requires ParamDict(best, basin).Ok?
    ensures var c := FinetuneConfig(base, ParamDict(best, basin).value);
      && c["loss"].Str? && c["loss"].s in LOSSES
      && c["epochs"] == Int(TruncToInt(best.epochs))
      && c["learning_rate"].Schedule? && c["learning_rate"].rates.Keys == {0, 30}
      && c["finetune_modules"].List? && c["finetune_modules"].items[0] == Str("head")
  {
    var rates := map[0 := best.lr1, 30 := best.lr2];
    assert rates.Keys == {0, 30};
  }

  // ---------------------------------------------------------------------------
  // make_unique

  /** `<stem>_<k><ext>` beside the original name. */
  function Candidate(name: Path, k: nat): (p: Path)
    requires |name| > 0
    ensures |p| == |name| && Parent(p) == Parent(name)
  {
    var (stem, ext) := SplitExt(Name(name));
    Parent(name) + [stem + "_" + NatDigits(k) + ext]
  }

  lemma MiddleCancels(a: string, b: string, c: string, d: string)
    requires a + b + c == a + d + c
    ensures b == d
  {
    assert |b| == |d|;
    assert b == (a + b + c)[|a|..|a| + |b|];
    assert d == (a + d + c)[|a|..|a| + |d|];
  }

  lemma CandidateInjective(name: Path, j: nat, k: nat)
    requires |name| > 0 && Candidate(name, j) == Candidate(name, k)
    ensures j == k
  {
    var (stem, ext) := SplitExt(Name(name));
    var cj, ck := Candidate(name, j), Candidate(name, k);
    assert cj[|cj| - 1] == stem + "_" + NatDigits(j) + ext;
    assert ck[|ck| - 1] == stem + "_" + NatDigits(k) + ext;
    MiddleCancels(stem + "_", NatDigits(j), ext, NatDigits(k));
    NatDigitsInjective(j, k);
  }

  lemma CandidateIsNew(name: Path, k: nat)
    requires |name| > 0
    ensures Candidate(name, k) != name
  {
    var (stem, ext) := SplitExt(Name(name));
    var c := Candidate(name, k);
    assert |c[|c| - 1]| > |stem + ext| == |Name(name)|;
  }

  /** What make_unique returns: a path that does not exist, which is the name itself when
      that does not exist, and otherwise `<stem>_<k><ext>` for the smallest k >= 1 whose
      candidate does not exist. The suffix never accumulates: every candidate is formed from
      the original stem. */
  ghost predicate IsUniqueName(files: map<Path, Content>, name: Path, r: Path)
    requires |name| > 0
  {
    && r !in files
    && (name !in files ==> r == name)
    && (name in files ==>
          exists k: nat :: k >= 1 && r == Candidate(name, k) &&
            forall j :: 1 <= j < k ==> Candidate(name, j) in files)
  }

  /** The shape of a make_unique result, whatever the files: the name itself or one of its
      `<stem>_<k><ext>` candidates. */
  ghost predicate UniqueNameShape(name: Path, r: Path)
    requires |name| > 0
  {
    r == name || exists k: nat :: k >= 1 && r == Candidate(name, k)
  }

  /** The description determines the name. */
  lemma UniqueNameDetermined(files: map<Path, Content>, name: Path, r1: Path, r2: Path)
    requires |name| > 0 && IsUniqueName(files, name, r1) && IsUniqueName(files, name, r2)
    ensures r1 == r2
  {
    if name in files {
      var k1: nat :| k1 >= 1 && r1 == Candidate(name, k1) &&
        forall j :: 1 <= j < k1 ==> Candidate(name, j) in files;
      var k2: nat :| k2 >= 1 && r2 == Candidate(name, k2) &&
        forall j :: 1 <= j < k2 ==> Candidate(name, j) in files;
    }
  }

  /** A candidate ends in the last character of the original name or in a counter digit. */
  lemma CandidateLastChar(name: Path, k: nat)
    requires |name| > 0 && |Name(name)| > 0 && Name(name)[|Name(name)| - 1] != 't'
    ensures var c := Name(Candidate(name, k)); |c| > 0 && c[|c| - 1] != 't'
  {
    var (stem, ext) := SplitExt(Name(name));
    var d := NatDigits(k);
    var c := stem + "_" + d + ext;
    assert Name(Candidate(name, k)) == c;
    if ext == [] {
      assert c[|c| - 1] == d[|d| - 1] && IsDigit(d[|d| - 1]);
    } else {
      assert c[|c| - 1] == ext[|ext| - 1] == (stem + ext)[|stem + ext| - 1];
    }
  }

  /** make_unique never turns a name that does not end in 't' into a ".txt" name. */
  lemma UniqueNameNotText(files: map<Path, Content>, name: Path, r: Path)
    requires |name| > 0 && |Name(name)| > 0 && Name(name)[|Name(name)| - 1] != 't'
    requires IsUniqueName(files, name, r)
    ensures NotText(r)
  {
    if r != name {
      var k: nat :| k >= 1 && r == Candidate(name, k) &&
        forall j :: 1 <= j < k ==> Candidate(name, j) in files;
      CandidateLastChar(name, k);
    }
    NotTextByLastChar(r);
  }

  /** make_unique: try the name, then `<stem>_1<ext>`, `<stem>_2<ext>`, ... until one does
      not exist. A `.` of a directory component earlier in the path is not an extension. */
  method MakeUnique(files: map<Path, Content>, name: Path) returns (r: Path)
    requires |name| > 0
    ensures IsUniqueName(files, name, r)
    ensures Parent(r) == Parent(name)
  {
    var counter: nat := 1;
    r := name;
    ghost var tested: set<Path> := {};
    while r in files
      invariant counter >= 1
      invariant r == if counter == 1 then name else Candidate(name, counter - 1)
      invariant counter > 1 ==> name in files
      invariant forall j :: 1 <= j < counter - 1 ==> Candidate(name, j) in files
      invariant tested <= files.Keys && |tested| == counter - 1 && r !in tested
      invariant forall k: nat :: k >= counter ==> Candidate(name, k) !in tested
      decreases |files.Keys| - |tested|
    {
      SubsetCard(tested + {r}, files.Keys);
      FreshCandidates(name, counter, r, tested);
      tested := tested + {r};
      r := Candidate(name, counter);
      counter := counter + 1;
    }
    if name in files {
      assert counter > 1 && r == Candidate(name, counter - 1);
    }
  }

  /** The next candidate is not among the names tested so far, nor is any later one. */
  lemma FreshCandidates(name: Path, counter: nat, r: Path, tested: set<Path>)
    requires |name| > 0 && counter >= 1
    requires r == if counter == 1 then name else Candidate(name, counter - 1)
    requires forall k: nat :: k >= counter ==> Candidate(name, k) !in tested
    ensures forall k: nat :: k >= counter + 1 ==> Candidate(name, k) !in tested + {r}
    ensures Candidate(name, counter) !in tested + {r}
  {
    forall k: nat | k >= counter ensures Candidate(name, k) != r {
      LaterCandidate(name, counter, r, k);
    }
  }

  /** A candidate numbered from counter on differs from the name just tested. */
  lemma LaterCandidate(name: Path, counter: nat, r: Path, k: nat)
    requires |name| > 0 && counter >= 1 && k >= counter
    requires r == if counter == 1 then name else Candidate(name, counter - 1)
    ensures Candidate(name, k) != r
  {
    if counter == 1 { CandidateIsNew(name, k); }
    else if Candidate(name, k) == r { CandidateInjective(name, k, counter - 1); }
  }

  lemma SubsetCard<T>(a: set<T>, b: set<T>)
    requires a <= b
    ensures |a| <= |b|
  {
    if a != {} {
      var x :| x in a;
      SubsetCard(a - {x}, b - {x});
    }
  }

  /** generate_sweep_run_directory: a fresh directory under `sweeps/` named after the model. */
  method GenerateSweepRunDirectory(fs: FileSystem, finetuningDir: Path, baseModelId: string) returns (u: Path)
    modifies fs
    ensures IsUniqueName(old(fs.files), finetuningDir + ["sweeps", baseModelId], u)
    ensures fs.files == old(fs.files)[u := Directory]
  {
    u := MakeUnique(fs.files, finetuningDir + ["sweeps", baseModelId]);
    fs.Write(u, Directory);
  }

  // ---------------------------------------------------------------------------
  // Sweep

  /** One hyperparameter sweep on one basin. */
  class Sweep {
    const bestParams: BestParams
    const baseModel: Path
    const finetunedModel: Path
    const basin: string
    const searchSpace: Config
    const maxEvals: int
    const trials: Trials

    /** The sweep's basin is the one its search space names. */
    ghost predicate Valid() {
      "basin" in searchSpace && searchSpace["basin"] == Str(basin)
    }

    /** `Sweep.__init__`; models are kept by their config paths. */
    constructor (bestParams: BestParams, baseModel: Path, finetunedModel: Path, searchSpace: Config,
                 maxEvals: int, trials: Trials)
      requires "basin" in searchSpace && searchSpace["basin"].Str?
      ensures Valid()
      ensures this.bestParams == bestParams && this.baseModel == baseModel
      ensures this.finetunedModel == finetunedModel && this.searchSpace == searchSpace
      ensures this.maxEvals == maxEvals && this.trials == trials
    {
      this.bestParams := bestParams;
      this.baseModel := baseModel;
      this.finetunedModel := finetunedModel;
      basin := searchSpace["basin"].s;
      this.searchSpace := searchSpace;
      this.maxEvals := maxEvals;
      this.trials := trials;
    }

    /** What pickling the sweep stores. */
    function Record(): (s: SweepRecord)
      ensures s.basin == basin && s.searchSpace == searchSpace && s.bestParams == bestParams
      ensures s.maxEvals == maxEvals && s.trials == trials
      ensures s.baseModel == baseModel && s.finetunedModel == finetunedModel
    {
      SweepRecord(bestParams, baseModel, finetunedModel, basin, searchSpace, maxEvals, trials)
    }

    /** `Sweep.save`: pickle to a fresh `<basin>.pkl` in the run directory. */
    method Save(fs: FileSystem, runDir: Path) returns (p: Path)
      modifies fs
      ensures IsUniqueName(old(fs.files), runDir + [basin + ".pkl"], p)
      ensures p !in old(fs.files) && Parent(p) == runDir && NotText(p)
      ensures fs.files == old(fs.files)[p := Pickle(Record())]
    {
      p := MakeUnique(fs.files, runDir + [basin + ".pkl"]);
      UniqueNameNotText(fs.files, runDir + [basin + ".pkl"], p);
      fs.Write(p, Pickle(Record()));
    }
  }

  /** Building a Sweep: reading `search_space['basin']` fails when the key is missing. */
  method NewSweep(bestParams: BestParams, baseModel: Path, finetunedModel: Path, searchSpace: Config,
                  maxEvals: int, trials: Trials) returns (r: Result<Sweep>)
    ensures r.Ok? <==> "basin" in searchSpace && searchSpace["basin"].Str?
    ensures "basin" !in searchSpace ==> r.Err? && r.error.KeyError?
    ensures r.Ok? ==>
      && r.value.Valid() && r.value.searchSpace == searchSpace
      && r.value.bestParams == bestParams && r.value.maxEvals == maxEvals && r.value.trials == trials
      && r.value.baseModel == baseModel && r.value.finetunedModel == finetunedModel
  {
    if "basin" !in searchSpace {
      return Err(KeyError("basin"));
    }
    if !searchSpace["basin"].Str? {
      return Err(ValueError("only string basin ids are modelled"));
    }
    var s := new Sweep(bestParams, baseModel, finetunedModel, searchSpace, maxEvals, trials);
    return Ok(s);
  }
}
