/** The run layout of experiment/utils.py: epoch strings, where a trained model's config and
    metric files live, per-cluster configs, and the loss scanner for training logs. */
module RunLayout {
  import opened Wrappers
  import opened Text
  import opened Paths
  import opened Store

  /** The number of basins every full evaluation covers. */
  const NUM_BASINS: nat := 531

  function Max(a: int, b: int): int {
    if a >= b then a else b
  }

  // ---------------------------------------------------------------------------
  // Epoch strings

  /** `str(epoch)` left-padded with '0' to at least three characters. */
  function EpochPad(epoch: int): (s: string)
    ensures |s| == Max(3, |DecimalString(epoch)|)
    ensures s[|s| - |DecimalString(epoch)|..] == DecimalString(epoch)
    ensures forall i :: 0 <= i < |s| - |DecimalString(epoch)| ==> s[i] == '0'
    ensures |DecimalString(epoch)| >= 3 ==> s == DecimalString(epoch)
  {
    var d := DecimalString(epoch);
    if |d| >= 3 then d else Zeros(3 - |d|) + d
  }

  /** get_epoch_string: prepends '0' while the string is shorter than three characters. */
  method GetEpochString(epoch: int) returns (s: string)
    ensures s == EpochPad(epoch)
  {
    var d := DecimalString(epoch);
    s := d;
    while |s| < 3
      invariant |d| <= |s| <= Max(3, |d|)
      invariant s == Zeros(|s| - |d|) + d
      decreases 3 - |s|
    {
      PadStep(s, d);
      s := "0" + s;
    }
    PadDone(epoch, s);
  }

  lemma PadStep(s: string, d: string)
    requires |d| <= |s| && s == Zeros(|s| - |d|) + d
    ensures "0" + s == Zeros(|s| + 1 - |d|) + d
  {
    assert "0" + (Zeros(|s| - |d|) + d) == ("0" + Zeros(|s| - |d|)) + d;
  }

  lemma PadDone(epoch: int, s: string)
    requires var d := DecimalString(epoch);
      |s| >= 3 && |d| <= |s| <= Max(3, |d|) && s == Zeros(|s| - |d|) + d
    ensures s == EpochPad(epoch)
  {
    var d := DecimalString(epoch);
    if |d| >= 3 {
      assert s == Zeros(0) + d;
    }
  }

  /** Stripping the padding zeros gives back the decimal digits of a positive epoch. */
  lemma EpochPadRoundTrip(epoch: nat)
    requires epoch > 0
    ensures StripLeadingZeros(EpochPad(epoch)) == NatDigits(epoch)
  {
    var d := NatDigits(epoch);
    var k := Max(3, |d|) - |d|;
    assert EpochPad(epoch) == Zeros(k) + d;
    StripZerosPrefix(k, d);
  }

  /** A padded epoch still reads back as the epoch. */
  lemma EpochPadParses(epoch: nat)
    ensures AllDigits(EpochPad(epoch)) && ParseDigits(EpochPad(epoch)) == epoch
  {
    var d := NatDigits(epoch);
    var k := Max(3, |d|) - |d|;
    assert EpochPad(epoch) == Zeros(k) + d;
    ParseZerosPrefix(k, d);
    ParseNatDigits(epoch);
  }

  // ---------------------------------------------------------------------------
  // Trained models

  /** The argument of `TrainedModel(...)`: a `Path`, a `str`, or a value of another type. */
  datatype ModelRef = ConfigFile(path: Path) | ExperimentName(name: string) | OtherArgument

  /** get_cfg_path: `<module dir>/models/runs/<name>/config.yml`. */
  function CfgPathFor(moduleDir: Path, experimentName: string): (p: Path)
    ensures |p| > 0 && Name(p) == "config.yml"
    ensures Parent(p) == moduleDir + ["models", "runs", experimentName]
  {
    moduleDir + ["models", "runs", experimentName, "config.yml"]
  }

  /** The config path a constructor argument designates; any other type is a ValueError. */
  function ResolveCfgPath(ref: ModelRef, moduleDir: Path): (r: Result<Path>)
    ensures r.Err? <==> ref.OtherArgument?
    ensures r.Err? ==> r.error.ValueError?
    ensures ref.ConfigFile? ==> r == Ok(ref.path)
    ensures ref.ExperimentName? ==> r == Ok(CfgPathFor(moduleDir, ref.name))
  {
    match ref
    case ConfigFile(p) => Ok(p)
    case ExperimentName(name) => Ok(CfgPathFor(moduleDir, name))
    case OtherArgument => Err(ValueError("Cannot create a config from input of this type"))
  }

  /** The config keys a TrainedModel reads: `experiment_name` and `epochs`. */
  predicate IsModelConfig(cfg: Config) {
    && "experiment_name" in cfg && cfg["experiment_name"].Str?
    && "epochs" in cfg && cfg["epochs"].Int?
  }

  /** `<run dir>/<period>/model_epoch<NNN>/<period>_metrics.csv`. */
  function MetricsFilePath(runDir: Path, epoch: int, period: string): (p: Path)
    ensures |p| == |runDir| + 3 && p[..|runDir|] == runDir
    ensures p[|runDir|] == period
    ensures p[|runDir| + 1] == "model_epoch" + EpochPad(epoch)
    ensures p[|runDir| + 2] == period + "_metrics.csv"
  {
    runDir + [period, "model_epoch" + EpochPad(epoch), period + "_metrics.csv"]
  }

  /** The epoch directory of a metrics file names at least three digits that read back as the epoch. */
  lemma MetricsFileEpoch(runDir: Path, epoch: nat, period: string)
    ensures var dir := MetricsFilePath(runDir, epoch, period)[|runDir| + 1];
      && StartsWith(dir, "model_epoch") && |dir| >= 14
      && AllDigits(dir[11..]) && ParseDigits(dir[11..]) == epoch
  {
    var dir := MetricsFilePath(runDir, epoch, period)[|runDir| + 1];
    assert dir[11..] == EpochPad(epoch);
    EpochPadParses(epoch);
  }

  /** A trained run: its config, run directory, id and epoch. Immutable once constructed. */
  class TrainedModel {
    const cfgPath: Path
    const cfg: Config
    const configId: string
    const epoch: int
    const runDir: Path
    const metricsFile: Path

    ghost predicate Valid() {
      && IsModelConfig(cfg)
      && configId == cfg["experiment_name"].s
      && epoch == cfg["epochs"].i
      && runDir == Parent(cfgPath)
      && metricsFile == GetEvalMetricsFile("test")
    }

    /** The field assignments of `TrainedModel.__init__` once the config has been loaded. */
    constructor (cfgPath: Path, cfg: Config)
      requires IsModelConfig(cfg)
      ensures this.cfgPath == cfgPath && this.cfg == cfg
      ensures Valid()
    {
      var epochString := GetEpochString(cfg["epochs"].i);
      this.cfgPath := cfgPath;
      this.cfg := cfg;
      configId := cfg["experiment_name"].s;
      epoch := cfg["epochs"].i;
      runDir := Parent(cfgPath);
      TestMetricsFile(Parent(cfgPath), cfg["epochs"].i, epochString);
      metricsFile := Parent(cfgPath) + ["test", "model_epoch" + epochString, "test_metrics.csv"];
    }

    /** get_eval_metrics_file. */
    function GetEvalMetricsFile(period: string): Path {
      MetricsFilePath(runDir, epoch, period)
    }
  }

  /** The `metrics_file` that `__init__` spells out is the test period's metrics file. */
  lemma TestMetricsFile(runDir: Path, epoch: int, epochString: string)
    requires epochString == EpochPad(epoch)
    ensures runDir + ["test", "model_epoch" + epochString, "test_metrics.csv"] == MetricsFilePath(runDir, epoch, "test")
  {
    assert "test" + "_metrics.csv" == "test_metrics.csv";
  }

  /** `TrainedModel(arg)`: resolve the config path, load its YAML and build the model. */
  method OpenTrainedModel(ref: ModelRef, moduleDir: Path, files: map<Path, Content>)
    returns (r: Result<TrainedModel>)
    ensures ref.OtherArgument? ==> r.Err? && r.error.ValueError?
    ensures r.Ok? <==>
      && ResolveCfgPath(ref, moduleDir).Ok?
      && var p := ResolveCfgPath(ref, moduleDir).value;
         p in files && files[p].Yaml? && IsModelConfig(files[p].cfg)
    ensures r.Ok? ==>
      && r.value.Valid()
      && r.value.cfgPath == ResolveCfgPath(ref, moduleDir).value
      && files[r.value.cfgPath] == Yaml(r.value.cfg)
  {
    var path :- ResolveCfgPath(ref, moduleDir);
    if path !in files || !files[path].Yaml? {
      return Err(FileNotFound(path));
    }
    var cfg := files[path].cfg;
    if !IsModelConfig(cfg) {
      return Err(KeyError("experiment_name or epochs"));
    }
    var m := new TrainedModel(path, cfg);
    r := Ok(m);
  }

  // ---------------------------------------------------------------------------
  // Per-cluster configs

  /** The keys get_cluster_config overwrites. */
  const ClusterKeys: set<string> := {"experiment_name", "train_basin_file", "test_basin_file"}

  /** `cfg.experiment_name`; a config without one cannot be read. */
  function ExperimentNameOf(cfg: Config): (r: Result<string>)
    ensures r.Ok? <==> "experiment_name" in cfg && cfg["experiment_name"].Str?
    ensures r.Ok? ==> cfg["experiment_name"] == Str(r.value)
  {
    if "experiment_name" in cfg && cfg["experiment_name"].Str? then Ok(cfg["experiment_name"].s)
    else Err(KeyError("experiment_name"))
  }

  /** get_cluster_config: a copy of the base config trained and tested on the cluster's basin file. */
  function ClusterConfig(base: Config, cluster: nat, clusterFile: Path, files: map<Path, Content>)
    : (r: Result<Config>)
    ensures clusterFile !in files ==> r.Err? && r.error.AssertionError?
    ensures r.Ok? <==> clusterFile in files && ExperimentNameOf(base).Ok?
    ensures r.Ok? ==> r.value.Keys == base.Keys + ClusterKeys
    ensures r.Ok? ==>
      r.value["experiment_name"] == Str(ExperimentNameOf(base).value + "cluster" + NatDigits(cluster))
    ensures r.Ok? ==>
      r.value["train_basin_file"] == r.value["test_basin_file"] == PathValue(clusterFile)
    ensures r.Ok? ==> forall k :: k in base && k !in ClusterKeys ==> r.value[k] == base[k]
  {
    if clusterFile !in files then Err(AssertionError("Cluster basin list file does not exist!"))
    else
      var name :- ExperimentNameOf(base);
      Ok(base["experiment_name" := Str(name + "cluster" + NatDigits(cluster))]
             ["train_basin_file" := PathValue(clusterFile)]
             ["test_basin_file" := PathValue(clusterFile)])
  }

  /** `<dir>/<i><ext>`, the name of cluster i's file with the given extension. */
  function ClusterEntry(dir: Path, i: nat, ext: string): Path {
    dir + [NatDigits(i) + ext]
  }

  /** Cluster files of one extension never collide, and a `.txt` list is never a `.yml` config. */
  lemma ClusterEntriesDistinct(dir: Path, i: nat, j: nat)
    ensures ClusterEntry(dir, i, ".txt") != ClusterEntry(dir, j, ".yml")
    ensures i != j ==> ClusterEntry(dir, i, ".yml") != ClusterEntry(dir, j, ".yml")
  {
    var a, b := NatDigits(i) + ".txt", NatDigits(j) + ".yml";
    assert a[|a| - 1] != b[|b| - 1];
    assert ClusterEntry(dir, i, ".txt")[|dir|] == a;
    assert ClusterEntry(dir, j, ".yml")[|dir|] == b;
    if i != j && ClusterEntry(dir, i, ".yml") == ClusterEntry(dir, j, ".yml") {
      var c := NatDigits(i) + ".yml";
      assert ClusterEntry(dir, i, ".yml")[|dir|] == c;
      assert c == b;
      assert NatDigits(i) == c[..|c| - 4] == b[..|b| - 4] == NatDigits(j);
      NatDigitsInjective(i, j);
    }
  }

  /** The number of `.txt` entries of a directory: `sum(1 for f in os.listdir(dir) if f.endswith('.txt'))`. */
  function CountTxt(files: map<Path, Content>, dir: Path): nat {
    |set p | p in files && InDir(p, dir) && EndsWith(Name(p), ".txt")|
  }

  /** The paths generate_cluster_configs returns: `<dir>/0.yml` ... `<dir>/(n-1).yml`. */
  function ClusterYmlPaths(dir: Path, n: nat): (r: seq<Path>)
    ensures |r| == n && forall i :: 0 <= i < n ==> r[i] == ClusterEntry(dir, i, ".yml")
  {
    seq(n, i requires 0 <= i < n => ClusterEntry(dir, i, ".yml"))
  }

  /** The files after a loop over clusters, or the error the loop stopped at. */
  datatype Progress = Progress(files: map<Path, Content>, failure: Option<Error>)

  /** The filesystem after generate_cluster_configs has handled clusters 0 .. n-1. */
  function ConfigsWritten(files: map<Path, Content>, base: Config, dir: Path, n: nat): Progress
  {
    if n == 0 then Progress(files, None)
    else
      var prev := ConfigsWritten(files, base, dir, n - 1);
      var yml := ClusterEntry(dir, n - 1, ".yml");
      if prev.failure.Some? || yml in prev.files then prev
      else
        match ClusterConfig(base, n - 1, ClusterEntry(dir, n - 1, ".txt"), prev.files)
        case Err(e) => Progress(prev.files, Some(e))
        case Ok(c) => Progress(prev.files[yml := Yaml(c)], None)
  }

  /** generate_cluster_configs: one `<i>.yml` per `.txt` entry, written only where it is missing. */
  method GenerateClusterConfigs(fs: FileSystem, base: Config, clusterDir: Path)
    returns (r: Result<seq<Path>>)
    modifies fs
    ensures clusterDir !in old(fs.files) ==> r.Err? && fs.files == old(fs.files)
    ensures clusterDir in old(fs.files) ==>
      var n := CountTxt(old(fs.files), clusterDir);
      var p := ConfigsWritten(old(fs.files), base, clusterDir, n);
      && fs.files == p.files
      && (r.Ok? <==> p.failure.None?)
      && (r.Ok? ==> r.value == ClusterYmlPaths(clusterDir, n))
  {
    if clusterDir !in fs.files {
      return Err(FileNotFound(clusterDir));
    }
    var n := CountTxt(fs.files, clusterDir);
    ghost var initial := fs.files;
    var clusterPaths: seq<Path> := [];
    var cluster := 0;
    while cluster < n
      invariant 0 <= cluster <= n
      invariant ConfigsWritten(initial, base, clusterDir, cluster) == Progress(fs.files, None)
      invariant clusterPaths == ClusterYmlPaths(clusterDir, cluster)
    {
      var clusterFile := ClusterEntry(clusterDir, cluster, ".txt");
      var clusterPath := ClusterEntry(clusterDir, cluster, ".yml");
      ConfigsStep(initial, base, clusterDir, cluster);
      if clusterPath !in fs.files {
        var clusterConfig := ClusterConfig(base, cluster, clusterFile, fs.files);
        if clusterConfig.Err? {
          ConfigsFailureSticks(initial, base, clusterDir, cluster + 1, n);
          return Err(clusterConfig.error);
        }
        fs.Write(clusterPath, Yaml(clusterConfig.value));
      }
      YmlPathsSnoc(clusterDir, cluster);
      clusterPaths := clusterPaths + [clusterPath];
      cluster := cluster + 1;
    }
    r := Ok(clusterPaths);
  }

  /** One more cluster, after a loop that has not failed. */
  lemma ConfigsStep(files: map<Path, Content>, base: Config, dir: Path, k: nat)
    requires ConfigsWritten(files, base, dir, k).failure.None?
    ensures var prev := ConfigsWritten(files, base, dir, k);
      var yml := ClusterEntry(dir, k, ".yml");
      var c := ClusterConfig(base, k, ClusterEntry(dir, k, ".txt"), prev.files);
      ConfigsWritten(files, base, dir, k + 1)
        == if yml in prev.files then prev
           else if c.Err? then Progress(prev.files, Some(c.error))
           else Progress(prev.files[yml := Yaml(c.value)], None)
  {
  }

  lemma YmlPathsSnoc(dir: Path, n: nat)
    ensures ClusterYmlPaths(dir, n + 1) == ClusterYmlPaths(dir, n) + [ClusterEntry(dir, n, ".yml")]
  {
  }

  /** Once a cluster's config cannot be derived, the loop stops with the files as they were. */
  lemma {:induction false} ConfigsFailureSticks(files: map<Path, Content>, base: Config, dir: Path, k: nat, n: nat)
    requires k <= n && ConfigsWritten(files, base, dir, k).failure.Some?
    ensures ConfigsWritten(files, base, dir, n) == ConfigsWritten(files, base, dir, k)
  {
    if k < n {
      ConfigsFailureSticks(files, base, dir, k, n - 1);
      var prev := ConfigsWritten(files, base, dir, n - 1);
      assert prev.failure.Some?;
      ConfigsFailedStep(files, base, dir, n);
      assert ConfigsWritten(files, base, dir, n) == ConfigsWritten(files, base, dir, k);
    } else {
      assert k == n;
      assert ConfigsWritten(files, base, dir, n) == ConfigsWritten(files, base, dir, k);
    }
  }

  lemma ConfigsFailedStep(files: map<Path, Content>, base: Config, dir: Path, n: nat)
    requires n > 0 && ConfigsWritten(files, base, dir, n - 1).failure.Some?
    ensures ConfigsWritten(files, base, dir, n) == ConfigsWritten(files, base, dir, n - 1)
  {
  }

  /** The `.yml` paths of clusters 0 .. n-1. */
  function YmlSet(dir: Path, n: nat): set<Path> {
    set i | 0 <= i < n :: ClusterEntry(dir, i, ".yml")
  }

  /** What generate_cluster_configs does to the filesystem: it succeeds exactly when every
      missing config can be derived; it never overwrites an existing file; it adds exactly the
      missing `.yml` files, each holding the cluster config derived from the `.txt` list. */
  lemma ConfigsWrittenEffect(files: map<Path, Content>, base: Config, dir: Path, n: nat)
    ensures var p := ConfigsWritten(files, base, dir, n);
      && (p.failure.None? <==>
           forall i :: 0 <= i < n ==> ClusterEntry(dir, i, ".yml") in files
                                      || ClusterConfig(base, i, ClusterEntry(dir, i, ".txt"), files).Ok?)
      && (p.failure.None? ==>
           && p.files.Keys == files.Keys + YmlSet(dir, n)
           && (forall q :: q in files ==> p.files[q] == files[q])
           && (forall i :: 0 <= i < n && ClusterEntry(dir, i, ".yml") !in files ==>
                 p.files[ClusterEntry(dir, i, ".yml")]
                 == Yaml(ClusterConfig(base, i, ClusterEntry(dir, i, ".txt"), files).value)))
  {
    EffectHolds(files, base, dir, n);
  }

  /** The postcondition of ConfigsWrittenEffect, stated of a progress value p after n clusters. */
  ghost predicate EffectOf(p: Progress, files: map<Path, Content>, base: Config, dir: Path, n: nat) {
    && (p.failure.None? <==> AllDerivable(files, base, dir, n))
    && (p.failure.None? ==>
         && p.files.Keys == files.Keys + YmlSet(dir, n)
         && (forall q :: q in files ==> p.files[q] == files[q])
         && NewConfigsWritten(p.files, files, base, dir, n))
  }

  /** Every cluster below n has its `.yml` already or a derivable config. */
  ghost predicate AllDerivable(files: map<Path, Content>, base: Config, dir: Path, n: nat) {
    forall i :: 0 <= i < n ==> ClusterEntry(dir, i, ".yml") in files
                               || ClusterConfig(base, i, ClusterEntry(dir, i, ".txt"), files).Ok?
  }

  /** Every missing `.yml` below n holds the derived config in after. */
  ghost predicate NewConfigsWritten(after: map<Path, Content>, files: map<Path, Content>, base: Config, dir: Path, n: nat)
  {
    forall i :: 0 <= i < n && ClusterEntry(dir, i, ".yml") !in files ==>
      && ClusterConfig(base, i, ClusterEntry(dir, i, ".txt"), files).Ok?
      && ClusterEntry(dir, i, ".yml") in after
      && after[ClusterEntry(dir, i, ".yml")] == Yaml(ClusterConfig(base, i, ClusterEntry(dir, i, ".txt"), files).value)
  }

  lemma {:induction false} EffectHolds(files: map<Path, Content>, base: Config, dir: Path, n: nat)
    ensures EffectOf(ConfigsWritten(files, base, dir, n), files, base, dir, n)
  {
    if n > 0 {
      EffectHolds(files, base, dir, n - 1);
      var prev := ConfigsWritten(files, base, dir, n - 1);
      var yml := ClusterEntry(dir, n - 1, ".yml");
      var txt := ClusterEntry(dir, n - 1, ".txt");
      if prev.failure.Some? {
        assert ConfigsWritten(files, base, dir, n) == prev;
        StepFailedBefore(prev, files, base, dir, n);
      } else {
        PrevAgrees(prev, files, base, dir, n);
        ConfigsStep(files, base, dir, n - 1);
        if yml in files {
          StepKept(prev, files, base, dir, n);
        } else {
          match ClusterConfig(base, n - 1, txt, files)
          case Err(e) => StepFailed(prev, e, files, base, dir, n);
          case Ok(c) => StepWritten(prev, c, files, base, dir, n);
        }
      }
    }
  }

  lemma StepFailedBefore(prev: Progress, files: map<Path, Content>, base: Config, dir: Path, n: nat)
    requires n > 0 && EffectOf(prev, files, base, dir, n - 1) && prev.failure.Some?
    ensures EffectOf(prev, files, base, dir, n)
  {
  }

  /** Before cluster n-1 is handled, its `.yml` and `.txt` entries are as they were at the start. */
  lemma PrevAgrees(prev: Progress, files: map<Path, Content>, base: Config, dir: Path, n: nat)
    requires n > 0 && EffectOf(prev, files, base, dir, n - 1) && prev.failure.None?
    ensures var txt := ClusterEntry(dir, n - 1, ".txt");
      && (ClusterEntry(dir, n - 1, ".yml") in prev.files <==> ClusterEntry(dir, n - 1, ".yml") in files)
      && ClusterConfig(base, n - 1, txt, prev.files) == ClusterConfig(base, n - 1, txt, files)
  {
    var yml := ClusterEntry(dir, n - 1, ".yml");
    var txt := ClusterEntry(dir, n - 1, ".txt");
    forall i | 0 <= i < n - 1 ensures ClusterEntry(dir, i, ".yml") != yml {
      ClusterEntriesDistinct(dir, i, n - 1);
    }
    assert yml !in YmlSet(dir, n - 1);
    forall i | 0 <= i < n - 1 ensures ClusterEntry(dir, i, ".yml") != txt {
      ClusterEntriesDistinct(dir, n - 1, i);
    }
    assert txt !in YmlSet(dir, n - 1);
    assert txt in prev.files <==> txt in files;
  }

  /** Cluster n-1 already has its `.yml`: nothing changes. */
  lemma StepKept(prev: Progress, files: map<Path, Content>, base: Config, dir: Path, n: nat)
    requires n > 0 && EffectOf(prev, files, base, dir, n - 1) && prev.failure.None?
    requires ClusterEntry(dir, n - 1, ".yml") in files
    ensures EffectOf(prev, files, base, dir, n)
  {
    YmlSetSnoc(dir, n);
    DerivableSnoc(files, base, dir, n);
    NewConfigsKept(prev.files, files, base, dir, n);
  }

  lemma NewConfigsKept(after: map<Path, Content>, files: map<Path, Content>, base: Config, dir: Path, n: nat)
    requires n > 0 && NewConfigsWritten(after, files, base, dir, n - 1)
    requires ClusterEntry(dir, n - 1, ".yml") in files
    ensures NewConfigsWritten(after, files, base, dir, n)
  {
  }

  lemma YmlSetSnoc(dir: Path, n: nat)
    requires n > 0
    ensures YmlSet(dir, n) == YmlSet(dir, n - 1) + {ClusterEntry(dir, n - 1, ".yml")}
  {
  }

  /** Cluster n-1's `.yml` is missing and cannot be derived: the loop stops. */
  lemma StepFailed(prev: Progress, e: Error, files: map<Path, Content>, base: Config, dir: Path, n: nat)
    requires n > 0 && EffectOf(prev, files, base, dir, n - 1) && prev.failure.None?
    requires ClusterEntry(dir, n - 1, ".yml") !in files
    requires ClusterConfig(base, n - 1, ClusterEntry(dir, n - 1, ".txt"), files).Err?
    ensures EffectOf(Progress(prev.files, Some(e)), files, base, dir, n)
  {
  }

  /** Cluster n-1's `.yml` is missing and derivable: it is written. */
  lemma StepWritten(prev: Progress, c: Config, files: map<Path, Content>, base: Config, dir: Path, n: nat)
    requires n > 0 && EffectOf(prev, files, base, dir, n - 1) && prev.failure.None?
    requires ClusterEntry(dir, n - 1, ".yml") !in files
    requires ClusterConfig(base, n - 1, ClusterEntry(dir, n - 1, ".txt"), files) == Ok(c)
    ensures EffectOf(Progress(prev.files[ClusterEntry(dir, n - 1, ".yml") := Yaml(c)], None), files, base, dir, n)
  {
    var yml := ClusterEntry(dir, n - 1, ".yml");
    var p := Progress(prev.files[yml := Yaml(c)], None);
    YmlSetSnoc(dir, n);
    DerivableSnoc(files, base, dir, n);
    NewConfigsSnoc(prev.files, c, files, base, dir, n);
  }

  lemma DerivableSnoc(files: map<Path, Content>, base: Config, dir: Path, n: nat)
    requires n > 0
    ensures AllDerivable(files, base, dir, n) <==>
      AllDerivable(files, base, dir, n - 1) &&
      (ClusterEntry(dir, n - 1, ".yml") in files || ClusterConfig(base, n - 1, ClusterEntry(dir, n - 1, ".txt"), files).Ok?)
  {
  }

  lemma NewConfigsSnoc(before: map<Path, Content>, c: Config, files: map<Path, Content>, base: Config, dir: Path, n: nat)
    requires n > 0 && NewConfigsWritten(before, files, base, dir, n - 1)
    requires ClusterConfig(base, n - 1, ClusterEntry(dir, n - 1, ".txt"), files) == Ok(c)
    ensures NewConfigsWritten(before[ClusterEntry(dir, n - 1, ".yml") := Yaml(c)], files, base, dir, n)
  {
    var yml := ClusterEntry(dir, n - 1, ".yml");
    var after := before[yml := Yaml(c)];
    forall i | 0 <= i < n && ClusterEntry(dir, i, ".yml") !in files
      ensures ClusterConfig(base, i, ClusterEntry(dir, i, ".txt"), files).Ok?
      ensures ClusterEntry(dir, i, ".yml") in after
      ensures after[ClusterEntry(dir, i, ".yml")] == Yaml(ClusterConfig(base, i, ClusterEntry(dir, i, ".txt"), files).value)
    {
      if i < n - 1 {
        ClusterEntriesDistinct(dir, i, n - 1);
      }
    }
  }

  // ---------------------------------------------------------------------------
  // Losses in a training log

  /** The text `[\d.]+` captured after a loss label: a number `float()` accepts, or not. */
  datatype Capture = Number(v: real) | Malformed

  /** What the three searches find on one log line: the `avg_total_loss:` capture, the
      `average validation loss:` capture and the `Epoch N` digits (first match of each). */
  datatype LogLine = LogLine(trainLoss: Option<Capture>, valLoss: Option<Capture>, epoch: Option<string>)

  /** The two dictionaries get_losses returns, keyed by the epoch's digit string. */
  datatype Losses = Losses(train: map<string, real>, validation: map<string, real>)

  /** `losses[str(epoch)] = float(capture)` after `assert epoch_match`. */
  function RecordLoss(m: map<string, real>, c: Capture, epoch: Option<string>): (r: Result<map<string, real>>)
    ensures epoch.None? ==> r.Err? && r.error.AssertionError?
    ensures r.Ok? <==> epoch.Some? && c.Number?
    ensures r.Ok? ==> r.value == m[epoch.value := c.v]
  {
    if epoch.None? then Err(AssertionError("no epoch found"))
    else if c.Malformed? then Err(ValueError("could not convert string to float"))
    else Ok(m[epoch.value := c.v])
  }

  /** The body of get_losses' loop for one line. */
  function ScanLine(acc: Losses, line: LogLine): Result<Losses> {
    var train :- if line.trainLoss.Some? then RecordLoss(acc.train, line.trainLoss.value, line.epoch)
                 else Ok(acc.train);
    var validation :- if line.valLoss.Some? then RecordLoss(acc.validation, line.valLoss.value, line.epoch)
                      else Ok(acc.validation);
    Ok(Losses(train, validation))
  }

  /** The losses after scanning the given lines in order. */
  function LossesOf(lines: seq<LogLine>): Result<Losses> {
    if lines == [] then Ok(Losses(map[], map[]))
    else
      var acc :- LossesOf(lines[..|lines| - 1]);
      ScanLine(acc, lines[|lines| - 1])
  }

  /** An error stops the scan: later lines do not change the outcome. */
  lemma {:induction false} LossesErrPersists(lines: seq<LogLine>, k: nat)
    requires k <= |lines| && LossesOf(lines[..k]).Err?
    ensures LossesOf(lines) == LossesOf(lines[..k])
  {
    if k < |lines| {
      var init := lines[..|lines| - 1];
      assert init[..k] == lines[..k];
      LossesErrPersists(init, k);
    } else {
      assert lines[..k] == lines;
    }
  }

  /** get_losses over the lines of the log file. */
  method GetLosses(lines: seq<LogLine>) returns (r: Result<Losses>)
    ensures r == LossesOf(lines)
  {
    var trainLosses: map<string, real> := map[];
    var valLosses: map<string, real> := map[];
    var i := 0;
    while i < |lines|
      invariant 0 <= i <= |lines|
      invariant LossesOf(lines[..i]) == Ok(Losses(trainLosses, valLosses))
    {
      var line := lines[i];
      assert lines[..i + 1][..i] == lines[..i];
      if line.trainLoss.Some? {
        if line.epoch.None? {
          LossesErrPersists(lines, i + 1);
          return Err(AssertionError("no epoch found"));
        }
        if line.trainLoss.value.Malformed? {
          LossesErrPersists(lines, i + 1);
          return Err(ValueError("could not convert string to float"));
        }
        trainLosses := trainLosses[line.epoch.value := line.trainLoss.value.v];
      }
      if line.valLoss.Some? {
        if line.epoch.None? {
          LossesErrPersists(lines, i + 1);
          return Err(AssertionError("no epoch found"));
        }
        if line.valLoss.value.Malformed? {
          LossesErrPersists(lines, i + 1);
          return Err(ValueError("could not convert string to float"));
        }
        valLosses := valLosses[line.epoch.value := line.valLoss.value.v];
      }
      i := i + 1;
    }
    assert lines[..|lines|] == lines;
    r := Ok(Losses(trainLosses, valLosses));
  }

  /** Which of get_losses' two dictionaries. */
  datatype LossKind = TrainLoss | ValidationLoss

  function CaptureOf(line: LogLine, kind: LossKind): Option<Capture> {
    if kind.TrainLoss? then line.trainLoss else line.valLoss
  }

  function Recorded(l: Losses, kind: LossKind): map<string, real> {
    if kind.TrainLoss? then l.train else l.validation
  }

  /** The index of the last line carrying a loss of this kind for epoch e, or -1. */
  function LastLossLine(lines: seq<LogLine>, kind: LossKind, e: string): (r: int)
    ensures -1 <= r < |lines|
    ensures r >= 0 ==> CaptureOf(lines[r], kind).Some? && lines[r].epoch == Some(e)
  {
    if lines == [] then -1
    else
      var last := lines[|lines| - 1];
      if CaptureOf(last, kind).Some? && last.epoch == Some(e) then |lines| - 1
      else LastLossLine(lines[..|lines| - 1], kind, e)
  }

  /** A successful scan records a loss for epoch e exactly when some line reports one, and the
      recorded value is the one on the LAST such line: later lines overwrite earlier ones. */
  lemma {:induction false} LossesAreLastWrites(lines: seq<LogLine>, kind: LossKind, e: string)
    requires LossesOf(lines).Ok?
    ensures var m := Recorded(LossesOf(lines).value, kind);
      var j := LastLossLine(lines, kind, e);
      && (e in m <==> j >= 0)
      && (j >= 0 ==> CaptureOf(lines[j], kind) == Some(Number(m[e])))
  {
    if lines != [] {
      var init := lines[..|lines| - 1];
      var last := lines[|lines| - 1];
      LossesAreLastWrites(init, kind, e);
      var j := LastLossLine(init, kind, e);
      if !(CaptureOf(last, kind).Some? && last.epoch == Some(e)) && j >= 0 {
        assert lines[j] == init[j];
      }
    }
  }

  /** A line with a loss but no epoch makes get_losses fail. */
  lemma MissingEpochFails(lines: seq<LogLine>, i: nat)
    requires i < |lines| && lines[i].epoch.None?
    requires lines[i].trainLoss.Some? || lines[i].valLoss.Some?
    ensures LossesOf(lines).Err?
  {
    var upto := lines[..i + 1];
    assert upto[..i] == lines[..i];
    assert upto[i] == lines[i];
    assert LossesOf(upto).Err?;
    LossesErrPersists(lines, i + 1);
  }
}
