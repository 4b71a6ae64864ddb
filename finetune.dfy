/** Fine-tuning a trained model on single basins (experiment/finetuning/finetune.py): picking
    a basin from the validation metrics, rewriting the fine-tune config for it, scoring a
    fine-tuned model, decoding the search result, and sweeping n distinct basins. */
module Finetune {
  import opened Wrappers
  import opened Text
  import opened Paths
  import opened Store
  import opened Dicts
  import RunLayout
  import Evaluation
  import FinetuneUtils

  /** Where the scripts run, and the calls that belong to other libraries: the framework's
      `finetune` and `eval_run`, pandas' aggregates, and hyperopt's `fmin` (which returns
      the files it left behind, the best index dict and the trial history). */
  datatype Env = Env(
    moduleDir: Path,
    finetuningDir: Path,
    cwd: Path,
    finetune: (map<Path, Content>, Config) -> map<Path, Content>,
    evalRun: Evaluation.EvalRun,
    agg: Evaluation.Aggregator,
    fmin: (map<Path, Content>, Config, int) -> (map<Path, Content>, BestParams, Trials))

  /** The framework's fine-tuning and evaluation, and hyperopt's search, leave every saved
      sweep where it is. */
  ghost predicate FrameworkKeepsPickles(env: Env) {
    && (forall files, cfg :: PicklesKept(files, env.finetune(files, cfg)))
    && (forall f, d, per, e :: PicklesKept(f, env.evalRun(f, d, per, e)))
    && (forall files, space, n :: PicklesKept(files, env.fmin(files, space, n).0))
  }

  // ---------------------------------------------------------------------------
  // pick_a_basin

  /** Rows whose NSE (value j) lies in [lower, higher], in table order. */
  function InRange(rows: seq<MetricsRow>, j: nat, lower: real, higher: real): (r: seq<MetricsRow>)
    requires forall i :: 0 <= i < |rows| ==> j < |rows[i].values|
    ensures forall i :: 0 <= i < |r| ==> r[i] in rows && j < |r[i].values| && lower <= r[i].values[j] <= higher
    ensures forall i :: 0 <= i < |rows| && lower <= rows[i].values[j] <= higher ==> rows[i] in r
  {
    if rows == [] then []
    else
      var rest := InRange(rows[1..], j, lower, higher);
      assert forall i :: 1 <= i < |rows| ==> rows[i] == rows[1..][i - 1];
      if lower <= rows[0].values[j] <= higher then [rows[0]] + rest else rest
  }

  /** The rows pick_a_basin samples from: all of them unless both bounds are given. */
  function Candidates(t: MetricsTable, j: nat, lower: Option<real>, higher: Option<real>): (r: seq<MetricsRow>)
    requires Evaluation.WellFormed(t) && j < |t.columns|
    ensures lower.None? || higher.None? ==> r == t.rows
    ensures forall i :: 0 <= i < |r| ==> r[i] in t.rows && j < |r[i].values|
  {
    if lower.None? || higher.None? then t.rows else InRange(t.rows, j, lower.value, higher.value)
  }

  /** The position a random draw selects among n rows; every position can be drawn. */
  function DrawIndex(draw: nat, n: nat): (r: nat)
    requires n > 0
    ensures r < n
    ensures draw < n ==> r == draw
  {
    draw % n
  }

  /** The drawn row of pick_a_basin: the validation table must exist. With both bounds,
      `df['NSE']` is read first and the rows in range are sampled; without them the whole
      table is sampled first and `basin_data.NSE` is read afterwards. A draw chooses among
      the candidates. */
  function PickedRow(files: map<Path, Content>, metricsFile: Path, lower: Option<real>, higher: Option<real>,
                     draw: nat): (r: Result<(string, real)>)
    ensures r.Ok? ==>
      && Evaluation.ReadMetrics(files, metricsFile).Ok?
      && var t := files[metricsFile].table;
         "NSE" in t.columns
         && exists i :: 0 <= i < |t.rows| && t.rows[i].basin == r.value.0
                        && t.rows[i].values[IndexIn(t.columns, "NSE")] == r.value.1
    ensures r.Ok? && lower.Some? && higher.Some? ==> lower.value <= r.value.1 <= higher.value
    ensures Evaluation.ReadMetrics(files, metricsFile).Ok? ==>
      var t := files[metricsFile].table;
      && (lower.Some? && higher.Some? && "NSE" !in t.columns ==> r == Err(KeyError("NSE")))
      && (!(lower.Some? && higher.Some?) && |t.rows| == 0 ==> r.Err? && r.error.ValueError?)
      && (!(lower.Some? && higher.Some?) && |t.rows| > 0 && "NSE" !in t.columns ==> r == Err(AttributeError("NSE")))
  {
    var t :- Evaluation.ReadMetrics(files, metricsFile);
    var bounded := lower.Some? && higher.Some?;
    if bounded && "NSE" !in t.columns then Err(KeyError("NSE"))
    else if !bounded && |t.rows| == 0 then Err(ValueError("cannot take a sample larger than the population"))
    else if "NSE" !in t.columns then Err(AttributeError("NSE"))
    else
      var j := IndexIn(t.columns, "NSE");
      var rows := Candidates(t, j, lower, higher);
      if |rows| == 0 then Err(ValueError("cannot take a sample larger than the population"))
      else
        var row := rows[DrawIndex(draw, |rows|)];
        Ok((row.basin, row.values[j]))
  }

  /** With both bounds given, every basin that can be picked has its NSE in range, and every
      row in range can be picked; without them, every row can be picked. */
  lemma PickCoversRange(files: map<Path, Content>, metricsFile: Path, lower: Option<real>, higher: Option<real>,
                        i: nat)
    requires Evaluation.ReadMetrics(files, metricsFile).Ok?
    requires var t := files[metricsFile].table; "NSE" in t.columns && i < |t.rows|
    requires var t := files[metricsFile].table; lower.Some? && higher.Some? ==>
      lower.value <= t.rows[i].values[IndexIn(t.columns, "NSE")] <= higher.value
    ensures var t := files[metricsFile].table;
      exists draw: nat :: PickedRow(files, metricsFile, lower, higher, draw)
        == Ok((t.rows[i].basin, t.rows[i].values[IndexIn(t.columns, "NSE")]))
  {
    var t := files[metricsFile].table;
    var j := IndexIn(t.columns, "NSE");
    var rows := Candidates(t, j, lower, higher);
    assert t.rows[i] in rows;
    var k :| 0 <= k < |rows| && rows[k] == t.rows[i];
    PickedRowAt(files, metricsFile, lower, higher, k);
  }

  /** Draw k below the number of candidates picks candidate k. */
  lemma PickedRowAt(files: map<Path, Content>, metricsFile: Path, lower: Option<real>, higher: Option<real>, k: nat)
    requires Evaluation.ReadMetrics(files, metricsFile).Ok?
    requires var t := files[metricsFile].table; "NSE" in t.columns
    requires var t := files[metricsFile].table;
      k < |Candidates(t, IndexIn(t.columns, "NSE"), lower, higher)|
    ensures var t := files[metricsFile].table;
      var j := IndexIn(t.columns, "NSE");
      var row := Candidates(t, j, lower, higher)[k];
      PickedRow(files, metricsFile, lower, higher, k) == Ok((row.basin, row.values[j]))
  {
    var t := files[metricsFile].table;
    assert Evaluation.ReadMetrics(files, metricsFile).value == t;
  }

  // ---------------------------------------------------------------------------
  // update_files

  /** `assets/basin_files/<basin>.txt`, relative to the working directory. */
  function BasinFile(basin: string): Path {
    ["assets", "basin_files", basin + ".txt"]
  }

  function FinetuneYml(cwd: Path): Path {
    cwd + ["assets", "finetune.yml"]
  }

  const UpdatedKeys: set<string> := {"base_run_dir", "experiment_name", "train_basin_file", "validation_basin_file"}

  /** The fine-tune config after update_files: the appended `base_run_dir` line read back,
      then the experiment name and both basin files set for the basin. */
  function UpdatedConfig(current: Config, baseRunDir: Path, basin: string): (c: Config)
    ensures c.Keys == current.Keys + UpdatedKeys
    ensures c["base_run_dir"] == PathValue(baseRunDir)
    ensures c["experiment_name"] == Str("basin_" + basin)
    ensures c["train_basin_file"] == PathValue(BasinFile(basin))
    ensures c["validation_basin_file"] == PathValue(BasinFile(basin))
    ensures forall k :: k in current && k !in UpdatedKeys ==> c[k] == current[k]
  {
    current["base_run_dir" := PathValue(baseRunDir)]["experiment_name" := Str("basin_" + basin)]
      ["train_basin_file" := PathValue(BasinFile(basin))]["validation_basin_file" := PathValue(BasinFile(basin))]
  }

  /** Updating for a second basin leaves the config as updating for that basin alone. */
  lemma UpdatedConfigTwice(current: Config, baseRunDir: Path, first: string, second: string)
    ensures UpdatedConfig(UpdatedConfig(current, baseRunDir, first), baseRunDir, second)
         == UpdatedConfig(current, baseRunDir, second)
  {
  }

  /** The config update_files starts from: the YAML mapping in the file, or nothing for a
      missing file, which appending creates. */
  function CurrentConfig(files: map<Path, Content>, yml: Path): Config {
    if yml in files && files[yml].Yaml? then files[yml].cfg else map[]
  }

  /** The files after a successful update_files: the rewritten config and the basin file. */
  function UpdatedFiles(files: map<Path, Content>, cwd: Path, runDir: Path, basin: string): map<Path, Content> {
    var yml := FinetuneYml(cwd);
    files[yml := Yaml(UpdatedConfig(CurrentConfig(files, yml), Absolute(cwd, runDir), basin))]
         [cwd + BasinFile(basin) := Text(basin)]
  }

  /** A successful update_files adds or replaces the config and the basin file, and nothing else. */
  lemma UpdatedFilesHold(files: map<Path, Content>, cwd: Path, runDir: Path, basin: string)
    ensures var r := UpdatedFiles(files, cwd, runDir, basin);
      && FinetuneYml(cwd) != cwd + BasinFile(basin)
      && r.Keys == files.Keys + {FinetuneYml(cwd), cwd + BasinFile(basin)}
      && r[FinetuneYml(cwd)]
         == Yaml(UpdatedConfig(CurrentConfig(files, FinetuneYml(cwd)), Absolute(cwd, runDir), basin))
      && r[cwd + BasinFile(basin)] == Text(basin)
      && forall p :: p in files && p != FinetuneYml(cwd) && p != cwd + BasinFile(basin) ==> r[p] == files[p]
  {
    assert |FinetuneYml(cwd)| != |cwd + BasinFile(basin)|;
  }

  /** The files after update_files fails on a config that holds no YAML mapping: the line
      was appended before the parse failed, unless the config is a directory, which cannot
      be opened for appending. */
  function FailedUpdateFiles(files: map<Path, Content>, cwd: Path, runDir: Path): map<Path, Content>
    requires FinetuneYml(cwd) in files
  {
    var yml := FinetuneYml(cwd);
    if files[yml].Directory? then files else files[yml := BaseRunDirLine(files[yml], Absolute(cwd, runDir))]
  }

  /** update_files: append the absolute run directory to the fine-tune config, point it at
      the basin, and write the basin file holding just the basin id. */
  method UpdateFiles(fs: FileSystem, runDir: Path, basin: string, cwd: Path) returns (r: Result<Config>)
    modifies fs
    ensures var yml := FinetuneYml(cwd);
      && (r.Err? <==> yml in old(fs.files) && !old(fs.files)[yml].Yaml?)
      && (r.Err? ==> fs.files == FailedUpdateFiles(old(fs.files), cwd, runDir))
      && (r.Ok? ==>
            && r.value == UpdatedConfig(CurrentConfig(old(fs.files), yml), Absolute(cwd, runDir), basin)
            && fs.files == UpdatedFiles(old(fs.files), cwd, runDir, basin))
  {
    var yml := FinetuneYml(cwd);
    var baseRunDir := Absolute(cwd, runDir);
    var data: Config := map[];
    if yml in fs.files {
      if fs.files[yml].Directory? {
        return Err(IsADirectory(yml));
      }
      if !fs.files[yml].Yaml? {
        fs.Write(yml, BaseRunDirLine(fs.files[yml], baseRunDir));
        return Err(ValueError("the fine-tune config is not a YAML mapping"));
      }
      data := fs.files[yml].cfg;
    }
    data := data["base_run_dir" := PathValue(baseRunDir)];
    data := data["experiment_name" := Str("basin_" + basin)];
    var basinFilePath := BasinFile(basin);
    data := data["train_basin_file" := PathValue(basinFilePath)];
    data := data["validation_basin_file" := PathValue(basinFilePath)];
    fs.Write(yml, Yaml(data));
    fs.Write(cwd + basinFilePath, Text(basin));
    return Ok(data);
  }

  /** Every path but the config and the ".txt" files holds in `after` what it held in `before`. */
  ghost predicate KeptByUpdates(before: map<Path, Content>, after: map<Path, Content>, cwd: Path) {
    forall p :: p in before && p != FinetuneYml(cwd) && NotText(p) ==> p in after && after[p] == before[p]
  }

  /** update_files writes nothing but the config and a ".txt" file. */
  lemma UpdatedKeeps(files: map<Path, Content>, cwd: Path, runDir: Path, basin: string)
    ensures KeptByUpdates(files, UpdatedFiles(files, cwd, runDir, basin), cwd)
  {
    var n := basin + ".txt";
    UpdatedFilesHold(files, cwd, runDir, basin);
    assert Name(cwd + BasinFile(basin)) == n && n[|n| - 4..] == ".txt";
  }

  /** pick_a_basin: read the model's validation metrics, draw a candidate row, update the
      fine-tune files for its basin, and return the basin with its NSE. One draw is used. */
  method PickABasin(fs: FileSystem, model: RunLayout.TrainedModel, lower: Option<real>, higher: Option<real>,
                    cwd: Path, draws: seq<nat>)
    returns (r: Result<(string, real)>, rest: seq<nat>)
    modifies fs
    ensures draws == [] ==> r == Err(DrawsExhausted) && rest == draws && fs.files == old(fs.files)
    ensures draws != [] ==>
      var picked := PickedRow(old(fs.files), model.GetEvalMetricsFile("validation"), lower, higher, draws[0]);
      var yml := FinetuneYml(cwd);
      && (picked.Err? ==> r == Err(picked.error) && rest == draws && fs.files == old(fs.files))
      && (picked.Ok? ==> rest == draws[1..] && (r.Ok? <==> !(yml in old(fs.files) && !old(fs.files)[yml].Yaml?)))
      && (picked.Ok? && r.Ok? ==>
            r == picked && fs.files == UpdatedFiles(old(fs.files), cwd, model.runDir, picked.value.0))
      && (picked.Ok? && r.Err? ==> fs.files == FailedUpdateFiles(old(fs.files), cwd, model.runDir))
    ensures r.Ok? && lower.Some? && higher.Some? ==> lower.value <= r.value.1 <= higher.value
  {
    rest := draws;
    if draws == [] {
      return Err(DrawsExhausted), rest;
    }
    var picked := PickedRow(fs.files, model.GetEvalMetricsFile("validation"), lower, higher, draws[0]);
    if picked.Err? {
      return Err(picked.error), rest;
    }
    rest := draws[1..];
    var updated := UpdateFiles(fs, model.runDir, picked.value.0, cwd);
    if updated.Err? {
      return Err(updated.error), rest;
    }
    return picked, rest;
  }

  // ---------------------------------------------------------------------------
  // finetune_model and finetune_model_from_cfg

  /** A trial's result: the loss hyperopt minimises and the fine-tuned model. */
  datatype Score = Score(loss: real, model: RunLayout.TrainedModel)

  /** Where the framework puts the run of a basin's fine-tuning: `runs/basin_<basin>/config.yml`
      under the working directory. */
  function FinetunedCfgPath(cwd: Path, basin: string): (p: Path)
    ensures |p| > 0 && Name(p) == "config.yml" && Parent(p) == cwd + ["runs", "basin_" + basin]
  {
    cwd + ["runs", "basin_" + basin, "config.yml"]
  }

  /** The objective: minus the first row's value in the `basin_<basin>` column. */
  function ObjectiveLoss(t: Evaluation.Shown, basin: string): (r: Result<real>)
    ensures r.Ok? <==>
      && |t.rows| > 0 && "basin_" + basin in t.models
      && IndexIn(t.models, "basin_" + basin) < |t.rows[0].cells|
    ensures r.Ok? ==> r.value == -t.rows[0].cells[IndexIn(t.models, "basin_" + basin)].v
  {
    var column := "basin_" + basin;
    if |t.rows| == 0 then Err(IndexError("single positional indexer is out-of-bounds"))
    else if column !in t.models then Err(KeyError(column))
    else
      var j := IndexIn(t.models, column);
      if j >= |t.rows[0].cells| then Err(IndexError("row is shorter than its header"))
      else Ok(-t.rows[0].cells[j].v)
  }

  /** The better a fine-tuned model scores on its basin, the smaller the loss it reports. */
  lemma ObjectiveReversesScore(t1: Evaluation.Shown, t2: Evaluation.Shown, basin: string)
    requires ObjectiveLoss(t1, basin).Ok? && ObjectiveLoss(t2, basin).Ok?
    requires t1.models == t2.models
    requires t1.rows[0].cells[IndexIn(t1.models, "basin_" + basin)].v
           < t2.rows[0].cells[IndexIn(t2.models, "basin_" + basin)].v
    ensures ObjectiveLoss(t2, basin).value < ObjectiveLoss(t1, basin).value
  {
  }

  /** The objective of a fine-tuned model: evaluate it afresh on the basin's validation
      period, without benchmark or highlighting, and negate its score. */
  function ValidationLoss(m: RunLayout.TrainedModel, basin: string, files: map<Path, Content>, env: Env)
    : Result<real>
  {
    var p :- Evaluation.PrepareModels([m], "validation", true, [basin], files, env.evalRun);
    var s :- Evaluation.ComparisonOf(p.evalFiles, [basin], false, false, p.files, env.moduleDir, env.agg);
    ObjectiveLoss(s, basin)
  }

  /** The objective column exists only for a run named after the basin: a loss is reported
      only when the fine-tuned run's config id is `basin_<basin>`. */
  lemma LossNeedsBasinRun(m: RunLayout.TrainedModel, basin: string, files: map<Path, Content>, env: Env)
    requires ValidationLoss(m, basin, files, env).Ok?
    ensures m.configId == "basin_" + basin
  {
    var p := Evaluation.PrepareModels([m], "validation", true, [basin], files, env.evalRun).value;
    Evaluation.OneModelColumn(m, "validation", true, [basin], files, env.evalRun, env.moduleDir, env.agg);
    var s := Evaluation.ComparisonOf(p.evalFiles, [basin], false, false, p.files, env.moduleDir, env.agg).value;
    assert s.models == [m.configId] && "basin_" + basin in s.models;
  }

  /** What finetune_model_from_cfg leaves once the framework has fine-tuned: `finetunedRun` is the
      run opened from `runs/basin_<basin>/config.yml`, absent when that is no model config.
      Without it nothing more happens; with it the files are those the validation
      evaluate_models call leaves, and a loss is reported exactly when its evaluation yields one. */
  ghost predicate EvaluatedOnce(files: map<Path, Content>, trained: map<Path, Content>,
                                finetunedRun: Option<RunLayout.TrainedModel>, r: Result<Score>, basin: string, env: Env)
  {
    var cfgPath := FinetunedCfgPath(env.cwd, basin);
    && (finetunedRun.Some? <==>
          cfgPath in trained && trained[cfgPath].Yaml? && RunLayout.IsModelConfig(trained[cfgPath].cfg))
    && (finetunedRun.None? ==> r.Err? && files == trained)
    && (finetunedRun.Some? ==>
          && finetunedRun.value.cfgPath == cfgPath && finetunedRun.value.Valid()
          && trained[cfgPath] == Yaml(finetunedRun.value.cfg)
          && files == Evaluation.LoopFiles([finetunedRun.value], "validation", true, [basin], trained, env.evalRun)
          && (r.Ok? <==> ValidationLoss(finetunedRun.value, basin, trained, env).Ok?))
    && (r.Ok? ==>
          && finetunedRun == Some(r.value.model)
          && files == Evaluation.PrepareModels([r.value.model], "validation", true, [basin], trained, env.evalRun)
                        .value.files)
  }

  /** The validation step of finetune_model_from_cfg: evaluate_models on the basin's
      validation period without benchmark or highlighting, then the objective. */
  method ValidateFinetuned(fs: FileSystem, m: RunLayout.TrainedModel, basin: string, env: Env)
    returns (loss: Result<real>)
    modifies fs
    ensures loss == ValidationLoss(m, basin, old(fs.files), env)
    ensures fs.files == Evaluation.LoopFiles([m], "validation", true, [basin], old(fs.files), env.evalRun)
    ensures loss.Ok? ==>
      fs.files == Evaluation.PrepareModels([m], "validation", true, [basin], old(fs.files), env.evalRun).value.files
  {
    var shown := Evaluation.EvaluateModels(fs, [m], [basin], false, "validation", false, true,
                                           env.evalRun, env.moduleDir, env.agg);
    if shown.Err? {
      return Err(shown.error);
    }
    loss := ObjectiveLoss(shown.value, basin);
  }

  /** finetune_model_from_cfg: fine-tune on the config, open the resulting run, evaluate it on
      the basin's validation period afresh, and report the negated score. The temporary YAML
      file the config passes through is not modelled. */
  method FinetuneModelFromCfg(fs: FileSystem, data: Config, basin: string, env: Env)
    returns (r: Result<Score>, ghost trained: map<Path, Content>, ghost finetunedRun: Option<RunLayout.TrainedModel>)
    modifies fs
    ensures trained == env.finetune(old(fs.files), data)
    ensures EvaluatedOnce(fs.files, trained, finetunedRun, r, basin, env)
    ensures r.Ok? ==>
      && r.value.model.cfgPath == FinetunedCfgPath(env.cwd, basin) && r.value.model.Valid()
      && r.value.model.cfgPath in trained && trained[r.value.model.cfgPath] == Yaml(r.value.model.cfg)
      && r.value.model.configId == "basin_" + basin
      && ValidationLoss(r.value.model, basin, trained, env) == Ok(r.value.loss)
    ensures r.Ok? && FrameworkKeepsPickles(env) ==> PicklesKept(old(fs.files), fs.files)
  {
    fs.files := env.finetune(fs.files, data);
    trained := fs.files;
    var cfgPath := FinetunedCfgPath(env.cwd, basin);
    var finetuned := RunLayout.OpenTrainedModel(RunLayout.ConfigFile(cfgPath), env.moduleDir, fs.files);
    if finetuned.Err? {
      return Err(finetuned.error), trained, None;
    }
    finetunedRun := Some(finetuned.value);
    var loss := ValidateFinetuned(fs, finetuned.value, basin, env);
    if loss.Err? {
      return Err(loss.error), trained, finetunedRun;
    }
    LossNeedsBasinRun(finetuned.value, basin, trained, env);
    if FrameworkKeepsPickles(env) {
      Evaluation.PrepareKeepsPickles([finetuned.value], "validation", true, [basin], trained, env.evalRun);
      PicklesKeptTrans(old(fs.files), trained, fs.files);
    }
    return Ok(Score(loss.value, finetuned.value)), trained, finetunedRun;
  }

  /** finetune_model: the basin comes from the arguments, and the config the framework
      fine-tunes on is cfg_from_args of the arguments and nothing else. */
  method FinetuneModel(fs: FileSystem, args: FinetuneUtils.Args, env: Env)
    returns (r: Result<Score>, ghost trained: map<Path, Content>, ghost finetunedRun: Option<RunLayout.TrainedModel>)
    modifies fs
    ensures var yml := FinetuneUtils.FinetuneYml(env.finetuningDir);
      && (!(yml in old(fs.files) && old(fs.files)[yml].Yaml?) ==> r.Err? && fs.files == old(fs.files))
      && (yml in old(fs.files) && old(fs.files)[yml].Yaml? ==>
            && trained == env.finetune(old(fs.files), FinetuneUtils.FinetuneConfig(old(fs.files)[yml].cfg, args))
            && EvaluatedOnce(fs.files, trained, finetunedRun, r, args.basin, env))
    ensures r.Ok? ==>
      && r.value.model.cfgPath == FinetunedCfgPath(env.cwd, args.basin) && r.value.model.Valid()
      && r.value.model.cfgPath in trained && trained[r.value.model.cfgPath] == Yaml(r.value.model.cfg)
      && r.value.model.configId == "basin_" + args.basin
      && ValidationLoss(r.value.model, args.basin, trained, env) == Ok(r.value.loss)
    ensures r.Ok? && FrameworkKeepsPickles(env) ==> PicklesKept(old(fs.files), fs.files)
  {
    var basin := args.basin;
    var data := FinetuneUtils.CfgFromArgs(fs.files, env.finetuningDir, args);
    if data.Err? {
      return Err(data.error), fs.files, None;
    }
    r, trained, finetunedRun := FinetuneModelFromCfg(fs, data.value, basin, env);
  }

  // ---------------------------------------------------------------------------
  // find_best_finetuning_params

  /** find_best_finetuning_params: search, decode the best index dict for the search space's
      basin, fine-tune once more with it, and record the sweep; optionally evaluate the
      fine-tuned model on all basins. The ghost result is the files the rerun left. */
  method FindBestFinetuningParams(fs: FileSystem, searchSpace: Config, model: RunLayout.TrainedModel,
                                  maxEvals: int, evaluate: bool, env: Env)
    returns (r: Result<FinetuneUtils.Sweep>, ghost trained: map<Path, Content>)
    modifies fs
    ensures "basin" !in searchSpace ==> r.Err?
    ensures var (searched, best, trials) := env.fmin(old(fs.files), searchSpace, maxEvals);
      var yml := FinetuneUtils.FinetuneYml(env.finetuningDir);
      r.Ok? ==>
        && r.value.Valid()
        && r.value.bestParams == best && r.value.trials == trials
        && r.value.searchSpace == searchSpace && r.value.maxEvals == maxEvals
        && r.value.baseModel == model.cfgPath
        && r.value.finetunedModel == FinetunedCfgPath(env.cwd, r.value.basin)
        && FinetuneUtils.ParamDict(best, r.value.basin).Ok?
        && yml in searched && searched[yml].Yaml?
        && trained == env.finetune(searched,
             FinetuneUtils.FinetuneConfig(searched[yml].cfg, FinetuneUtils.ParamDict(best, r.value.basin).value))
    ensures r.Ok? && FrameworkKeepsPickles(env) ==> PicklesKept(old(fs.files), fs.files)
  {
    var (searched, best, trials) := env.fmin(fs.files, searchSpace, maxEvals);
    fs.files := searched;
    if "basin" !in searchSpace {
      return Err(KeyError("basin")), searched;
    }
    if !searchSpace["basin"].Str? {
      return Err(ValueError("only string basin ids are modelled")), searched;
    }
    var bestArgs := FinetuneUtils.ParamDict(best, searchSpace["basin"].s);
    if bestArgs.Err? {
      return Err(bestArgs.error), searched;
    }
    var finetuningData;
    ghost var finetunedRun;
    finetuningData, trained, finetunedRun := FinetuneModel(fs, bestArgs.value, env);
    if finetuningData.Err? {
      return Err(finetuningData.error), trained;
    }
    ghost var rerun := fs.files;
    var finetuned := finetuningData.value.model;
    var sweep := new FinetuneUtils.Sweep(best, model.cfgPath, finetuned.cfgPath, searchSpace, maxEvals, trials);
    if evaluate {
      var evaluated := Evaluation.EvaluateModels(fs, [finetuned], [], false, "test", true, true,
                                                 env.evalRun, env.moduleDir, env.agg);
      if evaluated.Err? {
        return Err(evaluated.error), trained;
      }
      if FrameworkKeepsPickles(env) {
        Evaluation.PrepareKeepsPickles([finetuned], "test", true, [], rerun, env.evalRun);
      }
    }
    if FrameworkKeepsPickles(env) {
      PicklesKeptTrans(old(fs.files), searched, rerun);
      PicklesKeptTrans(old(fs.files), rerun, fs.files);
    }
    return Ok(sweep), trained;
  }

  // ---------------------------------------------------------------------------
  // finetune_on_n_basins

  predicate Distinct(s: seq<string>) {
    forall i, j :: 0 <= i < j < |s| ==> s[i] != s[j]
  }

  /** Appending a new element keeps the elements distinct. */
  lemma DistinctStep(s: seq<string>, x: string)
    requires Distinct(s) && x !in s
    ensures Distinct(s + [x])
  {
    assert forall i :: 0 <= i < |s| ==> (s + [x])[i] == s[i];
  }

  /** What a run of picks leaves: the basin is one of the validation table's, the config
      (which held a YAML mapping or nothing) is updated for that basin, its basin file holds
      it, and every path but the config and the ".txt" files is as it was. */
  /** The basin is a row of the model's validation metrics table as `files` hold it. */
  ghost predicate ValidationRow(files: map<Path, Content>, model: RunLayout.TrainedModel, basin: string) {
    var mf := model.GetEvalMetricsFile("validation");
    Evaluation.ReadMetrics(files, mf).Ok? && basin in RowBasins(files[mf].table.rows)
  }

  ghost predicate PickedState(before: map<Path, Content>, after: map<Path, Content>, cwd: Path,
                              model: RunLayout.TrainedModel, basin: string)
  {
    var mf := model.GetEvalMetricsFile("validation");
    var yml := FinetuneYml(cwd);
    && ValidationRow(before, model, basin)
    && (yml in before ==> before[yml].Yaml?)
    && yml in after
    && after[yml] == Yaml(UpdatedConfig(CurrentConfig(before, yml), Absolute(cwd, model.runDir), basin))
    && cwd + BasinFile(basin) in after && after[cwd + BasinFile(basin)] == Text(basin)
    && KeptByUpdates(before, after, cwd)
  }

  /** The validation metrics file is neither the config nor a ".txt" file. */
  lemma MetricsFileUntouched(model: RunLayout.TrainedModel, cwd: Path)
    ensures var mf := model.GetEvalMetricsFile("validation");
      mf != FinetuneYml(cwd) && NotText(mf)
  {
    var mf := model.GetEvalMetricsFile("validation");
    var n := "validation" + "_metrics.csv";
    assert Name(mf) == n;
    assert Name(FinetuneYml(cwd)) == "finetune.yml";
    assert n[|n| - 1] == 'v';
    NotTextByLastChar(mf);
  }

  /** The first pick of the resampling loop. */
  lemma PickedFirst(before: map<Path, Content>, cwd: Path, model: RunLayout.TrainedModel, draw: nat)
    requires PickedRow(before, model.GetEvalMetricsFile("validation"), None, None, draw).Ok?
    requires var yml := FinetuneYml(cwd); yml in before ==> before[yml].Yaml?
    ensures var b := PickedRow(before, model.GetEvalMetricsFile("validation"), None, None, draw).value.0;
      PickedState(before, UpdatedFiles(before, cwd, model.runDir, b), cwd, model, b)
  {
    var mf := model.GetEvalMetricsFile("validation");
    var b := PickedRow(before, mf, None, None, draw).value.0;
    var t := before[mf].table;
    var i :| 0 <= i < |t.rows| && t.rows[i].basin == b;
    assert RowBasins(t.rows)[i] == b;
    UpdatedKeeps(before, cwd, model.runDir, b);
    UpdatedFilesHold(before, cwd, model.runDir, b);
  }

  /** One more pick of the resampling loop: the updates of the earlier picks are overwritten. */
  lemma PickedAgain(before: map<Path, Content>, s: map<Path, Content>, cwd: Path,
                    model: RunLayout.TrainedModel, basin: string, draw: nat)
    requires PickedState(before, s, cwd, model, basin)
    requires PickedRow(s, model.GetEvalMetricsFile("validation"), None, None, draw).Ok?
    ensures var b := PickedRow(s, model.GetEvalMetricsFile("validation"), None, None, draw).value.0;
      PickedState(before, UpdatedFiles(s, cwd, model.runDir, b), cwd, model, b)
  {
    var mf := model.GetEvalMetricsFile("validation");
    var yml := FinetuneYml(cwd);
    var b := PickedRow(s, mf, None, None, draw).value.0;
    var after := UpdatedFiles(s, cwd, model.runDir, b);
    MetricsFileUntouched(model, cwd);
    assert s[mf] == before[mf];
    var t := before[mf].table;
    var i :| 0 <= i < |t.rows| && t.rows[i].basin == b;
    assert RowBasins(t.rows)[i] == b;
    UpdatedKeeps(s, cwd, model.runDir, b);
    UpdatedFilesHold(s, cwd, model.runDir, b);
    UpdatedConfigTwice(CurrentConfig(before, yml), Absolute(cwd, model.runDir), basin, b);
    assert CurrentConfig(s, yml) == UpdatedConfig(CurrentConfig(before, yml), Absolute(cwd, model.runDir), basin);
  }

  /** rest is what is left of draws after some of them were used. */
  predicate IsSuffix(rest: seq<nat>, draws: seq<nat>) {
    rest == draws || (|draws| > 0 && IsSuffix(rest, draws[1..]))
  }

  /** A suffix is the tail slice of the same length. */
  lemma {:induction false} SuffixIsSlice(rest: seq<nat>, draws: seq<nat>)
    ensures IsSuffix(rest, draws) <==> |rest| <= |draws| && rest == draws[|draws| - |rest|..]
  {
    if rest != draws && |draws| > 0 {
      SuffixIsSlice(rest, draws[1..]);
      if |rest| < |draws| {
        assert draws[1..][|draws| - 1 - |rest|..] == draws[|draws| - |rest|..];
      } else if |rest| == |draws| {
        assert draws[|draws| - |rest|..] == draws;
      }
    }
  }

  /** Using one more draw keeps a suffix. */
  lemma {:induction false} SuffixStep(tape: seq<nat>, draws: seq<nat>)
    requires |tape| > 0 && IsSuffix(tape, draws)
    ensures IsSuffix(tape[1..], draws)
  {
    if tape != draws {
      SuffixStep(tape, draws[1..]);
    }
  }

  /** The resampling loop of finetune_on_n_basins: draw until the basin is not one of
      those already chosen. */
  method PickNewBasin(fs: FileSystem, model: RunLayout.TrainedModel, cwd: Path, basins: seq<string>,
                      draws: seq<nat>)
    returns (r: Result<string>, rest: seq<nat>)
    modifies fs
    ensures r.Ok? ==>
      && r.value !in basins
      && |rest| < |draws| && IsSuffix(rest, draws)
      && PickedState(old(fs.files), fs.files, cwd, model, r.value)
  {
    var basin;
    basin, rest := PickFirst(fs, model, cwd, draws);
    if basin.Err? {
      return basin, rest;
    }
    while basin.value in basins
      invariant |rest| < |draws| && IsSuffix(rest, draws)
      invariant basin.Ok? && PickedState(old(fs.files), fs.files, cwd, model, basin.value)
      decreases |rest|
    {
      var again;
      again, rest := PickAgain(fs, model, cwd, rest, draws, old(fs.files), basin.value);
      if again.Err? {
        return again, rest;
      }
      basin := again;
    }
    return basin, rest;
  }

  /** The first draw of the resampling loop. */
  method PickFirst(fs: FileSystem, model: RunLayout.TrainedModel, cwd: Path, draws: seq<nat>)
    returns (r: Result<string>, rest: seq<nat>)
    modifies fs
    ensures r.Ok? ==> |rest| < |draws| && IsSuffix(rest, draws) && PickedState(old(fs.files), fs.files, cwd, model, r.value)
  {
    var picked;
    picked, rest := PickABasin(fs, model, None, None, cwd, draws);
    if picked.Err? {
      return Err(picked.error), rest;
    }
    PickedFirst(old(fs.files), cwd, model, draws[0]);
    SuffixStep(draws, draws);
    return Ok(picked.value.0), rest;
  }

  /** One more draw of the resampling loop, after an earlier pick. */
  method PickAgain(fs: FileSystem, model: RunLayout.TrainedModel, cwd: Path, tape: seq<nat>,
                   ghost draws: seq<nat>, ghost before: map<Path, Content>, ghost basin: string)
    returns (r: Result<string>, rest: seq<nat>)
    requires IsSuffix(tape, draws)
    requires PickedState(before, fs.files, cwd, model, basin)
    modifies fs
    ensures r.Ok? ==> |rest| < |tape| && IsSuffix(rest, draws) && PickedState(before, fs.files, cwd, model, r.value)
  {
    ghost var s := fs.files;
    var picked;
    picked, rest := PickABasin(fs, model, None, None, cwd, tape);
    if picked.Err? {
      return Err(picked.error), rest;
    }
    PickedAgain(before, s, cwd, model, basin, tape[0]);
    SuffixStep(tape, draws);
    return Ok(picked.value.0), rest;
  }

  /** One round's sweep: set the basin in the search space, search, and save the sweep. The
      ghost results are the saved record and the files it was saved into. */
  method SweepBasin(fs: FileSystem, model: RunLayout.TrainedModel, searchSpace: Config, basin: string,
                    maxEvals: int, env: Env, runDir: Path)
    returns (r: Result<Path>, ghost record: SweepRecord, ghost beforeSave: map<Path, Content>)
    modifies fs
    ensures r.Ok? ==>
      var space := searchSpace["basin" := Str(basin)];
      var (_, best, trials) := env.fmin(old(fs.files), space, maxEvals);
      && record.basin == basin
      && record.searchSpace == space
      && record.baseModel == model.cfgPath
      && record.maxEvals == maxEvals
      && record.bestParams == best && record.trials == trials
      && record.finetunedModel == FinetunedCfgPath(env.cwd, basin)
      && Parent(r.value) == runDir && NotText(r.value)
      && FinetuneUtils.IsUniqueName(beforeSave, runDir + [basin + ".pkl"], r.value)
      && fs.files == beforeSave[r.value := Pickle(record)]
      && (FrameworkKeepsPickles(env) ==> PicklesKept(old(fs.files), fs.files))
  {
    var space := searchSpace["basin" := Str(basin)];
    var sweep, _ := FindBestFinetuningParams(fs, space, model, maxEvals, true, env);
    record := SweepRecord(BestParams(0.0, 0.0, 0.0, 0, 0), [], [], "", map[], 0, Trials([]));
    beforeSave := fs.files;
    if sweep.Err? {
      return Err(sweep.error), record, beforeSave;
    }
    var saved := sweep.value.Save(fs, runDir);
    record := sweep.value.Record();
    if FrameworkKeepsPickles(env) {
      PicklesKeptTrans(old(fs.files), beforeSave, fs.files);
    }
    return Ok(saved), record, beforeSave;
  }

  /** After one round, the sweeps saved in earlier rounds are still in place. */
  lemma RoundKeepsSweeps(before: map<Path, Content>, picked: map<Path, Content>, after: map<Path, Content>,
                         cwd: Path, model: RunLayout.TrainedModel, basin: string,
                         sweeps: seq<Path>, records: seq<SweepRecord>)
    requires |sweeps| == |records|
    requires forall k :: 0 <= k < |sweeps| ==>
      sweeps[k] in before && before[sweeps[k]] == Pickle(records[k]) && NotText(sweeps[k])
    requires PickedState(before, picked, cwd, model, basin) && PicklesKept(picked, after)
    ensures forall k :: 0 <= k < |sweeps| ==> sweeps[k] in after && after[sweeps[k]] == Pickle(records[k])
  {
    forall k | 0 <= k < |sweeps|
      ensures sweeps[k] in after && after[sweeps[k]] == Pickle(records[k])
    {
      assert sweeps[k] != FinetuneYml(cwd);
      assert picked[sweeps[k]] == before[sweeps[k]];
    }
  }

  /** What round records one sweep: the basin set in the search space, the base model, the
      evaluation budget, the finetuned config's path, and a pickle in the sweep directory named
      `<basin>.pkl` or make_unique's variant of it. */
  ghost predicate RoundRecord(record: SweepRecord, basin: string, sweep: Path, searchSpace: Config,
                              model: RunLayout.TrainedModel, maxEvals: int, cwd: Path, runDir: Path)
  {
    && record.basin == basin
    && record.searchSpace == searchSpace["basin" := Str(basin)]
    && record.baseModel == model.cfgPath
    && record.maxEvals == maxEvals
    && record.finetunedModel == FinetunedCfgPath(cwd, basin)
    && Parent(sweep) == runDir && NotText(sweep)
    && FinetuneUtils.UniqueNameShape(runDir + [basin + ".pkl"], sweep)
  }

  /** Round k recorded basins[k]'s sweep, saved at sweeps[k], for every round so far. */
  ghost predicate RoundsRecorded(records: seq<SweepRecord>, basins: seq<string>, sweeps: seq<Path>,
                                 searchSpace: Config, model: RunLayout.TrainedModel, maxEvals: int,
                                 cwd: Path, runDir: Path)
  {
    && |basins| == |records| && |sweeps| == |records|
    && forall k :: 0 <= k < |records| ==>
         RoundRecord(records[k], basins[k], sweeps[k], searchSpace, model, maxEvals, cwd, runDir)
  }

  /** A further round's record extends the rounds recorded. */
  lemma RoundsRecordedStep(records: seq<SweepRecord>, basins: seq<string>, sweeps: seq<Path>,
                           searchSpace: Config, model: RunLayout.TrainedModel, maxEvals: int,
                           cwd: Path, runDir: Path, record: SweepRecord, basin: string, sweep: Path)
    requires RoundsRecorded(records, basins, sweeps, searchSpace, model, maxEvals, cwd, runDir)
    requires RoundRecord(record, basin, sweep, searchSpace, model, maxEvals, cwd, runDir)
    ensures RoundsRecorded(records + [record], basins + [basin], sweeps + [sweep], searchSpace, model,
                           maxEvals, cwd, runDir)
  {
    assert forall k :: 0 <= k < |records| ==>
      (records + [record])[k] == records[k] && (basins + [basin])[k] == basins[k] && (sweeps + [sweep])[k] == sweeps[k];
  }

  /** Each of the sweeps holds the pickle of its record. */
  ghost predicate SweepsSaved(files: map<Path, Content>, sweeps: seq<Path>, records: seq<SweepRecord>) {
    && |sweeps| == |records|
    && forall k :: 0 <= k < |sweeps| ==> sweeps[k] in files && files[sweeps[k]] == Pickle(records[k])
  }

  /** Saving one more pickle, with the earlier ones kept, extends the sweeps saved. */
  lemma SweepsSavedStep(files: map<Path, Content>, sweeps: seq<Path>, records: seq<SweepRecord>,
                        sweep: Path, record: SweepRecord)
    requires |sweeps| == |records|
    requires forall k :: 0 <= k < |sweeps| ==> sweeps[k] in files && files[sweeps[k]] == Pickle(records[k])
    requires sweep in files && files[sweep] == Pickle(record)
    ensures SweepsSaved(files, sweeps + [sweep], records + [record])
  {
    assert forall k :: 0 <= k < |sweeps| ==> (sweeps + [sweep])[k] == sweeps[k] && (records + [record])[k] == records[k];
  }

  /** One round of finetune_on_n_basins: draw a basin not in basins, then sweep it. The rounds
      before this one saved records at sweeps. */
  method SweepRound(fs: FileSystem, model: RunLayout.TrainedModel, searchSpace: Config, maxEvals: int,
                    env: Env, runDir: Path, basins: seq<string>, tape: seq<nat>,
                    ghost sweeps: seq<Path>, ghost records: seq<SweepRecord>)
    returns (r: Result<(string, Path)>, rest: seq<nat>, ghost record: SweepRecord)
    requires |sweeps| == |records| && forall k :: 0 <= k < |sweeps| ==> NotText(sweeps[k])
    modifies fs
    ensures r.Ok? ==>
      var (basin, sweep) := r.value;
      && basin !in basins
      && ValidationRow(old(fs.files), model, basin)
      && RoundRecord(record, basin, sweep, searchSpace, model, maxEvals, env.cwd, runDir)
    ensures r.Ok? && FrameworkKeepsPickles(env) ==>
      && r.value.1 in fs.files && fs.files[r.value.1] == Pickle(record)
      && (SweepsSaved(old(fs.files), sweeps, records) ==> SweepsSaved(fs.files, sweeps + [r.value.1], records + [record]))
  {
    ghost var before := fs.files;
    var basin;
    basin, rest := PickNewBasin(fs, model, env.cwd, basins, tape);
    if basin.Err? {
      record := SweepRecord(BestParams(0.0, 0.0, 0.0, 0, 0), [], [], "", map[], 0, Trials([]));
      return Err(basin.error), rest, record;
    }
    ghost var picked := fs.files;
    var saved;
    ghost var beforeSave;
    saved, record, beforeSave := SweepBasin(fs, model, searchSpace, basin.value, maxEvals, env, runDir);
    if saved.Err? {
      return Err(saved.error), rest, record;
    }
    if FrameworkKeepsPickles(env) && SweepsSaved(before, sweeps, records) {
      RoundKeepsSweeps(before, picked, fs.files, env.cwd, model, basin.value, sweeps, records);
      SweepsSavedStep(fs.files, sweeps, records, saved.value, record);
    }
    return Ok((basin.value, saved.value)), rest, record;
  }

  /** finetune_on_n_basins: for each of n rounds, draw basins until one is new, set it as the
      search space's basin, run the sweep and save it in a fresh sweep directory. The draws
      are the randomness of the sampling; running out of them stands for the loop not ending.
      The saved records are returned alongside as a ghost result. */
  method FinetuneOnNBasins(fs: FileSystem, model: RunLayout.TrainedModel, searchSpace: Config, n: nat,
                           maxEvals: int, env: Env, draws: seq<nat>)
    returns (r: Result<(seq<string>, seq<Path>, Path)>, ghost records: seq<SweepRecord>)
    modifies fs
    ensures r.Ok? ==>
      var (basins, sweeps, runDir) := r.value;
      && |basins| == n && Distinct(basins) && |records| == n
      && FinetuneUtils.IsUniqueName(old(fs.files), env.finetuningDir + ["sweeps", model.configId], runDir)
      && RoundsRecorded(records, basins, sweeps, searchSpace, model, maxEvals, env.cwd, runDir)
      && (FrameworkKeepsPickles(env) ==> SweepsSaved(fs.files, sweeps, records))
  {
    records := [];
    var runDir := FinetuneUtils.GenerateSweepRunDirectory(fs, env.finetuningDir, model.configId);
    var basins: seq<string> := [];
    var sweeps: seq<Path> := [];
    var tape := draws;
    for i := 0 to n
      invariant |records| == i && Distinct(basins)
      invariant RoundsRecorded(records, basins, sweeps, searchSpace, model, maxEvals, env.cwd, runDir)
      invariant FrameworkKeepsPickles(env) ==> SweepsSaved(fs.files, sweeps, records)
    {
      var round, rest, record := SweepRound(fs, model, searchSpace, maxEvals, env, runDir, basins, tape,
                                            sweeps, records);
      if round.Err? {
        return Err(round.error), records;
      }
      RoundsRecordedStep(records, basins, sweeps, searchSpace, model, maxEvals, env.cwd, runDir,
                         record, round.value.0, round.value.1);
      DistinctStep(basins, round.value.0);
      tape := rest;
      basins := basins + [round.value.0];
      sweeps := sweeps + [round.value.1];
      records := records + [record];
    }
    return Ok((basins, sweeps, runDir)), records;
  }
}
