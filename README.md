# Fine-Flood-Forecasts: a verified model of the experiment plumbing

Fine-Flood-Forecasts trains LSTM rainfall-runoff models with the neuralhydrology framework. It then fine-tunes them on single basins, compares them on per-basin metrics, and clusters basins by their learned static-attribute embeddings. Most of the code drives other libraries. Underneath those calls sit small deterministic rules, and these are what this project models in Dafny and proves properties of:

- the run layout (`experiment/utils.py`):
  - epoch strings padded to three digits;
  - where a trained model's config and metric files live;
  - the per-cluster configs;
  - the training-log loss scanner;
- the model comparison (`experiment/eval.py`):
  - stripping the " (mean)"/" (median)" markers;
  - the metric goal table;
  - the "closest to its goal, first on ties" highlight;
  - the mean/median row labels;
  - the basin filter and its assertions;
  - the merge on `Metric`;
  - the decision to evaluate a model again;
  - `models_dict`, keyed by config id;
- the cluster partition (`experiment/clustering.py`):
  - the embedding cache and its count check;
  - the cluster counts tried;
  - the output directory name and its skip-if-exists rule;
  - one `<label>.txt` member list per distinct label;
- the fine-tuning plumbing (`experiment/finetuning/utils.py`):
  - decoding hyperopt's best parameters;
  - building the fine-tune config;
  - the `make_unique` naming scheme;
  - the `Sweep` record and where it is saved;
- basin selection and sweeps (`experiment/finetuning/finetune.py`):
  - the NSE range filter;
  - the rewrite of the fine-tune config and basin file;
  - the objective hyperopt minimises;
  - the decode-and-rerun step;
  - the loop that sweeps n distinct basins.

## How the model is built

- `Paths`:
  - A path is a sequence of components, so `p / "x"` is `p + ["x"]`.
- `Store`:
  - The filesystem is a `FileSystem` object whose `files` map holds every existing path and its content.
  - A content is a directory, a YAML config, a text file, a metrics CSV, the benchmark CSV, a saved embeddings dict or a pickled sweep.
  - A config is a map from keys to values.
- `Dicts`:
  - Python dicts keep insertion order, and the comparison's columns depend on that order.
  - They are modelled as association lists with distinct keys. `Put` is `d[k] = v`.
- Randomness is an explicit tape of draws.
  - The sample's seed is `datetime.now()`. Each `df.sample(n=1)` takes the next draw modulo the number of candidate rows.
  - An exhausted tape (`DrawsExhausted`) stands for the resampling loop not ending.
- Other libraries come in as function-typed parameters. These are the framework's `finetune` and `eval_run`, pandas' mean and median, the embedding network, KMeans' labels and inertia, and hyperopt's `fmin`. Their results are otherwise unconstrained.
- Error handling:
  - Every Python exception the code raises or can hit on its own data is an `Error` value in a `Result`. The kinds are AssertionError, KeyError, ValueError, IndexError, AttributeError, a missing file, a path that is a directory, and an exhausted draw tape.
  - Operations stop at the first error, as the exception would stop them.
- Each module follows one source file. Loops in the source are `while`/`for` loops in Dafny methods, proved to compute a specification function that is written as a fold over prefixes. Lemmas about those functions state the properties.

Where the code and its documentation disagree, the model follows the code:

- `re.sub(r' \((mean|median)\)', '', s)` removes every occurrence of either marker, not just a trailing one (`Evaluation.StripAggregate`).
- `LOSSES[i]` is Python indexing: besides 0..2, the indices -3..-1 are accepted and count from the end. Only other indices raise IndexError.
- `pd.merge(..., on='Metric')` is an inner join, also for the benchmark. A metric missing from either table drops the row.
- `if comparison_df.empty` also holds for a merge that kept no rows. The next model's summary then replaces the accumulated table, dropping the earlier model columns (`Evaluation.CompareFold`).
- `update_files` opens `assets/finetune.yml` relative to the working directory, while `cfg_from_args` reads the copy next to the module. Appending to a missing file creates it, so a missing config becomes one holding only `base_run_dir` plus the keys set afterwards.
- `get_embeddings` writes the cache before it checks the number of basins. A wrong count is therefore cached, and it fails again on the next call.
- `int(best_params['epochs'])` truncates toward zero.
- With highlighting on, `apply(bold_better)` runs on every row first, so a row it cannot highlight fails before anything is assigned. Its result is then assigned to `model_keys` (the dict keys, plus `Benchmark`). Pandas rejects the assignment with ValueError when the number of keys differs from the number of columns the expanded result has. With rows, that is one column per model column. With no rows, pandas hands back a copy of the table, so `Metric` counts as well. For the bare `DataFrame()` of an empty dict, it is zero. Keys that are not yet columns become new columns (`Evaluation.Finish`).
- `evaluate_models([])` with the benchmark on reads `benchmark.csv` before merging. A missing benchmark file therefore fails to open. When the file exists, the merge with the empty `DataFrame()` fails with KeyError on `Metric`.
- `pick_a_basin` without both bounds samples the whole table first, so an empty table is a ValueError before the `NSE` column is read. A table without `NSE` then fails on attribute access (AttributeError). With both bounds, `df['NSE']` is a KeyError first.
- `update_files` appends the `base_run_dir` line before it parses the file. A config that does not parse as a YAML mapping keeps the appended line when the parse fails. The line holds `run_dir.absolute()`, which puts a relative run directory under the working directory.

## Model

| member | source | states |
|---|---|---|
| RunLayout.EpochPad | experiment/utils.py:45-50 | `str(epoch)` left-padded with '0' to length max(3, len(str(epoch))): the digits end the string, everything before them is '0', and a string of three or more characters is unchanged |
| RunLayout.GetEpochString | experiment/utils.py:45-50 | the prepend-'0' loop returns exactly the padded string |
| RunLayout.TestMetricsFile | experiment/utils.py:148-150 | the metrics file `__init__` spells out is the test period's metrics file |
| RunLayout.EpochPadRoundTrip | experiment/utils.py:47-50 | for a positive epoch, stripping the leading zeros of the padded string gives back the epoch's decimal digits |
| RunLayout.EpochPadParses | experiment/utils.py:47-50 | the padded string of any epoch is all digits and reads back as the epoch |
| RunLayout.CfgPathFor | experiment/utils.py:152-153 | an experiment name resolves to `<module>/models/runs/<name>/config.yml`, a file named config.yml in the run's directory |
| RunLayout.ResolveCfgPath | experiment/utils.py:134-139 | a Path is used as it is, a string goes through get_cfg_path, and an argument of any other type, and only that, is a ValueError |
| RunLayout.MetricsFilePath | experiment/utils.py:155-157 | the metrics file is `<run_dir>/<period>/model_epoch<padded epoch>/<period>_metrics.csv`, component by component |
| RunLayout.MetricsFileEpoch | experiment/utils.py:156-157 | the epoch directory's name is `model_epoch` followed by at least three digits that read back as the epoch |
| RunLayout.TrainedModel.constructor | experiment/utils.py:141-150 | the model keeps the config path and config; config_id and epoch come from the config, run_dir is the config path's parent, and metrics_file equals get_eval_metrics_file('test') |
| RunLayout.OpenTrainedModel | experiment/utils.py:132-150 | construction fails with ValueError for a non-path, non-string argument; it succeeds exactly when the resolved config exists and has the two keys; the result is valid and was loaded from the resolved path |
| RunLayout.ExperimentNameOf | experiment/utils.py:66 | reading `experiment_name` succeeds exactly when the config holds it as a string, and returns that string |
| RunLayout.ClusterConfig | experiment/utils.py:63-72 | a missing cluster file fails the assertion; otherwise the copy has the base keys plus the three set ones: `experiment_name` is the base name + `cluster<k>`, both basin files are the cluster file, and every other key is unchanged |
| RunLayout.ClusterEntriesDistinct | experiment/utils.py:79-82 | a `<i>.txt` list is never a `<j>.yml` config, and different clusters get different `.yml` paths |
| RunLayout.GenerateClusterConfigs | experiment/utils.py:74-87 | the loop leaves the files as the specification fold does; it succeeds exactly when the fold does, and then returns `<dir>/0.yml` .. `<dir>/(n-1).yml` in order, n being the number of `.txt` entries |
| RunLayout.ConfigsFailureSticks | experiment/utils.py:83-85 | once one cluster config cannot be derived, later clusters change nothing |
| RunLayout.ConfigsWrittenEffect | experiment/utils.py:74-87 | generate_cluster_configs succeeds exactly when every missing config can be derived; it never overwrites a file; it adds exactly the missing `.yml` files, each holding the config derived from its `.txt` list |
| RunLayout.RecordLoss | experiment/utils.py:118-123 | a loss without an epoch fails the assertion, an unreadable number is a ValueError, and otherwise the loss is stored under the epoch string |
| RunLayout.GetLosses | experiment/utils.py:102-124 | scanning the lines in a loop gives exactly the specification fold's result |
| RunLayout.LossesErrPersists | experiment/utils.py:118-123 | the first failing line decides the outcome; later lines do not matter |
| RunLayout.LossesAreLastWrites | experiment/utils.py:118-123 | after a successful scan, an epoch has a train (validation) loss exactly when some line reports one, and the value is the one on the last such line |
| RunLayout.MissingEpochFails | experiment/utils.py:118-122 | any line with a loss but no `Epoch N` makes the scan fail |
| Evaluation.StripAppendSuffix | experiment/eval.py:40 | appending " (mean)" or " (median)" to a name does not change what the name strips to |
| Evaluation.StripPlain | experiment/eval.py:40 | a name without '(' is left unchanged |
| Evaluation.GoalOf | experiment/eval.py:40-42 | the goal lookup succeeds exactly when the stripped name is in the table and returns its entry; otherwise it is a KeyError |
| Evaluation.MetricPolarity | experiment/eval.py:13-28 | every goal is 0 or 1; NSE, KGE, Alpha-NSE, Beta-NSE, Pearson-r and Beta-KGE have goal 1, the other eight metrics goal 0 |
| Evaluation.GoalOfLabels | experiment/eval.py:40-42 | `m (mean)` and `m (median)` have the goal `m` has |
| Evaluation.GoalOfTableNames | experiment/eval.py:40-42 | every metric of the table is looked up as it is |
| Evaluation.ArgMin | experiment/eval.py:45 | `np.argmin` returns an index of a minimal value that is smaller than every earlier value |
| Evaluation.FirstClosestUnique | experiment/eval.py:44-45 | at most one index is the first index closest to the goal |
| Evaluation.BoldBetter | experiment/eval.py:34-49 | bold_better succeeds exactly when the metric has a goal and there are values; the row keeps the values in order, and a cell is bold exactly when it is the first value closest to the goal |
| Evaluation.ExactlyOneBold | experiment/eval.py:48 | a highlighted row has exactly one bold cell |
| Evaluation.AggregateLabels | experiment/eval.py:72-81 | the labels are every column + " (mean)", then every column + " (median)", in column order |
| Evaluation.LabelsStripBack | experiment/eval.py:75-78 | each label strips back to its column's name and has that column's goal |
| Evaluation.LabelsDistinct | experiment/eval.py:75-80 | distinct columns give distinct labels |
| Evaluation.FilterRows | experiment/eval.py:64 | the kept rows are rows of the table whose basin is requested, and their basins are exactly the table's basins among the requested ones |
| Evaluation.FilterBasins | experiment/eval.py:63-67 | with a filter, the table must contain every requested basin, and the kept rows then cover exactly the requested set; without a filter the table, unless it is empty, must have exactly NUM_BASINS rows; every other case is an AssertionError |
| Evaluation.ReadMetrics | experiment/eval.py:61 | reading succeeds exactly for an existing, rectangular metrics table and returns it |
| Evaluation.NeedsEvaluation | experiment/eval.py:112-121 | the model is not evaluated again exactly when its metrics file exists, is not ignored, covers the requested basins, and has NUM_BASINS rows when no basins are requested |
| Evaluation.ReuseMatchesFilter | experiment/eval.py:113-118 | a reused metrics file always passes the later basin filter, and for a non-empty file, passing the filter is exactly the reuse condition |
| Evaluation.Summary | experiment/eval.py:69-81 | a model's summary is one column named after the model, holding each column's mean under its mean label and its median under its median label |
| Evaluation.FilterKeepsWellFormed | experiment/eval.py:64 | filtering keeps one value per metric column in every row |
| Evaluation.ModelSummary | experiment/eval.py:56-81 | a missing eval file fails the assertion; a summary exists exactly when the file reads and passes the basin filter, and it is labelled by the file's columns |
| Evaluation.MergeRows | experiment/eval.py:86 | the inner join keeps only metrics present on both sides |
| Evaluation.MatchOnce | experiment/eval.py:86 | a metric found once on the right joins exactly one row, with the right row's values appended |
| Evaluation.MergeCovered | experiment/eval.py:86 | when the right side has distinct metrics that cover the left ones, the merge keeps every left row in order, each extended by its partner's values |
| Evaluation.Joined | experiment/eval.py:86 | the inner join spelled out: each left row, in order, extended by the values of the right row with its metric |
| Evaluation.MergeJoined | experiment/eval.py:86 | when the right side has distinct metrics that cover the left ones, `pd.merge(..., on='Metric')` is exactly that join |
| Evaluation.CompareFoldErrSticks | experiment/eval.py:56-58 | a failing model fails the whole comparison with its error |
| Evaluation.CompareFoldUnfold | experiment/eval.py:56-86 | one more turn of the loop fails with that model's error or accumulates its summary |
| Evaluation.CompareFold | experiment/eval.py:55-86 | an accumulated table exists exactly when at least one model was compared, and its model columns are a non-empty tail of the dict's keys: the models from the last replacement on |
| Evaluation.AccumulateTail | experiment/eval.py:83-86 | replacing or merging in one model's summary keeps the model columns a tail of the keys seen so far |
| Evaluation.SameColumnsCompare | experiment/eval.py:56-86 | when all files pass and share the same distinct metric columns, the comparison has one column per dict key, in order, and exactly the mean and median labels |
| Evaluation.BenchmarkTable | experiment/eval.py:90 | the benchmark table is one `Benchmark` column with the file's metrics and scores in order |
| Evaluation.WithBenchmark | experiment/eval.py:88-91 | the benchmark file is read first, so a missing one fails to open whatever was accumulated; with the file present and no accumulated table, the merge fails with KeyError on `Metric`; a success requires a table and appends the `Benchmark` column to its models |
| Evaluation.ExpandedWidth | experiment/eval.py:98 | the columns the expanded `apply` leaves: one per model column when there are rows, and one more, for `Metric`, when there are none |
| Evaluation.AddedColumns | experiment/eval.py:98 | the assigned keys that are not yet columns, and only those |
| Evaluation.PlainRows | experiment/eval.py:93-100 | without highlighting, every row and value is shown unchanged |
| Evaluation.BoldRows | experiment/eval.py:98 | `apply(bold_better)` succeeds exactly when every row can be highlighted, and then gives each row its bold_better cells |
| Evaluation.EvaluteModelCsvs | experiment/eval.py:52-100 | the accumulating loop followed by the benchmark and highlighting steps returns exactly the specification function's result |
| Evaluation.MissingEvalFileFails | experiment/eval.py:58 | any missing eval file makes the comparison fail |
| Evaluation.CellValues | experiment/eval.py:46-48 | the values shown in a row's cells, in order |
| Evaluation.HighlightedOnce | experiment/eval.py:93-98 | with highlighting, every row of a successful result has a known metric and exactly one bold cell, at the first value closest to the goal |
| Evaluation.RowsHighlighted | experiment/eval.py:98 | every row that bold_better highlights has a known metric and exactly one bold cell, at the first value closest to the goal |
| Evaluation.HighlightedColumns | experiment/eval.py:93-98 | with highlighting and at least one row, the columns of the result are exactly the dict's keys, plus `Benchmark` when included, in order |
| Evaluation.EmptyTableHighlightFails | experiment/eval.py:83-98 | when the merges kept no rows, assigning the highlighted values fails with ValueError, since `Metric` is one column more than the keys |
| Evaluation.PrepareModels | experiment/eval.py:106-122 | `models_dict` has distinct keys and no more entries than there are models |
| Evaluation.PrepareErrSticks | experiment/eval.py:107-121 | a model whose metrics file cannot be read stops the loop with that error |
| Evaluation.LoopFiles | experiment/eval.py:107-121 | the files the loop leaves: when every model's step succeeds they are the files of the whole fold |
| Evaluation.LoopFilesStick | experiment/eval.py:107-121 | after the first failing model, later models change no file |
| Evaluation.OneModelFailureKeepsFiles | experiment/eval.py:107-121 | a single model whose metrics file cannot be read leaves every file as it was |
| Evaluation.PrepareUnfold | experiment/eval.py:107-122 | one more turn of the loop is one more model's evaluate-if-needed step |
| Evaluation.PrepareLast | experiment/eval.py:122 | the last model's metrics file is recorded under its config id |
| Evaluation.ConfigIds | experiment/eval.py:122 | the models' config ids in order |
| Evaluation.EvalEntries | experiment/eval.py:106-122 | the (config id, metrics file) assignments of the loop, one per model in order |
| Evaluation.PreparedEvalFiles | experiment/eval.py:106-122 | when the loop succeeds, `models_dict` is the dict those assignments build, whatever was evaluated or reused |
| Evaluation.ModelIdsAreKeys | experiment/eval.py:106-122 | the keys of `models_dict` are exactly the models' config ids |
| Evaluation.LastModelWins | experiment/eval.py:122 | each config id maps to the metrics file of the last model carrying it |
| Evaluation.ReuseKeepsFiles | experiment/eval.py:113-119 | when every model's previous metrics can be reused, nothing is evaluated and the files are unchanged |
| Evaluation.PrepareKeepsPickles | experiment/eval.py:106-122 | when eval_run keeps the saved pickles, so does the evaluate-if-needed loop |
| Evaluation.OneModelColumn | experiment/eval.py:104-125 | evaluating a single model without benchmark or highlighting compares exactly one column, named after its config id |
| Evaluation.EvaluateModels | experiment/eval.py:104-127 | the loop evaluates and records exactly as the specification fold does; a failed step returns its error and leaves the files the models before it left; otherwise the result is the comparison of the recorded files on the files after evaluation |
| Dicts.Put | experiment/eval.py:122 | `d[k] = v`: keys stay distinct, an existing key keeps its position, a new key goes last, k maps to v and no other key changes |
| Dicts.PutKeys | experiment/eval.py:122 | after `d[k] = v` the keys are the old keys and k |
| Dicts.LookupPut | experiment/eval.py:122 | after `d[k] = v` a lookup of k gives v and a lookup of any other key is unchanged |
| Dicts.FromPairsKeys | experiment/eval.py:106-122 | a dict built by assigning pairs in turn has exactly the assigned keys |
| Dicts.FromPairsLastWins | experiment/eval.py:106-122 | in a dict built by assigning pairs in turn, each key holds the value of its last assignment |
| Dicts.FromPairsUnique | experiment/clustering.py:40-44 | assigning pairs whose keys are already distinct builds a dict holding those pairs in order |
| Clustering.EmbeddingsOf | experiment/clustering.py:40-44 | the embeddings dict has distinct keys and at most one entry per attribute row |
| Clustering.Embedded | experiment/clustering.py:40-44 | one assignment per attribute row, basin to the embedding of its own features, in order |
| Clustering.EmbeddingsKeepBasins | experiment/clustering.py:40-44 | over distinct basins, the embeddings have the same basins in the same order, each holding the embedding of its own features |
| Clustering.GetEmbeddings | experiment/clustering.py:26-51 | a cache present is returned unchanged; otherwise the computed embeddings are saved; either way the call succeeds exactly when there are NUM_BASINS entries |
| Clustering.InvestigateClusters | experiment/clustering.py:63-69 | one inertia per cluster count 1 .. max_clusters-1, in increasing order, and none when max_clusters is 1 or less |
| Clustering.Unique | experiment/clustering.py:108 | `np.unique` gives the labels present, strictly increasing |
| Clustering.Insert | experiment/clustering.py:108 | inserting into a strictly increasing sequence keeps it strictly increasing and adds exactly the element |
| Clustering.ClusterMembers | experiment/clustering.py:109 | a key is in a label's member list exactly when it sits at a position labelled with it |
| Clustering.LabelIndices | experiment/clustering.py:109 | the positions carrying a label, in increasing order, and every such position |
| Clustering.MembersInKeyOrder | experiment/clustering.py:109 | the member list is the keys at the label's positions, in the keys' order |
| Clustering.Partition | experiment/clustering.py:108-110 | with distinct keys, every key is in the member list of its own label and of no other |
| Clustering.OwnLabelWritten | experiment/clustering.py:108 | every key's label is one of the distinct labels, so every key lands in a written list |
| Clustering.ClusterDir | experiment/clustering.py:97 | the directory is `outputs/clusters/<config_id>_<number of distinct labels>` |
| Clustering.ClusterFile | experiment/clustering.py:110 | each list is `<label>.txt` inside the cluster directory |
| Clustering.ClusterFilesDistinct | experiment/clustering.py:110 | different labels get different files |
| Clustering.ClusterFileSetSnoc | experiment/clustering.py:108-110 | the files of one more label are the earlier ones plus that label's file |
| Clustering.ClustersWrittenPaths | experiment/clustering.py:108-110 | writing the lists adds exactly one `<label>.txt` per label |
| Clustering.ClustersWrittenContents | experiment/clustering.py:108-110 | each written file holds its label's members one per line, and every other path keeps its content |
| Clustering.WriteClusters | experiment/clustering.py:97-114 | an existing directory is returned and nothing is written; otherwise the directory is created and one member list per distinct label is written; when the labels are too few for the keys, there is an IndexError after the directory exists if there is any label, and otherwise only the directory is created |
| Clustering.WriteMemberLists | experiment/clustering.py:108-110 | the loop writes exactly the member lists of the distinct labels; with fewer labels than keys, the first list fails with IndexError and nothing is written, and no label means nothing to write |
| Clustering.GenerateClustersInEmbeddingSpace | experiment/clustering.py:76-114 | the returned path exists, is under `outputs/clusters` and is named after the model's config id |
| FinetuneUtils.TruncToInt | experiment/finetuning/utils.py:22 | `int()` of a float truncates toward zero |
| FinetuneUtils.LossAt | experiment/finetuning/utils.py:24 | `LOSSES[i]` with Python indexing: 0..2 directly, -3..-1 from the end, anything else an IndexError |
| FinetuneUtils.ParamDict | experiment/finetuning/utils.py:19-26 | decoding succeeds exactly for a valid loss index; the basin is the argument, epochs are truncated, the schedule is {0: lr1, 30: lr2}, the loss is one of LOSSES (LOSSES[i] for i >= 0), and lstm passes through |
| FinetuneUtils.Modules | experiment/finetuning/utils.py:39-41 | the modules are ['head', 'lstm'] when lstm is set and ['head'] otherwise |
| FinetuneUtils.FinetuneConfig | experiment/finetuning/utils.py:38-47 | exactly epochs, learning_rate, loss and finetune_modules are set from the arguments; every other key is unchanged |
| FinetuneUtils.CfgFromArgs | experiment/finetuning/utils.py:28-47 | the key-by-key rewrite succeeds exactly when the base YAML exists and yields the fine-tune config of the arguments |
| FinetuneUtils.DecodedConfig | experiment/finetuning/utils.py:19-47 | decoding then building gives a loss in LOSSES, the truncated epochs, a schedule keyed exactly by {0, 30}, and modules headed by 'head' |
| FinetuneUtils.Candidate | experiment/finetuning/utils.py:53 | a candidate `<stem>_<k><ext>` lies beside the original name |
| FinetuneUtils.CandidateInjective | experiment/finetuning/utils.py:53 | different counters give different candidates |
| FinetuneUtils.CandidateIsNew | experiment/finetuning/utils.py:53 | no candidate is the original name |
| FinetuneUtils.UniqueNameDetermined | experiment/finetuning/utils.py:49-55 | the description of make_unique's result determines it |
| FinetuneUtils.MakeUnique | experiment/finetuning/utils.py:49-55 | the result does not exist; it is the name when that does not exist, and otherwise `<stem>_<k><ext>` for the smallest k >= 1 whose candidate does not exist, always built from the original stem |
| FinetuneUtils.UniqueNameNotText | experiment/finetuning/utils.py:49-55 | make_unique of a name whose last character is not 't' is not a `.txt` name |
| FinetuneUtils.FreshCandidates | experiment/finetuning/utils.py:52-54 | the loop never tests the same path twice, which bounds it by the number of existing paths |
| FinetuneUtils.GenerateSweepRunDirectory | experiment/finetuning/utils.py:57-62 | the sweep directory is make_unique of `sweeps/<model id>`, and it is created and nothing else |
| FinetuneUtils.Sweep.constructor | experiment/finetuning/utils.py:99-107 | the sweep stores its arguments unchanged, and its basin is the search space's basin |
| FinetuneUtils.Sweep.Save | experiment/finetuning/utils.py:109-113 | the pickle goes to make_unique of `<run_dir>/<basin>.pkl`, a path that did not exist, with nothing else written |
| FinetuneUtils.NewSweep | experiment/finetuning/utils.py:99-107 | building a sweep fails with KeyError without a basin; a sweep built keeps its arguments and its basin invariant |
| Paths.SplitExt | experiment/finetuning/utils.py:51 | `os.path.splitext`: stem + extension is the name, the extension is empty or a dot followed by no other dot, and a leading-dots name has no extension |
| Paths.Absolute | experiment/finetuning/finetune.py:36 | `Path.absolute()`: an absolute path is kept, a relative one is put under the working directory; the result ends with the path, and is absolute when the working directory is |
| Paths.AbsoluteIdempotent | experiment/finetuning/finetune.py:36 | making a path absolute twice is making it absolute once |
| Finetune.InRange | experiment/finetuning/finetune.py:25 | the kept rows are exactly the table's rows whose NSE lies in [lower, higher] |
| Finetune.Candidates | experiment/finetuning/finetune.py:22-25 | without both bounds every row is a candidate; candidates are rows of the table |
| Finetune.DrawIndex | experiment/finetuning/finetune.py:23-25 | a draw selects one of the candidates, and every candidate can be drawn |
| Finetune.PickedRow | experiment/finetuning/finetune.py:20-28 | with both bounds, a table without `NSE` is a KeyError; without them, an empty table fails the sample with ValueError, and then a table without `NSE` is an AttributeError; a picked basin and NSE come from one row of the validation table, and with both bounds its NSE is in [lower, higher] |
| Finetune.PickCoversRange | experiment/finetuning/finetune.py:22-25 | every row in range (every row, without both bounds) is picked by some draw |
| Finetune.PickedRowAt | experiment/finetuning/finetune.py:23-28 | draw k below the number of candidates picks candidate k |
| Finetune.UpdatedConfig | experiment/finetuning/finetune.py:35-46 | the config gains `base_run_dir` (the run directory made absolute), `experiment_name` is `basin_<basin>`, both basin files are `assets/basin_files/<basin>.txt`, and every other key is unchanged |
| Finetune.UpdatedConfigTwice | experiment/finetuning/finetune.py:35-50 | updating for a second basin gives the config updated for that basin alone |
| Finetune.UpdateFiles | experiment/finetuning/finetune.py:32-55 | a config path that is a directory fails to open and nothing changes; any other content that is not YAML gets the `base_run_dir` line appended and then fails to parse; otherwise it writes the updated config for the absolute run directory and a basin file holding exactly the basin id, and nothing else |
| Finetune.PickABasin | experiment/finetuning/finetune.py:19-30 | without draws it fails and changes nothing; a pick that fails changes nothing; otherwise one draw is used, and the call succeeds exactly when the config is not a non-YAML file; a success returns that draw's row of the validation metrics, in range when bounds are given, and leaves the files update_files leaves; a failed update leaves the appended line; a failed pick leaves the draws unused |
| Finetune.FinetunedCfgPath | experiment/finetuning/finetune.py:64-65 | the fine-tuned run is `runs/basin_<basin>/config.yml` under the working directory |
| Finetune.ObjectiveLoss | experiment/finetuning/finetune.py:72 | the loss is minus the first row's value in the `basin_<basin>` column, and it fails when that cell does not exist |
| Finetune.ObjectiveReversesScore | experiment/finetuning/finetune.py:72 | a better validation score gives a smaller loss |
| Finetune.LossNeedsBasinRun | experiment/finetuning/finetune.py:69-72 | a validation loss exists only for a model whose config id is `basin_<basin>`, the column the loss reads |
| Finetune.FinetuneModelFromCfg | experiment/finetuning/finetune.py:56-72 | the framework fine-tunes on the given config; the run is opened exactly when the basin's fine-tuned config path holds a model config in the files fine-tuning left, and without it the call fails with those files; with it, the files at the end are those the validation evaluate_models call leaves, and the call succeeds exactly when that evaluation yields a loss; the model scored has config id `basin_<basin>`, and the loss is the objective of evaluating it on the validation period for that basin alone, ignoring earlier metrics; when the framework's calls keep pickles, so does this one |
| Finetune.ValidateFinetuned | experiment/finetuning/finetune.py:69-72 | the loss is the validation objective of the run, and the files are those evaluate_models leaves, the fold's files on success |
| Finetune.FinetuneModel | experiment/finetuning/finetune.py:74-78 | a missing base YAML fails before anything changes; otherwise the config fine-tuned on is cfg_from_args of the arguments, and the model, the loss and the files at the end are those finetune_model_from_cfg gives for the arguments' basin |
| Finetune.FindBestFinetuningParams | experiment/finetuning/finetune.py:82-103 | a search space without a basin fails; the sweep records fmin's best parameters and trials, the search space and max_evals given, the base model and the basin's fine-tuned run; the best parameters decode for its basin, and the rerun fine-tunes, on the files fmin left, the config those decoded parameters give |
| Finetune.PickNewBasin | experiment/finetuning/finetune.py:113-115 | the resampling loop returns a basin not chosen before that is a row of the validation table, using at least one draw, and what is left is a suffix of the draws; the config is rewritten for that basin, its basin file holds it, and every path but the config and the `.txt` files keeps its content |
| Finetune.SuffixIsSlice | experiment/finetuning/finetune.py:113-115 | what is left of the draws is exactly their tail slice of its length |
| Finetune.SweepBasin | experiment/finetuning/finetune.py:117-121 | the saved record holds fmin's best parameters and trials for the search space with the basin set, the base model, max_evals and the basin's fine-tuned run; it is pickled at make_unique of `<run_dir>/<basin>.pkl`, and the save writes nothing else |
| Finetune.SweepRound | experiment/finetuning/finetune.py:112-121 | one round's basin is new and is a row of the validation table as the round found it; its record holds the sweep for that basin, saved at `<basin>.pkl` or make_unique's variant of it; when the framework's calls keep pickles, the new sweep path holds the record and the earlier sweeps keep theirs |
| Finetune.FinetuneOnNBasins | experiment/finetuning/finetune.py:106-124 | a finished run returns n distinct basins and n sweeps in the directory make_unique gives for `sweeps/<model id>`; sweep i records basins[i] with that basin set in the search space, the base model, max_evals and its fine-tuned run, and is named `<basin>.pkl` or make_unique's variant of it; when the framework's calls keep pickles, each sweep path holds its record at the end |

## Left out

- File formats are left out: YAML, CSV, pickle and torch files and the tensorboard logs. Files hold typed contents, and a config is a map.
- Failures of the operating system are not modelled. This covers writes into a directory that does not exist and `os.mkdir` of a missing parent.
- Training, fine-tuning and evaluation runs (`start_run`, `finetune`, `eval_run`) belong to the framework. They are parameters with uninterpreted effects on the files.
- Checkpoint loading and model conversion are left out: `load_cuda_model`, `turn_cuda_into_custom`, the scaler and the dataset. The embedding network is a parameter, and the dataset's attributes are an input dict.
- KMeans (`cluster`) is left out: its fit, labels and inertia are parameters. So is the plotting in `investigate_clusters`.
- The hyperopt search (`fmin`, TPE) is a parameter returning the files it leaves, the best index dict and the trials.
- Pandas' mean and median are parameters. Floating-point rounding (`round(val, 3)`), NaN and the HTML display are not modelled. Metric values are reals.
- `datetime.now()` and the sampling seed are left out. They are replaced by the draw tape.
- The temporary YAML file finetune_model_from_cfg passes the config through is left out. The config goes to the framework directly.
- `collapse_test_period`, `load_all_caravan_basins`, `load_pkl`, `get_training_losses`, `TrainedModel.to_dict` and `TrainedModelID` are outside the modelled core. So are `experiment/finetuning/experiments.py` and the drivers `experiment/main.py`, `experiment/finetuning/main.py`, `experiment/train.py`, `examples/01-Introduction/introduction.py` and `experiment/static_attributes/attribute_tuning.py`.
- The `isinstance(model, TrainedModel)` assertion of evaluate_models holds by typing.
- FinetuneUtils.NewSweep: only string basin ids are modelled; a search-space basin that is not a string is a ValueError here, where Python would fail only later, when formatting it into paths.
- Finetune.FindBestFinetuningParams: the same restriction to string basin ids; its contract also does not state the files left by the final evaluation over all basins.
- FinetuneUtils.Sweep.constructor: the base and fine-tuned models are kept by their config paths, not as objects.
- Finetune.FinetuneOnNBasins: that the pickles of earlier rounds survive is stated only when the framework's `finetune`, `eval_run` and `fmin` keep pickles, since their effects on the files are otherwise unconstrained.
- Finetune.FinetuneOnNBasins: that each basin is a row of the validation metrics table is stated per round, on Finetune.SweepRound, against the files at the start of that round; the loop does not restate it for the final files, because the framework's calls may rewrite that table.
- Finetune.FinetuneOnNBasins: the search space is a value, so the mutation of the caller's `search_space` dict is not modelled; each round uses a copy with `basin` set, and since the pickles are taken at save time the saved records are the same. Termination of the resampling loop is not proved, because the source has no bound on it: the postcondition holds whenever the draws suffice.
- Evaluation.BenchmarkTable: the benchmark CSV is modelled with its `Metric` and `Benchmark` columns only.
- RunLayout.GetLosses: the regular-expression matching of each line is abstracted to its three captures (train loss, validation loss, epoch digits).
- Clustering.ClusterMembers: requires at least as many labels as keys, which KMeans guarantees; WriteClusters models the IndexError otherwise.
- Clustering.GenerateClustersInEmbeddingSpace: its contract names only the returned directory; the files it writes are stated by GetEmbeddings and WriteClusters, which it calls.
- FinetuneUtils.MakeUnique: requires a non-empty name; every caller passes a directory plus a file name.
- Evaluation.BoldBetter: the `<b>…</b>` text is a Bold cell, and the 3-decimal rounding is not applied.
- Finetune.UpdateFiles: a config file that does not hold a YAML mapping is treated as failing the parse, even where the appended line would make it parse (an empty text file, for instance); which texts parse is left with the YAML format.
