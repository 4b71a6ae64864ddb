/** The values the scripts keep on disk: configs, metric tables, cluster lists, embeddings and
    pickled sweeps, and the filesystem that holds them. */
module Store {
  import opened Paths

  /** A YAML / Python value found in a config dictionary. */
  datatype Value =
    | Str(s: string)
    | Int(i: int)
    | Real(r: real)
    | Bool(b: bool)
    | PathValue(p: Path)
    | List(items: seq<Value>)
    | Schedule(rates: map<int, real>)

  /** A run configuration (the dictionary behind a YAML file). */
  type Config = map<string, Value>

  /** One line of a per-basin metrics CSV: the basin id and one value per metric column. */
  datatype MetricsRow = MetricsRow(basin: string, values: seq<real>)

  /** A per-basin metrics CSV; `columns` are the metric columns, the `basin` column excluded. */
  datatype MetricsTable = MetricsTable(columns: seq<string>, rows: seq<MetricsRow>)

  function RowBasins(rows: seq<MetricsRow>): (r: seq<string>)
    ensures |r| == |rows| && forall i :: 0 <= i < |rows| ==> r[i] == rows[i].basin
  {
    seq(|rows|, i requires 0 <= i < |rows| => rows[i].basin)
  }

  /** `set(df.basin)`. */
  function BasinSet(rows: seq<MetricsRow>): set<string> {
    set i | 0 <= i < |rows| :: rows[i].basin
  }

  /** The index dictionary hyperopt's `fmin` returns for the fine-tuning search space:
      `epochs` as drawn (a float), the two learning rates, and the INDICES chosen
      for the `loss` and `lstm` choices. */
  datatype BestParams = BestParams(epochs: real, lr1: real, lr2: real, loss: int, lstm: int)

  /** hyperopt's trial history, reduced to the reported losses. */
  datatype Trials = Trials(losses: seq<real>)

  /** What unpickling a saved Sweep gives back. Models are recorded by their config path. */
  datatype SweepRecord = SweepRecord(
    bestParams: BestParams,
    baseModel: Path,
    finetunedModel: Path,
    basin: string,
    searchSpace: Config,
    maxEvals: int,
    trials: Trials)

  /** The content of one path in the filesystem. `BaseRunDirLine` is a file of another kind
      with a `base_run_dir: <path>` line appended to it. */
  datatype Content =
    | Directory
    | Yaml(cfg: Config)
    | Text(text: string)
    | Metrics(table: MetricsTable)
    | Benchmark(scores: seq<(string, real)>)
    | Embeddings(vectors: seq<(string, seq<real>)>)
    | Pickle(sweep: SweepRecord)
    | BaseRunDirLine(original: Content, baseRunDir: Path)

  /** A path whose name does not end in ".txt". */
  predicate NotText(p: Path) {
    |p| > 0 && !(|Name(p)| >= 4 && Name(p)[|Name(p)| - 4..] == ".txt")
  }

  /** A name whose last character is not 't' does not end in ".txt". */
  lemma NotTextByLastChar(p: Path)
    requires |p| > 0 && |Name(p)| > 0 && Name(p)[|Name(p)| - 1] != 't'
    ensures NotText(p)
  {
  }

  /** Every pickled sweep of `before` outside a ".txt" name is still in `after`, unchanged. */
  ghost predicate PicklesKept(before: map<Path, Content>, after: map<Path, Content>) {
    forall p :: p in before && before[p].Pickle? && NotText(p) ==> p in after && after[p] == before[p]
  }

  lemma PicklesKeptTrans(a: map<Path, Content>, b: map<Path, Content>, c: map<Path, Content>)
    requires PicklesKept(a, b) && PicklesKept(b, c)
    ensures PicklesKept(a, c)
  {
  }

  /** The filesystem: every existing path and what it holds. */
  class FileSystem {
    var files: map<Path, Content>

    constructor (initial: map<Path, Content>)
      ensures files == initial
    {
      files := initial;
    }

    /** Creates or overwrites one file (or directory). */
    method Write(p: Path, c: Content)
      modifies this
      ensures files == old(files)[p := c]
    {
      files := files[p := c];
    }
  }
}
