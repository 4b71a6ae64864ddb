/** Comparing trained models on their per-basin metrics (experiment/eval.py): which metric
    is better how, which cell to highlight, which basins to keep, and when to re-evaluate. */
module Evaluation {
  import opened Wrappers
  import opened Text
  import opened Paths
  import opened Store
  import opened Dicts
  import RunLayout

  // ---------------------------------------------------------------------------
  // Metric names and goals

  /** `re.sub(r' \((mean|median)\)', '', name)`: every occurrence of either marker goes,
      scanning left to right. */
  function StripAggregate(s: string): (r: string)
    ensures |r| <= |s|
  {
    if |s| == 0 then ""
    else if StartsWith(s, " (mean)") then StripAggregate(s[7..])
    else if StartsWith(s, " (median)") then StripAggregate(s[9..])
    else [s[0]] + StripAggregate(s[1..])
  }

  /** The two markers the row labels carry. */
  predicate IsAggregateSuffix(w: string) {
    w == " (mean)" || w == " (median)"
  }

  lemma SuffixShape(w: string)
    requires IsAggregateSuffix(w)
    ensures |w| >= 7 && w[0] == ' ' && forall k :: 1 <= k < |w| ==> w[k] != ' '
  {
  }

  /** A test on a long enough name is not affected by what is appended. */
  lemma StartsWithAppend(c: string, w: string, v: string)
    requires |v| <= |c|
    ensures StartsWith(c + w, v) <==> StartsWith(c, v)
  {
    assert (c + w)[..|v|] == c[..|v|];
  }

  /** A marker cannot begin inside a non-empty name and run into an appended marker. */
  lemma NoStraddle(c: string, w: string, v: string)
    requires c != [] && |c| < |v| && IsAggregateSuffix(w) && IsAggregateSuffix(v)
    ensures !StartsWith(c + w, v)
  {
    SuffixShape(v);
    var s := c + w;
    if |v| <= |s| {
      assert s[..|v|][|c|] == ' ';
      assert v[|c|] != ' ';
    }
  }

  /** Appending a marker to any name strips back to what the name strips to. */
  lemma {:induction false} StripAppendSuffix(c: string, w: string)
    requires IsAggregateSuffix(w)
    ensures StripAggregate(c + w) == StripAggregate(c)
  {
    if c == [] {
      assert c + w == w;
      StripMarker(w);
    } else {
      StripAppendStep(c, w);
      if StartsWith(c, " (mean)") {
        StripAppendSuffix(c[7..], w);
      } else if StartsWith(c, " (median)") {
        StripAppendSuffix(c[9..], w);
      } else {
        StripAppendSuffix(c[1..], w);
      }
    }
  }

  /** A marker on its own strips to nothing. */
  lemma StripMarker(w: string)
    requires IsAggregateSuffix(w)
    ensures StripAggregate(w) == ""
  {
    assert " (median)"[..7] != " (mean)" by { assert " (median)"[4] != " (mean)"[4]; }
    if w == " (mean)" { assert w[7..] == ""; } else { assert w[9..] == ""; }
  }

  /** Whether a non-empty name starts with a marker does not depend on an appended marker. */
  lemma MarkersUnaffected(c: string, w: string)
    requires c != [] && IsAggregateSuffix(w)
    ensures StartsWith(c + w, " (mean)") <==> StartsWith(c, " (mean)")
    ensures StartsWith(c + w, " (median)") <==> StartsWith(c, " (median)")
  {
    if |c| >= 7 { StartsWithAppend(c, w, " (mean)"); } else { NoStraddle(c, w, " (mean)"); }
    if |c| >= 9 { StartsWithAppend(c, w, " (median)"); } else { NoStraddle(c, w, " (median)"); }
  }

  /** One step of the scan over a non-empty name followed by a marker sees the name alone. */
  lemma StripAppendStep(c: string, w: string)
    requires c != [] && IsAggregateSuffix(w)
    ensures StripAggregate(c + w) ==
      if StartsWith(c, " (mean)") then StripAggregate(c[7..] + w)
      else if StartsWith(c, " (median)") then StripAggregate(c[9..] + w)
      else [c[0]] + StripAggregate(c[1..] + w)
  {
    var s := c + w;
    MarkersUnaffected(c, w);
    if StartsWith(c, " (mean)") {
      assert s[7..] == c[7..] + w;
    } else if StartsWith(c, " (median)") {
      assert s[9..] == c[9..] + w;
    } else {
      assert s[1..] == c[1..] + w;
    }
  }

  /** A name without '(' is left as it is. */
  lemma {:induction false} StripPlain(s: string)
    requires forall i :: 0 <= i < |s| ==> s[i] != '('
    ensures StripAggregate(s) == s
  {
    if s != [] {
      assert !StartsWith(s, " (mean)") by { if |s| >= 7 { assert s[1] != " (mean)"[1]; } }
      assert !StartsWith(s, " (median)") by { if |s| >= 9 { assert s[1] != " (median)"[1]; } }
      StripPlain(s[1..]);
    }
  }

  /** The fixed polarity table: the value that is best for each metric. */
  const MetricGoals: map<string, real> := map[
    "NSE" := 1.0, "KGE" := 1.0, "Alpha-NSE" := 1.0, "Beta-NSE" := 1.0,
    "MSE" := 0.0, "RMSE" := 0.0, "Pearson-r" := 1.0, "Beta-KGE" := 1.0,
    "FHV" := 0.0, "FMS" := 0.0, "FLV" := 0.0, "Peak-Timing" := 0.0,
    "Missed-Peaks" := 0.0, "Peak-MAPE" := 0.0]

  /** `metric_goals[stripped]`; an unknown metric is a KeyError. */
  function GoalOf(metric: string): (r: Result<real>)
    ensures r.Ok? <==> StripAggregate(metric) in MetricGoals
    ensures r.Ok? ==> r.value == MetricGoals[StripAggregate(metric)]
    ensures r.Err? ==> r.error.KeyError?
  {
    var name := StripAggregate(metric);
    if name in MetricGoals then Ok(MetricGoals[name]) else Err(KeyError(name))
  }

  /** Six metrics are maximised towards 1 and eight minimised towards 0. */
  lemma MetricPolarity()
    ensures forall m :: m in MetricGoals ==> MetricGoals[m] == 0.0 || MetricGoals[m] == 1.0
    ensures forall m :: m in MetricGoals && MetricGoals[m] == 1.0 <==>
      m in {"NSE", "KGE", "Alpha-NSE", "Beta-NSE", "Pearson-r", "Beta-KGE"}
    ensures forall m :: m in MetricGoals && MetricGoals[m] == 0.0 <==>
      m in {"MSE", "RMSE", "FHV", "FMS", "FLV", "Peak-Timing", "Missed-Peaks", "Peak-MAPE"}
  {
  }

  /** A label `"<m> (mean)"` or `"<m> (median)"` has the goal its metric name has. */
  lemma GoalOfLabels(m: string)
    ensures GoalOf(m + " (mean)") == GoalOf(m + " (median)") == GoalOf(m)
  {
    StripAppendSuffix(m, " (mean)");
    StripAppendSuffix(m, " (median)");
  }

  /** The names in the table are looked up as they are. */
  lemma GoalOfTableNames(m: string)
    requires m in MetricGoals
    ensures GoalOf(m) == Ok(MetricGoals[m])
  {
    assert forall i :: 0 <= i < |m| ==> m[i] != '(' by {
      if m == "NSE" {} else if m == "KGE" {} else if m == "Alpha-NSE" {} else if m == "Beta-NSE" {}
      else if m == "MSE" {} else if m == "RMSE" {} else if m == "Pearson-r" {} else if m == "Beta-KGE" {}
      else if m == "FHV" {} else if m == "FMS" {} else if m == "FLV" {} else if m == "Peak-Timing" {}
      else if m == "Missed-Peaks" {} else {}
    }
    StripPlain(m);
  }

  // ---------------------------------------------------------------------------
  // Highlighting the best model

  function Abs(x: real): real {
    if x < 0.0 then -x else x
  }

  /** `np.argmin`: the first index of a minimal element. */
  function ArgMin(d: seq<real>): (r: nat)
    requires |d| > 0
    ensures r < |d|
    ensures forall j :: 0 <= j < |d| ==> d[r] <= d[j]
    ensures forall j :: 0 <= j < r ==> d[r] < d[j]
  {
    if |d| == 1 then 0
    else
      var k := ArgMin(d[..|d| - 1]);
      if d[|d| - 1] < d[k] then |d| - 1 else k
  }

  /** `[abs(val - goal) for val in vals]`. */
  function Distances(vals: seq<real>, goal: real): (r: seq<real>)
    ensures |r| == |vals| && forall i :: 0 <= i < |vals| ==> r[i] == Abs(vals[i] - goal)
  {
    seq(|vals|, i requires 0 <= i < |vals| => Abs(vals[i] - goal))
  }

  /** b is the first index whose value is closest to the goal. */
  predicate FirstClosest(vals: seq<real>, goal: real, b: int) {
    && 0 <= b < |vals|
    && (forall j :: 0 <= j < |vals| ==> Abs(vals[b] - goal) <= Abs(vals[j] - goal))
    && (forall j :: 0 <= j < b ==> Abs(vals[b] - goal) < Abs(vals[j] - goal))
  }

  /** Only one index is the first closest. */
  lemma FirstClosestUnique(vals: seq<real>, goal: real, a: int, b: int)
    requires FirstClosest(vals, goal, a) && FirstClosest(vals, goal, b)
    ensures a == b
  {
    assert Abs(vals[a] - goal) <= Abs(vals[b] - goal);
    assert Abs(vals[b] - goal) <= Abs(vals[a] - goal);
  }

  /** A displayed cell: bold (`<b>v</b>`) or plain. Rounding to 3 decimals is not modelled. */
  datatype Cell = Plain(v: real) | Bold(v: real)

  /** bold_better for one row: the metric label and the model values in column order. */
  function BoldBetter(metric: string, vals: seq<real>): (r: Result<seq<Cell>>)
    ensures r.Ok? <==> GoalOf(metric).Ok? && |vals| > 0
    ensures r.Ok? ==> |r.value| == |vals| && forall i :: 0 <= i < |vals| ==> r.value[i].v == vals[i]
    ensures r.Ok? ==> forall i :: 0 <= i < |vals| ==>
      (r.value[i].Bold? <==> FirstClosest(vals, GoalOf(metric).value, i))
  {
    var goal :- GoalOf(metric);
    if |vals| == 0 then Err(ValueError("attempt to get argmin of an empty sequence"))
    else
      var best := ArgMin(Distances(vals, goal));
      var r := seq(|vals|, i requires 0 <= i < |vals| => if i == best then Bold(vals[i]) else Plain(vals[i]));
      assert forall i :: 0 <= i < |vals| ==> (FirstClosest(vals, goal, i) <==> i == best) by {
        forall i | 0 <= i < |vals| && FirstClosest(vals, goal, i) ensures i == best {
          FirstClosestUnique(vals, goal, i, best);
        }
      }
      Ok(r)
  }

  /** The highlighted row has exactly one bold cell. */
  lemma ExactlyOneBold(metric: string, vals: seq<real>)
    requires BoldBetter(metric, vals).Ok?
    ensures var cells := BoldBetter(metric, vals).value;
      |set i | 0 <= i < |cells| && cells[i].Bold?| == 1
  {
    var cells := BoldBetter(metric, vals).value;
    var goal := GoalOf(metric).value;
    var best := ArgMin(Distances(vals, goal));
    assert FirstClosest(vals, goal, best);
    var bold := set i | 0 <= i < |cells| && cells[i].Bold?;
    forall i | i in bold ensures i == best {
      FirstClosestUnique(vals, goal, i, best);
    }
    assert bold == {best};
  }

  // ---------------------------------------------------------------------------
  // Row labels

  /** The labels of the aggregated rows: every column's mean, then every column's median. */
  function AggregateLabels(columns: seq<string>): (r: seq<string>)
    ensures |r| == 2 * |columns|
    ensures forall i :: 0 <= i < |columns| ==>
      r[i] == columns[i] + " (mean)" && r[|columns| + i] == columns[i] + " (median)"
  {
    seq(|columns|, i requires 0 <= i < |columns| => columns[i] + " (mean)")
    + seq(|columns|, i requires 0 <= i < |columns| => columns[i] + " (median)")
  }

  /** Every label strips back to the column it came from, so it has that column's goal. */
  lemma LabelsStripBack(columns: seq<string>, i: nat)
    requires i < 2 * |columns|
    ensures StripAggregate(AggregateLabels(columns)[i]) == StripAggregate(columns[i % |columns|])
    ensures GoalOf(AggregateLabels(columns)[i]) == GoalOf(columns[i % |columns|])
  {
    var n := |columns|;
    var j := if i < n then i else i - n;
    ModOfTwoRounds(i, n);
    if i < n {
      StripAppendSuffix(columns[j], " (mean)");
    } else {
      StripAppendSuffix(columns[j], " (median)");
    }
    SameNameSameGoal(AggregateLabels(columns)[i], columns[j]);
  }

  lemma ModOfTwoRounds(i: nat, n: nat)
    requires i < 2 * n
    ensures i % n == if i < n then i else i - n
  {
  }

  /** Labels that strip to the same name have the same goal. */
  lemma SameNameSameGoal(a: string, b: string)
    requires StripAggregate(a) == StripAggregate(b)
    ensures GoalOf(a) == GoalOf(b)
  {
  }

  predicate Distinct<T(==)>(s: seq<T>) {
    forall i, j :: 0 <= i < j < |s| ==> s[i] != s[j]
  }

  /** A mean label is never a median label. */
  lemma MeanIsNotMedian(a: string, b: string)
    ensures a + " (mean)" != b + " (median)"
  {
    var x, y := a + " (mean)", b + " (median)";
    assert x[|x| - 5] == 'm' && y[|y| - 5] == 'd';
  }

  lemma SuffixCancels(a: string, b: string, w: string)
    requires a + w == b + w
    ensures a == b
  {
    assert a == (a + w)[..|a|] && b == (b + w)[..|b|];
  }

  /** Distinct columns give distinct labels. */
  lemma LabelsDistinct(columns: seq<string>)
    requires Distinct(columns)
    ensures Distinct(AggregateLabels(columns))
  {
    var n := |columns|;
    var r := AggregateLabels(columns);
    forall i, j | 0 <= i < j < |r| ensures r[i] != r[j] {
      if j < n {
        if r[i] == r[j] { SuffixCancels(columns[i], columns[j], " (mean)"); }
      } else if i >= n {
        if r[i] == r[j] { SuffixCancels(columns[i - n], columns[j - n], " (median)"); }
      } else {
        MeanIsNotMedian(columns[i], columns[j - n]);
      }
    }
  }

  // ---------------------------------------------------------------------------
  // Basin filter and the re-evaluation decision

  function ToSet<T>(s: seq<T>): set<T> {
    set x | x in s
  }

  lemma BasinSetCons(rows: seq<MetricsRow>)
    requires |rows| > 0
    ensures BasinSet(rows) == {rows[0].basin} + BasinSet(rows[1..])
  {
    forall b | b in BasinSet(rows) ensures b in {rows[0].basin} + BasinSet(rows[1..]) {
      var i :| 0 <= i < |rows| && rows[i].basin == b;
      if i > 0 { assert rows[1..][i - 1] == rows[i]; }
    }
    forall b | b in BasinSet(rows[1..]) ensures b in BasinSet(rows) {
      var i :| 0 <= i < |rows[1..]| && rows[1..][i].basin == b;
      assert rows[i + 1] == rows[1..][i];
    }
  }

  /** `df[df.basin.isin(basins)]`, keeping the table's row order. */
  function FilterRows(rows: seq<MetricsRow>, basins: seq<string>): (r: seq<MetricsRow>)
    ensures |r| <= |rows|
    ensures BasinSet(r) == BasinSet(rows) * ToSet(basins)
    ensures forall i :: 0 <= i < |r| ==> r[i] in rows && r[i].basin in basins
  {
    if rows == [] then []
    else
      var rest := FilterRows(rows[1..], basins);
      BasinSetCons(rows);
      if rows[0].basin in basins then
        var r := [rows[0]] + rest;
        BasinSetCons(r);
        assert r[1..] == rest;
        r
      else rest
  }

  /** The basin filter and the two consistency assertions of evalute_model_csvs. */
  function FilterBasins(table: MetricsTable, basins: seq<string>): (r: Result<MetricsTable>)
    ensures r.Ok? <==>
      if |basins| > 0 then ToSet(basins) <= BasinSet(table.rows)
      else |table.rows| == 0 || |table.rows| == RunLayout.NUM_BASINS
    ensures r.Err? ==> r.error.AssertionError?
    ensures r.Ok? ==> r.value.columns == table.columns
    ensures r.Ok? && |basins| > 0 ==>
      r.value.rows == FilterRows(table.rows, basins) && BasinSet(r.value.rows) == ToSet(basins)
    ensures r.Ok? && |basins| == 0 ==> r.value == table
  {
    var rows := if |basins| > 0 then FilterRows(table.rows, basins) else table.rows;
    if |basins| > 0 && |rows| == 0 then
      assert basins[0] in ToSet(basins) && BasinSet(rows) == {};
      assert basins[0] !in BasinSet(table.rows) * ToSet(basins);
      Err(AssertionError("wrong basin!"))
    else if ToSet(basins) == BasinSet(rows)
            || (|basins| == 0 && |rows| == RunLayout.NUM_BASINS) then
      Ok(MetricsTable(table.columns, rows))
    else
      assert |basins| == 0 ==> |rows| > 0 ==> rows[0].basin in BasinSet(rows);
      Err(AssertionError("All basins are not in dataframe, or vice versa."))
  }

  /** Reading a metrics CSV: a missing file or anything but a rectangular table fails. */
  function ReadMetrics(files: map<Path, Content>, p: Path): (r: Result<MetricsTable>)
    ensures r.Ok? <==> p in files && files[p].Metrics? && WellFormed(files[p].table)
    ensures r.Ok? ==> r.value == files[p].table
  {
    if p !in files then Err(FileNotFound(p))
    else if !files[p].Metrics? || !WellFormed(files[p].table) then Err(ValueError("not a metrics table"))
    else Ok(files[p].table)
  }

  /** Every row has one value per metric column. */
  predicate WellFormed(t: MetricsTable) {
    forall i :: 0 <= i < |t.rows| ==> |t.rows[i].values| == |t.columns|
  }

  /** evaluate_models' test: evaluate again unless a previous metrics file exists, is not to
      be ignored, covers the requested basins, and has every basin when none are requested. */
  function NeedsEvaluation(files: map<Path, Content>, metricsFile: Path, ignorePrevious: bool, basins: seq<string>)
    : (r: Result<bool>)
    ensures metricsFile !in files || ignorePrevious ==> r == Ok(true)
    ensures r.Err? ==> metricsFile in files && !ignorePrevious && ReadMetrics(files, metricsFile).Err?
    ensures r == Ok(false) <==>
      && metricsFile in files && !ignorePrevious && ReadMetrics(files, metricsFile).Ok?
      && ToSet(basins) <= BasinSet(files[metricsFile].table.rows)
      && (|basins| > 0 || |files[metricsFile].table.rows| == RunLayout.NUM_BASINS)
  {
    if metricsFile !in files || ignorePrevious then Ok(true)
    else
      var t :- ReadMetrics(files, metricsFile);
      Ok(!(ToSet(basins) <= BasinSet(t.rows)) || (|t.rows| != RunLayout.NUM_BASINS && |basins| == 0))
  }

  /** Reusing a metrics file is safe: when no re-evaluation is triggered, the later basin
      filter succeeds on that file; and for a non-empty file the filter succeeding is
      exactly the case in which no re-evaluation is triggered. */
  lemma ReuseMatchesFilter(files: map<Path, Content>, metricsFile: Path, basins: seq<string>)
    requires ReadMetrics(files, metricsFile).Ok?
    ensures var t := files[metricsFile].table;
      && (NeedsEvaluation(files, metricsFile, false, basins) == Ok(false) ==> FilterBasins(t, basins).Ok?)
      && (|t.rows| > 0 ==>
            (NeedsEvaluation(files, metricsFile, false, basins) == Ok(false) <==> FilterBasins(t, basins).Ok?))
  {
  }

  // ---------------------------------------------------------------------------
  // One model's summary: the mean and median of every metric column

  /** Pandas' column mean and median, which are floating-point library code. */
  datatype Aggregator = Aggregator(mean: seq<real> -> real, median: seq<real> -> real)

  /** The values of metric column j, in row order. */
  function Column(rows: seq<MetricsRow>, j: nat): (r: seq<real>)
    requires forall i :: 0 <= i < |rows| ==> j < |rows[i].values|
    ensures |r| == |rows| && forall i :: 0 <= i < |rows| ==> r[i] == rows[i].values[j]
  {
    seq(|rows|, i requires 0 <= i < |rows| => rows[i].values[j])
  }

  /** A row of the comparison table: a metric label and one value per model column. */
  datatype ComparisonRow = ComparisonRow(metric: string, values: seq<real>)

  /** The comparison table: the model columns after `Metric`, and the rows. */
  datatype Comparison = Comparison(models: seq<string>, rows: seq<ComparisonRow>)

  function Metrics(rows: seq<ComparisonRow>): (r: seq<string>)
    ensures |r| == |rows| && forall i :: 0 <= i < |rows| ==> r[i] == rows[i].metric
  {
    seq(|rows|, i requires 0 <= i < |rows| => rows[i].metric)
  }

  /** `eval_df`: the means under the mean labels, then the medians under the median labels,
      all in one column named after the model. */
  function Summary(model: string, t: MetricsTable, agg: Aggregator): (r: Comparison)
    requires WellFormed(t)
    ensures r.models == [model]
    ensures Metrics(r.rows) == AggregateLabels(t.columns)
    ensures forall i :: 0 <= i < |t.columns| ==>
      && r.rows[i].values == [agg.mean(Column(t.rows, i))]
      && r.rows[|t.columns| + i].values == [agg.median(Column(t.rows, i))]
  {
    var n := |t.columns|;
    var labels := AggregateLabels(t.columns);
    var rows := seq(2 * n, i requires 0 <= i < 2 * n =>
      ComparisonRow(labels[i],
        if i < n then [agg.mean(Column(t.rows, i))] else [agg.median(Column(t.rows, i - n))]));
    Comparison([model], rows)
  }

  /** Filtering keeps one value per column in every row. */
  lemma FilterKeepsWellFormed(t: MetricsTable, basins: seq<string>)
    requires WellFormed(t) && FilterBasins(t, basins).Ok?
    ensures WellFormed(FilterBasins(t, basins).value)
  {
    var f := FilterBasins(t, basins).value;
    forall i | 0 <= i < |f.rows| ensures |f.rows[i].values| == |f.columns| {
      if |basins| > 0 {
        var k :| 0 <= k < |t.rows| && t.rows[k] == f.rows[i];
      }
    }
  }

  /** The body of evalute_model_csvs' loop for one model, up to the merge. */
  function ModelSummary(files: map<Path, Content>, model: string, evalFile: Path, basins: seq<string>,
                        agg: Aggregator): (r: Result<Comparison>)
    ensures evalFile !in files ==> r.Err? && r.error.AssertionError?
    ensures r.Ok? <==>
      && ReadMetrics(files, evalFile).Ok?
      && FilterBasins(files[evalFile].table, basins).Ok?
    ensures r.Ok? ==>
      && r.value.models == [model]
      && Metrics(r.value.rows) == AggregateLabels(files[evalFile].table.columns)
  {
    if evalFile !in files then
      Err(AssertionError("Metric eval file does not exist. Did you run the eval script yet?"))
    else
      var t :- ReadMetrics(files, evalFile);
      var f :- FilterBasins(t, basins);
      FilterKeepsWellFormed(t, basins);
      Ok(Summary(model, f, agg))
  }

  // ---------------------------------------------------------------------------
  // Merging on the Metric column

  /** The rows of `right` that share `row`'s metric, each joined onto `row`. */
  function Matches(row: ComparisonRow, right: seq<ComparisonRow>): (r: seq<ComparisonRow>)
    ensures |r| <= |right|
    ensures forall i :: 0 <= i < |r| ==> r[i].metric == row.metric
    ensures row.metric !in Metrics(right) ==> r == []
  {
    if right == [] then []
    else
      var rest := Matches(row, right[1..]);
      assert Metrics(right[1..]) == Metrics(right)[1..];
      if right[0].metric == row.metric then [ComparisonRow(row.metric, row.values + right[0].values)] + rest
      else rest
  }

  /** `pd.merge(left, right, on='Metric')`: an inner join that keeps the left table's order. */
  function MergeRows(left: seq<ComparisonRow>, right: seq<ComparisonRow>): (r: seq<ComparisonRow>)
    ensures forall i :: 0 <= i < |r| ==> r[i].metric in Metrics(left) && r[i].metric in Metrics(right)
  {
    if left == [] then []
    else
      var m := Matches(left[0], right);
      var rest := MergeRows(left[1..], right);
      assert Metrics(left[1..]) == Metrics(left)[1..];
      m + rest
  }

  function Merge(left: Comparison, right: Comparison): Comparison {
    Comparison(left.models + right.models, MergeRows(left.rows, right.rows))
  }

  /** A metric found once on the right joins exactly one row. */
  lemma {:induction false} MatchOnce(row: ComparisonRow, right: seq<ComparisonRow>)
    requires Distinct(Metrics(right)) && row.metric in Metrics(right)
    ensures var k := IndexIn(Metrics(right), row.metric);
      Matches(row, right) == [ComparisonRow(row.metric, row.values + right[k].values)]
  {
    assert Metrics(right[1..]) == Metrics(right)[1..];
    if right[0].metric != row.metric {
      MatchOnce(row, right[1..]);
    } else {
      assert row.metric !in Metrics(right[1..]);
    }
  }

  /** Joining on a right table with distinct metrics that covers every left metric keeps
      the left rows, in order, each extended by its partner's values. */
  lemma {:induction false} MergeCovered(left: seq<ComparisonRow>, right: seq<ComparisonRow>)
    requires Distinct(Metrics(right))
    requires forall i :: 0 <= i < |left| ==> left[i].metric in Metrics(right)
    ensures |MergeRows(left, right)| == |left|
    ensures Metrics(MergeRows(left, right)) == Metrics(left)
    ensures forall i :: 0 <= i < |left| ==>
      MergeRows(left, right)[i].values
        == left[i].values + right[IndexIn(Metrics(right), left[i].metric)].values
  {
    MergeJoined(left, right);
    assert Metrics(Joined(left, right)) == Metrics(left);
  }

  /** Each left row extended by the values of its partner on the right. */
  function Joined(left: seq<ComparisonRow>, right: seq<ComparisonRow>): (r: seq<ComparisonRow>)
    requires forall i :: 0 <= i < |left| ==> left[i].metric in Metrics(right)
    ensures |r| == |left|
    ensures forall i :: 0 <= i < |left| ==>
      r[i] == ComparisonRow(left[i].metric, left[i].values + right[IndexIn(Metrics(right), left[i].metric)].values)
  {
    seq(|left|, i requires 0 <= i < |left| =>
      ComparisonRow(left[i].metric, left[i].values + right[IndexIn(Metrics(right), left[i].metric)].values))
  }

  lemma {:induction false} MergeJoined(left: seq<ComparisonRow>, right: seq<ComparisonRow>)
    requires Distinct(Metrics(right))
    requires forall i :: 0 <= i < |left| ==> left[i].metric in Metrics(right)
    ensures MergeRows(left, right) == Joined(left, right)
  {
    if left != [] {
      MatchOnce(left[0], right);
      MergeJoined(left[1..], right);
      JoinedCons(left, right);
    }
  }

  lemma JoinedCons(left: seq<ComparisonRow>, right: seq<ComparisonRow>)
    requires left != [] && forall i :: 0 <= i < |left| ==> left[i].metric in Metrics(right)
    ensures Joined(left, right)
         == [ComparisonRow(left[0].metric, left[0].values + right[IndexIn(Metrics(right), left[0].metric)].values)]
            + Joined(left[1..], right)
  {
    assert Joined(left, right) == Joined(left, right)[..1] + Joined(left[1..], right);
  }

  /** `if comparison_df.empty` at the top of the loop: no table yet, or a table with no rows
      left, is replaced by the new summary; otherwise the summary is merged in. */
  function Accumulate(acc: Option<Comparison>, summary: Comparison): Comparison {
    if acc.None? || |acc.value.rows| == 0 then summary else Merge(acc.value, summary)
  }

  /** The comparison built from the first |evalFiles| entries of the dict. Its model columns
      are a non-empty tail of the dict's keys: the models from the last replacement on. */
  function CompareFold(evalFiles: Dict<string, Path>, basins: seq<string>, files: map<Path, Content>,
                       agg: Aggregator): (r: Result<Option<Comparison>>)
    ensures r.Ok? ==> (r.value.None? <==> evalFiles == [])
    ensures r.Ok? && evalFiles != [] ==> IsTail(r.value.value.models, Keys(evalFiles))
  {
    if evalFiles == [] then Ok(None)
    else
      var prefix := evalFiles[..|evalFiles| - 1];
      var (model, evalFile) := evalFiles[|evalFiles| - 1];
      var acc :- CompareFold(prefix, basins, files, agg);
      var summary :- ModelSummary(files, model, evalFile, basins, agg);
      AccumulateTail(acc, summary, evalFiles);
      Ok(Some(Accumulate(acc, summary)))
  }

  /** Once a model's file fails, the whole comparison fails with that error. */
  lemma {:induction false} CompareFoldErrSticks(evalFiles: Dict<string, Path>, k: nat, basins: seq<string>,
                                                files: map<Path, Content>, agg: Aggregator)
    requires k <= |evalFiles| && CompareFold(evalFiles[..k], basins, files, agg).Err?
    ensures CompareFold(evalFiles, basins, files, agg) == CompareFold(evalFiles[..k], basins, files, agg)
    decreases |evalFiles| - k
  {
    if k < |evalFiles| {
      var next := evalFiles[..k + 1];
      assert next[..|next| - 1] == evalFiles[..k];
      CompareFoldErrStep(next, basins, files, agg);
      CompareFoldErrSticks(evalFiles, k + 1, basins, files, agg);
    } else {
      assert evalFiles[..k] == evalFiles;
    }
  }

  /** A fold whose prefix fails fails the same way. */
  lemma CompareFoldErrStep(evalFiles: Dict<string, Path>, basins: seq<string>, files: map<Path, Content>,
                           agg: Aggregator)
    requires evalFiles != [] && CompareFold(evalFiles[..|evalFiles| - 1], basins, files, agg).Err?
    ensures CompareFold(evalFiles, basins, files, agg) == CompareFold(evalFiles[..|evalFiles| - 1], basins, files, agg)
  {
  }

  /** a is a non-empty tail of b. */
  predicate IsTail(a: seq<string>, b: seq<string>) {
    0 < |a| <= |b| && b[|b| - |a|..] == a
  }

  /** Accumulating a one-model summary keeps the model columns a tail of the keys. */
  lemma AccumulateTail(acc: Option<Comparison>, summary: Comparison, evalFiles: Dict<string, Path>)
    requires evalFiles != [] && summary.models == [evalFiles[|evalFiles| - 1].0]
    requires acc.Some? && |acc.value.rows| > 0 ==> IsTail(acc.value.models, Keys(evalFiles[..|evalFiles| - 1]))
    ensures IsTail(Accumulate(acc, summary).models, Keys(evalFiles))
  {
    var prefix := evalFiles[..|evalFiles| - 1];
    var m := evalFiles[|evalFiles| - 1].0;
    KeysAppend(prefix, evalFiles[|evalFiles| - 1]);
    assert prefix + [evalFiles[|evalFiles| - 1]] == evalFiles;
    TailSnoc(acc, summary, Keys(prefix), m);
  }

  lemma TailSnoc(acc: Option<Comparison>, summary: Comparison, keys: seq<string>, m: string)
    requires summary.models == [m]
    requires acc.Some? && |acc.value.rows| > 0 ==> IsTail(acc.value.models, keys)
    ensures IsTail(Accumulate(acc, summary).models, keys + [m])
  {
    var all := keys + [m];
    if acc.Some? && |acc.value.rows| > 0 {
      var a := acc.value.models;
      assert all[|all| - |a + [m]|..] == all[|keys| - |a|..];
      assert all[|keys| - |a|..] == keys[|keys| - |a|..] + [m];
    } else {
      assert all[|all| - 1..] == [m];
    }
  }

  // ---------------------------------------------------------------------------
  // Benchmark, highlighting and the whole of evalute_model_csvs

  /** A row of the returned table: plain numbers, or the output of bold_better. */
  datatype ShownRow = ShownRow(metric: string, cells: seq<Cell>)
  datatype Shown = Shown(models: seq<string>, rows: seq<ShownRow>)

  function BenchmarkFile(moduleDir: Path): Path {
    moduleDir + ["assets", "benchmark.csv"]
  }

  /** The benchmark CSV as a one-column comparison table named `Benchmark`. */
  function BenchmarkTable(scores: seq<(string, real)>): (r: Comparison)
    ensures r.models == ["Benchmark"] && |r.rows| == |scores|
    ensures forall i :: 0 <= i < |scores| ==> r.rows[i] == ComparisonRow(scores[i].0, [scores[i].1])
  {
    Comparison(["Benchmark"], seq(|scores|, i requires 0 <= i < |scores| =>
      ComparisonRow(scores[i].0, [scores[i].1])))
  }

  /** The `include_benchmark` step: the benchmark file is read first, so a missing one fails
      to open whatever the models gave; then merging on a missing table fails on `Metric`. */
  function WithBenchmark(acc: Option<Comparison>, files: map<Path, Content>, moduleDir: Path)
    : (r: Result<Comparison>)
    ensures !(BenchmarkFile(moduleDir) in files && files[BenchmarkFile(moduleDir)].Benchmark?)
      ==> r == Err(FileNotFound(BenchmarkFile(moduleDir)))
    ensures acc.None? && BenchmarkFile(moduleDir) in files && files[BenchmarkFile(moduleDir)].Benchmark?
      ==> r == Err(KeyError("Metric"))
    ensures r.Ok? ==> acc.Some? && r.value.models == acc.value.models + ["Benchmark"]
  {
    var p := BenchmarkFile(moduleDir);
    if p !in files || !files[p].Benchmark? then Err(FileNotFound(p))
    else if acc.None? then Err(KeyError("Metric"))
    else Ok(Merge(acc.value, BenchmarkTable(files[p].scores)))
  }

  function PlainRows(rows: seq<ComparisonRow>): (r: seq<ShownRow>)
    ensures |r| == |rows| && forall i :: 0 <= i < |rows| ==>
      r[i].metric == rows[i].metric && |r[i].cells| == |rows[i].values| &&
      forall j :: 0 <= j < |rows[i].values| ==> r[i].cells[j] == Plain(rows[i].values[j])
  {
    seq(|rows|, i requires 0 <= i < |rows| =>
      ShownRow(rows[i].metric, seq(|rows[i].values|, j requires 0 <= j < |rows[i].values| => Plain(rows[i].values[j]))))
  }

  /** `comparison_df.apply(bold_better, axis=1)`: every row highlighted, or the first failure. */
  function BoldRows(rows: seq<ComparisonRow>): (r: Result<seq<ShownRow>>)
    ensures r.Ok? <==> forall i :: 0 <= i < |rows| ==> BoldBetter(rows[i].metric, rows[i].values).Ok?
    ensures r.Ok? ==> |r.value| == |rows| && forall i :: 0 <= i < |rows| ==>
      r.value[i] == ShownRow(rows[i].metric, BoldBetter(rows[i].metric, rows[i].values).value)
  {
    if rows == [] then Ok([])
    else
      var first :- BoldBetter(rows[0].metric, rows[0].values);
      var rest :- BoldRows(rows[1..]);
      assert forall i :: 1 <= i < |rows| ==> rows[i] == rows[1..][i - 1];
      Ok([ShownRow(rows[0].metric, first)] + rest)
  }

  /** How many columns `comparison_df.apply(bold_better, axis=1, result_type='expand')` has:
      one per value column when there are rows. A table without rows comes back as a copy of
      itself, `Metric` column included, and the bare `DataFrame()` has no column at all. */
  function ExpandedWidth(bare: bool, c: Comparison): (n: nat)
    ensures !bare && |c.rows| > 0 ==> n == |c.models|
    ensures !bare && |c.rows| == 0 ==> n == |c.models| + 1
  {
    if bare then 0 else if |c.rows| > 0 then |c.models| else 1 + |c.models|
  }

  /** The keys `df[keys] = ...` adds as new columns: those not among the present ones, in order. */
  function AddedColumns(keys: seq<string>, present: seq<string>): (r: seq<string>)
    ensures forall k :: k in r <==> k in keys && k !in present
  {
    if keys == [] then []
    else (if keys[0] in present then [] else [keys[0]]) + AddedColumns(keys[1..], present)
  }

  /** The table before highlighting: the benchmark column added when asked for, and an empty
      table when no model was summarised. */
  function Expanded(acc: Option<Comparison>, includeBenchmark: bool, files: map<Path, Content>,
                    moduleDir: Path): Result<Comparison>
  {
    if includeBenchmark then WithBenchmark(acc, files, moduleDir)
    else Ok(if acc.None? then Comparison([], []) else acc.value)
  }

  /** Highlighting succeeds only after bold_better succeeded on every expanded row. */
  lemma FinishBolded(acc: Option<Comparison>, modelKeys: seq<string>, includeBenchmark: bool,
                     files: map<Path, Content>, moduleDir: Path)
    requires Finish(acc, modelKeys, includeBenchmark, true, files, moduleDir).Ok?
    ensures var c := Expanded(acc, includeBenchmark, files, moduleDir);
      && c.Ok? && BoldRows(c.value.rows).Ok?
      && Finish(acc, modelKeys, includeBenchmark, true, files, moduleDir).value.rows == BoldRows(c.value.rows).value
  {
  }

  /** What evalute_model_csvs does after its loop. When highlighting, bold_better is applied
      to every row first, and its result is then assigned to the dict's keys (plus
      `Benchmark`), which fails unless there are exactly as many keys as expanded columns. */
  function Finish(acc: Option<Comparison>, modelKeys: seq<string>, includeBenchmark: bool, bolden: bool,
                  files: map<Path, Content>, moduleDir: Path): (r: Result<Shown>)
  {
    var c :- Expanded(acc, includeBenchmark, files, moduleDir);
    if !bolden then Ok(Shown(c.models, PlainRows(c.rows)))
    else
      var rows :- BoldRows(c.rows);
      var keys := modelKeys + (if includeBenchmark then ["Benchmark"] else []);
      if |keys| != ExpandedWidth(acc.None?, c) then Err(ValueError("Columns must be same length as key"))
      else Ok(Shown(c.models + AddedColumns(keys, c.models), rows))
  }

  /** The function evalute_model_csvs computes. */
  function ComparisonOf(evalFiles: Dict<string, Path>, basins: seq<string>, includeBenchmark: bool,
                        bolden: bool, files: map<Path, Content>, moduleDir: Path, agg: Aggregator)
    : Result<Shown>
  {
    var acc :- CompareFold(evalFiles, basins, files, agg);
    Finish(acc, Keys(evalFiles), includeBenchmark, bolden, files, moduleDir)
  }

  /** evalute_model_csvs: accumulate the per-model summaries over the dict, then add the
      benchmark and highlight. */
  method EvaluteModelCsvs(evalFiles: Dict<string, Path>, basins: seq<string>, includeBenchmark: bool,
                          bolden: bool, files: map<Path, Content>, moduleDir: Path, agg: Aggregator)
    returns (r: Result<Shown>)
    ensures r == ComparisonOf(evalFiles, basins, includeBenchmark, bolden, files, moduleDir, agg)
  {
    var comparison: Option<Comparison> := None;
    var i := 0;
    while i < |evalFiles|
      invariant 0 <= i <= |evalFiles|
      invariant CompareFold(evalFiles[..i], basins, files, agg) == Ok(comparison)
    {
      var (model, evalFile) := evalFiles[i];
      CompareFoldUnfold(evalFiles, i, basins, files, agg);
      var summary := ModelSummary(files, model, evalFile, basins, agg);
      if summary.Err? {
        CompareFoldErrSticks(evalFiles, i + 1, basins, files, agg);
        return Err(summary.error);
      }
      ghost var next := Accumulate(comparison, summary.value);
      if comparison.None? || |comparison.value.rows| == 0 {
        comparison := Some(summary.value);
      } else {
        comparison := Some(Merge(comparison.value, summary.value));
      }
      assert comparison == Some(next);
      i := i + 1;
    }
    assert evalFiles[..i] == evalFiles;
    r := Finish(comparison, Keys(evalFiles), includeBenchmark, bolden, files, moduleDir);
  }

  /** The fold over one more entry: that model's summary, accumulated, or its error. */
  lemma CompareFoldUnfold(evalFiles: Dict<string, Path>, i: nat, basins: seq<string>,
                          files: map<Path, Content>, agg: Aggregator)
    requires i < |evalFiles| && CompareFold(evalFiles[..i], basins, files, agg).Ok?
    ensures var s := ModelSummary(files, evalFiles[i].0, evalFiles[i].1, basins, agg);
      && (s.Err? ==> CompareFold(evalFiles[..i + 1], basins, files, agg) == Err(s.error))
      && (s.Ok? ==> CompareFold(evalFiles[..i + 1], basins, files, agg)
                    == Ok(Some(Accumulate(CompareFold(evalFiles[..i], basins, files, agg).value, s.value))))
  {
    assert evalFiles[..i + 1][..i] == evalFiles[..i];
    assert evalFiles[..i + 1][i] == evalFiles[i];
  }

  /** A model whose metrics file is missing makes the whole comparison fail. */
  lemma MissingEvalFileFails(evalFiles: Dict<string, Path>, i: nat, basins: seq<string>, includeBenchmark: bool,
                             bolden: bool, files: map<Path, Content>, moduleDir: Path, agg: Aggregator)
    requires i < |evalFiles| && evalFiles[i].1 !in files
    ensures ComparisonOf(evalFiles, basins, includeBenchmark, bolden, files, moduleDir, agg).Err?
  {
    var prefix := evalFiles[..i + 1];
    assert prefix[..i] == evalFiles[..i];
    assert CompareFold(prefix, basins, files, agg).Err?;
    CompareFoldErrSticks(evalFiles, i + 1, basins, files, agg);
  }

  /** Every listed file is a readable metrics table that passes the basin filter and has
      the given metric columns. */
  predicate Comparable(evalFiles: Dict<string, Path>, basins: seq<string>, files: map<Path, Content>,
                       columns: seq<string>) {
    forall i :: 0 <= i < |evalFiles| ==>
      && ReadMetrics(files, evalFiles[i].1).Ok?
      && FilterBasins(files[evalFiles[i].1].table, basins).Ok?
      && files[evalFiles[i].1].table.columns == columns
  }

  /** When every model's table has the same distinct, non-empty metric columns, no merge
      loses a row: the comparison has one column per model, in dict order, and exactly the
      mean and median labels of those columns, in order. */
  lemma {:induction false} SameColumnsCompare(evalFiles: Dict<string, Path>, basins: seq<string>,
                                              files: map<Path, Content>, agg: Aggregator, columns: seq<string>)
    requires evalFiles != [] && |columns| > 0 && Distinct(columns)
    requires Comparable(evalFiles, basins, files, columns)
    ensures CompareFold(evalFiles, basins, files, agg).Ok?
    ensures var c := CompareFold(evalFiles, basins, files, agg).value.value;
      c.models == Keys(evalFiles) && Metrics(c.rows) == AggregateLabels(columns)
  {
    var n := |evalFiles|;
    var prefix := evalFiles[..n - 1];
    var (model, evalFile) := evalFiles[n - 1];
    var summary := ModelSummary(files, model, evalFile, basins, agg);
    assert summary.Ok? && Metrics(summary.value.rows) == AggregateLabels(columns);
    assert Keys(evalFiles) == Keys(prefix) + [model];
    if n > 1 {
      assert Comparable(prefix, basins, files, columns) by {
        forall i | 0 <= i < |prefix| ensures prefix[i] == evalFiles[i] { }
      }
      SameColumnsCompare(prefix, basins, files, agg, columns);
      var acc := CompareFold(prefix, basins, files, agg).value.value;
      assert |acc.rows| == 2 * |columns| > 0;
      LabelsDistinct(columns);
      MergeCovered(acc.rows, summary.value.rows);
    }
  }

  function CellValues(cells: seq<Cell>): (r: seq<real>)
    ensures |r| == |cells| && forall j :: 0 <= j < |cells| ==> r[j] == cells[j].v
  {
    seq(|cells|, j requires 0 <= j < |cells| => cells[j].v)
  }

  /** With highlighting on, every row of a successful result has exactly one bold cell,
      at the first value closest to its metric's goal. */
  lemma HighlightedOnce(evalFiles: Dict<string, Path>, basins: seq<string>, includeBenchmark: bool,
                        files: map<Path, Content>, moduleDir: Path, agg: Aggregator)
    requires ComparisonOf(evalFiles, basins, includeBenchmark, true, files, moduleDir, agg).Ok?
    ensures var t := ComparisonOf(evalFiles, basins, includeBenchmark, true, files, moduleDir, agg).value;
      forall i :: 0 <= i < |t.rows| ==>
        && |set j | 0 <= j < |t.rows[i].cells| && t.rows[i].cells[j].Bold?| == 1
        && GoalOf(t.rows[i].metric).Ok?
        && forall j :: 0 <= j < |t.rows[i].cells| ==>
             (t.rows[i].cells[j].Bold? <==>
              FirstClosest(CellValues(t.rows[i].cells), GoalOf(t.rows[i].metric).value, j))
  {
    var acc := CompareFold(evalFiles, basins, files, agg).value;
    FinishBolded(acc, Keys(evalFiles), includeBenchmark, files, moduleDir);
    RowsHighlighted(Expanded(acc, includeBenchmark, files, moduleDir).value.rows);
  }

  /** Every row bold_better highlights has exactly one bold cell, at the first closest value. */
  lemma RowsHighlighted(rows: seq<ComparisonRow>)
    requires BoldRows(rows).Ok?
    ensures var shown := BoldRows(rows).value;
      forall i :: 0 <= i < |shown| ==>
        && |set j | 0 <= j < |shown[i].cells| && shown[i].cells[j].Bold?| == 1
        && GoalOf(shown[i].metric).Ok?
        && forall j :: 0 <= j < |shown[i].cells| ==>
             (shown[i].cells[j].Bold? <==>
              FirstClosest(CellValues(shown[i].cells), GoalOf(shown[i].metric).value, j))
  {
    var shown := BoldRows(rows).value;
    forall i | 0 <= i < |shown|
      ensures |set j | 0 <= j < |shown[i].cells| && shown[i].cells[j].Bold?| == 1
      ensures GoalOf(shown[i].metric).Ok?
      ensures forall j :: 0 <= j < |shown[i].cells| ==>
        (shown[i].cells[j].Bold? <==>
         FirstClosest(CellValues(shown[i].cells), GoalOf(shown[i].metric).value, j))
    {
      ExactlyOneBold(rows[i].metric, rows[i].values);
      assert CellValues(shown[i].cells) == rows[i].values;
    }
  }

  /** With highlighting on, a successful comparison that has rows has as its columns exactly
      the dict's keys, followed by `Benchmark` when that is included. */
  lemma HighlightedColumns(evalFiles: Dict<string, Path>, basins: seq<string>, includeBenchmark: bool,
                           files: map<Path, Content>, moduleDir: Path, agg: Aggregator)
    requires ComparisonOf(evalFiles, basins, includeBenchmark, true, files, moduleDir, agg).Ok?
    requires |ComparisonOf(evalFiles, basins, includeBenchmark, true, files, moduleDir, agg).value.rows| > 0
    ensures ComparisonOf(evalFiles, basins, includeBenchmark, true, files, moduleDir, agg).value.models
         == Keys(evalFiles) + (if includeBenchmark then ["Benchmark"] else [])
  {
    var acc := CompareFold(evalFiles, basins, files, agg).value;
    FinishColumns(acc, Keys(evalFiles), includeBenchmark, files, moduleDir);
  }

  /** The step after the loop: highlighted rows leave exactly the keys as columns. */
  lemma FinishColumns(acc: Option<Comparison>, modelKeys: seq<string>, includeBenchmark: bool,
                      files: map<Path, Content>, moduleDir: Path)
    requires acc.Some? ==> IsTail(acc.value.models, modelKeys)
    requires Finish(acc, modelKeys, includeBenchmark, true, files, moduleDir).Ok?
    requires |Finish(acc, modelKeys, includeBenchmark, true, files, moduleDir).value.rows| > 0
    ensures Finish(acc, modelKeys, includeBenchmark, true, files, moduleDir).value.models
         == modelKeys + (if includeBenchmark then ["Benchmark"] else [])
  {
    var c := Expanded(acc, includeBenchmark, files, moduleDir).value;
    var keys := modelKeys + (if includeBenchmark then ["Benchmark"] else []);
    assert |BoldRows(c.rows).value| == |c.rows| > 0;
    if includeBenchmark {
      TailExtend(acc.value.models, modelKeys, "Benchmark");
    }
    assert IsTail(c.models, keys) && |keys| == |c.models|;
    assert keys == keys[|keys| - |c.models|..] == c.models;
    NothingAdded(keys, c.models);
  }

  lemma {:induction false} NothingAdded(keys: seq<string>, present: seq<string>)
    requires forall k :: k in keys ==> k in present
    ensures AddedColumns(keys, present) == []
  {
    if keys != [] {
      assert keys[0] in keys;
      NothingAdded(keys[1..], present);
    }
  }

  lemma TailExtend(a: seq<string>, b: seq<string>, x: string)
    requires IsTail(a, b)
    ensures IsTail(a + [x], b + [x])
  {
    assert (b + [x])[|b| + 1 - |a + [x]|..] == b[|b| - |a|..] + [x];
  }

  /** A highlighted comparison whose merges kept every model column but no row fails:
      pandas hands back the table itself, which is one column wider than the keys. */
  lemma EmptyTableHighlightFails(evalFiles: Dict<string, Path>, basins: seq<string>,
                                 files: map<Path, Content>, moduleDir: Path, agg: Aggregator)
    requires CompareFold(evalFiles, basins, files, agg).Ok?
    requires var acc := CompareFold(evalFiles, basins, files, agg).value;
      acc.Some? && acc.value.rows == [] && acc.value.models == Keys(evalFiles)
    ensures ComparisonOf(evalFiles, basins, false, true, files, moduleDir, agg)
         == Err(ValueError("Columns must be same length as key"))
  {
  }

  // ---------------------------------------------------------------------------
  // evaluate_models

  /** A call to `eval_run(run_dir, period=..., epoch=...)`: its effect on the files belongs
      to the training framework and is left abstract. */
  type EvalRun = (map<Path, Content>, Path, string, int) -> map<Path, Content>

  /** The state of evaluate_models' loop: the files, and `models_dict`. */
  datatype Prepared = Prepared(files: map<Path, Content>, evalFiles: Dict<string, Path>)

  /** One model's turn: evaluate it when needed, then record its metrics file under its id. */
  function PrepareStep(p: Prepared, m: RunLayout.TrainedModel, period: string, ignorePrevious: bool,
                       basins: seq<string>, evalRun: EvalRun): (r: Result<Prepared>)
    requires UniqueKeys(p.evalFiles)
  {
    var metricsFile := m.GetEvalMetricsFile(period);
    var needed :- NeedsEvaluation(p.files, metricsFile, ignorePrevious, basins);
    var files := if needed then evalRun(p.files, m.runDir, period, m.epoch) else p.files;
    Ok(Prepared(files, Put(p.evalFiles, m.configId, metricsFile)))
  }

  /** evaluate_models' loop over the first |models| models. */
  function PrepareModels(models: seq<RunLayout.TrainedModel>, period: string, ignorePrevious: bool,
                         basins: seq<string>, files: map<Path, Content>, evalRun: EvalRun)
    : (r: Result<Prepared>)
    ensures r.Ok? ==> UniqueKeys(r.value.evalFiles) && |r.value.evalFiles| <= |models|
  {
    if models == [] then Ok(Prepared(files, []))
    else
      var p :- PrepareModels(models[..|models| - 1], period, ignorePrevious, basins, files, evalRun);
      PrepareStep(p, models[|models| - 1], period, ignorePrevious, basins, evalRun)
  }

  /** The loop over one more model is one more PrepareStep. */
  lemma PrepareUnfold(models: seq<RunLayout.TrainedModel>, i: nat, period: string, ignorePrevious: bool,
                      basins: seq<string>, files: map<Path, Content>, evalRun: EvalRun)
    requires i < |models| && PrepareModels(models[..i], period, ignorePrevious, basins, files, evalRun).Ok?
    ensures PrepareModels(models[..i + 1], period, ignorePrevious, basins, files, evalRun)
         == PrepareStep(PrepareModels(models[..i], period, ignorePrevious, basins, files, evalRun).value,
                        models[i], period, ignorePrevious, basins, evalRun)
  {
    assert models[..i + 1][..i] == models[..i];
  }

  lemma {:induction false} PrepareErrSticks(models: seq<RunLayout.TrainedModel>, k: nat, period: string,
                                            ignorePrevious: bool, basins: seq<string>,
                                            files: map<Path, Content>, evalRun: EvalRun)
    requires k <= |models| && PrepareModels(models[..k], period, ignorePrevious, basins, files, evalRun).Err?
    ensures PrepareModels(models, period, ignorePrevious, basins, files, evalRun)
         == PrepareModels(models[..k], period, ignorePrevious, basins, files, evalRun)
    decreases |models| - k
  {
    if k < |models| {
      assert models[..k + 1][..k] == models[..k];
      assert PrepareModels(models[..k + 1], period, ignorePrevious, basins, files, evalRun).Err?;
      PrepareErrSticks(models, k + 1, period, ignorePrevious, basins, files, evalRun);
    } else {
      assert models[..k] == models;
    }
  }

  /** The files evaluate_models' loop leaves, whether it runs to the end or stops at the
      first model whose metrics file cannot be read. */
  function LoopFiles(models: seq<RunLayout.TrainedModel>, period: string, ignorePrevious: bool,
                     basins: seq<string>, files: map<Path, Content>, evalRun: EvalRun): (r: map<Path, Content>)
    ensures PrepareModels(models, period, ignorePrevious, basins, files, evalRun).Ok? ==>
      r == PrepareModels(models, period, ignorePrevious, basins, files, evalRun).value.files
  {
    if models == [] then files
    else
      var p := PrepareModels(models[..|models| - 1], period, ignorePrevious, basins, files, evalRun);
      if p.Err? then LoopFiles(models[..|models| - 1], period, ignorePrevious, basins, files, evalRun)
      else
        var q := PrepareStep(p.value, models[|models| - 1], period, ignorePrevious, basins, evalRun);
        if q.Ok? then q.value.files else p.value.files
  }

  /** Once the loop has stopped, the models after the failing one change nothing. */
  lemma {:induction false} LoopFilesStick(models: seq<RunLayout.TrainedModel>, k: nat, period: string,
                                          ignorePrevious: bool, basins: seq<string>,
                                          files: map<Path, Content>, evalRun: EvalRun)
    requires k <= |models| && PrepareModels(models[..k], period, ignorePrevious, basins, files, evalRun).Err?
    ensures LoopFiles(models, period, ignorePrevious, basins, files, evalRun)
         == LoopFiles(models[..k], period, ignorePrevious, basins, files, evalRun)
    decreases |models| - k
  {
    if k < |models| {
      assert models[..k + 1][..k] == models[..k];
      assert PrepareModels(models[..k + 1], period, ignorePrevious, basins, files, evalRun).Err?;
      LoopFilesStick(models, k + 1, period, ignorePrevious, basins, files, evalRun);
    } else {
      assert models[..k] == models;
    }
  }

  /** A single model whose metrics file cannot be read leaves every file as it was:
      eval_run is never reached. */
  lemma OneModelFailureKeepsFiles(m: RunLayout.TrainedModel, period: string, ignorePrevious: bool,
                                  basins: seq<string>, files: map<Path, Content>, evalRun: EvalRun)
    requires PrepareModels([m], period, ignorePrevious, basins, files, evalRun).Err?
    ensures LoopFiles([m], period, ignorePrevious, basins, files, evalRun) == files
  {
    assert [m][..0] == [];
  }

  /** A successful loop ends with a Put of the last model's metrics file. */
  lemma PrepareLast(models: seq<RunLayout.TrainedModel>, period: string, ignorePrevious: bool,
                    basins: seq<string>, files: map<Path, Content>, evalRun: EvalRun)
    requires models != [] && PrepareModels(models, period, ignorePrevious, basins, files, evalRun).Ok?
    ensures var before := PrepareModels(models[..|models| - 1], period, ignorePrevious, basins, files, evalRun);
      var m := models[|models| - 1];
      && before.Ok?
      && PrepareModels(models, period, ignorePrevious, basins, files, evalRun).value.evalFiles
         == Put(before.value.evalFiles, m.configId, m.GetEvalMetricsFile(period))
  {
  }

  /** When eval_run leaves the saved sweeps alone, so does the whole loop. */
  lemma {:induction false} PrepareKeepsPickles(models: seq<RunLayout.TrainedModel>, period: string,
                                               ignorePrevious: bool, basins: seq<string>,
                                               files: map<Path, Content>, evalRun: EvalRun)
    requires forall f, d, per, e :: PicklesKept(f, evalRun(f, d, per, e))
    requires PrepareModels(models, period, ignorePrevious, basins, files, evalRun).Ok?
    ensures PicklesKept(files, PrepareModels(models, period, ignorePrevious, basins, files, evalRun).value.files)
  {
    if models != [] {
      var prefix := models[..|models| - 1];
      var m := models[|models| - 1];
      PrepareKeepsPickles(prefix, period, ignorePrevious, basins, files, evalRun);
      var p := PrepareModels(prefix, period, ignorePrevious, basins, files, evalRun).value;
      var after := PrepareModels(models, period, ignorePrevious, basins, files, evalRun).value.files;
      assert after == p.files || after == evalRun(p.files, m.runDir, period, m.epoch);
      PicklesKeptTrans(files, p.files, after);
    }
  }

  /** The config ids of the models, in order. */
  function ConfigIds(models: seq<RunLayout.TrainedModel>): (r: seq<string>)
    ensures |r| == |models| && forall i :: 0 <= i < |models| ==> r[i] == models[i].configId
  {
    seq(|models|, i requires 0 <= i < |models| => models[i].configId)
  }

  /** The assignments `models_dict[model.config_id] = model.get_eval_metrics_file(period)`, in loop order. */
  function EvalEntries(models: seq<RunLayout.TrainedModel>, period: string): (r: Dict<string, Path>)
    ensures |r| == |models|
    ensures forall i :: 0 <= i < |models| ==> r[i] == (models[i].configId, models[i].GetEvalMetricsFile(period))
  {
    seq(|models|, i requires 0 <= i < |models| => (models[i].configId, models[i].GetEvalMetricsFile(period)))
  }

  /** A successful loop records exactly the dict those assignments build. */
  lemma {:induction false} PreparedEvalFiles(models: seq<RunLayout.TrainedModel>, period: string,
                                             ignorePrevious: bool, basins: seq<string>,
                                             files: map<Path, Content>, evalRun: EvalRun)
    requires PrepareModels(models, period, ignorePrevious, basins, files, evalRun).Ok?
    ensures PrepareModels(models, period, ignorePrevious, basins, files, evalRun).value.evalFiles
         == FromPairs(EvalEntries(models, period))
  {
    if models != [] {
      PrepareLast(models, period, ignorePrevious, basins, files, evalRun);
      PreparedEvalFiles(models[..|models| - 1], period, ignorePrevious, basins, files, evalRun);
      EvalEntriesSnoc(models, period);
    }
  }

  /** Assigning the entries of all models is assigning those of all but the last, then the last. */
  lemma EvalEntriesSnoc(models: seq<RunLayout.TrainedModel>, period: string)
    requires models != []
    ensures var m := models[|models| - 1];
      FromPairs(EvalEntries(models, period))
      == Put(FromPairs(EvalEntries(models[..|models| - 1], period)), m.configId, m.GetEvalMetricsFile(period))
  {
    assert EvalEntries(models, period)[..|models| - 1] == EvalEntries(models[..|models| - 1], period);
  }

  /** `models_dict` holds exactly the config ids of the models. */
  lemma ModelIdsAreKeys(models: seq<RunLayout.TrainedModel>, period: string,
                        ignorePrevious: bool, basins: seq<string>,
                        files: map<Path, Content>, evalRun: EvalRun)
    requires PrepareModels(models, period, ignorePrevious, basins, files, evalRun).Ok?
    ensures var d := PrepareModels(models, period, ignorePrevious, basins, files, evalRun).value.evalFiles;
      forall id :: id in Keys(d) <==> id in ConfigIds(models)
  {
    PreparedEvalFiles(models, period, ignorePrevious, basins, files, evalRun);
    FromPairsKeys(EvalEntries(models, period));
    assert Keys(EvalEntries(models, period)) == ConfigIds(models);
  }

  /** Each id maps to the metrics file of the last model carrying it. */
  lemma LastModelWins(models: seq<RunLayout.TrainedModel>, period: string,
                      ignorePrevious: bool, basins: seq<string>,
                      files: map<Path, Content>, evalRun: EvalRun, i: nat)
    requires PrepareModels(models, period, ignorePrevious, basins, files, evalRun).Ok?
    requires i < |models| && forall j :: i < j < |models| ==> models[j].configId != models[i].configId
    ensures var d := PrepareModels(models, period, ignorePrevious, basins, files, evalRun).value.evalFiles;
      Lookup(d, models[i].configId) == Some(models[i].GetEvalMetricsFile(period))
  {
    PreparedEvalFiles(models, period, ignorePrevious, basins, files, evalRun);
    FromPairsLastWins(EvalEntries(models, period), i);
  }

  /** Evaluating a single model without the benchmark compares one column, named after
      the model's config id. */
  lemma OneModelColumn(m: RunLayout.TrainedModel, period: string, ignorePrevious: bool, basins: seq<string>,
                       files: map<Path, Content>, evalRun: EvalRun, moduleDir: Path, agg: Aggregator)
    requires PrepareModels([m], period, ignorePrevious, basins, files, evalRun).Ok?
    requires var p := PrepareModels([m], period, ignorePrevious, basins, files, evalRun).value;
      ComparisonOf(p.evalFiles, basins, false, false, p.files, moduleDir, agg).Ok?
    ensures var p := PrepareModels([m], period, ignorePrevious, basins, files, evalRun).value;
      ComparisonOf(p.evalFiles, basins, false, false, p.files, moduleDir, agg).value.models == [m.configId]
  {
    var p := PrepareModels([m], period, ignorePrevious, basins, files, evalRun).value;
    PreparedEvalFiles([m], period, ignorePrevious, basins, files, evalRun);
    OneEntry(m, period);
    OneEntryColumn(p.evalFiles, basins, p.files, moduleDir, agg);
  }

  lemma OneEntry(m: RunLayout.TrainedModel, period: string)
    ensures FromPairs(EvalEntries([m], period)) == [(m.configId, m.GetEvalMetricsFile(period))]
  {
    var es := EvalEntries([m], period);
    assert es == [(m.configId, m.GetEvalMetricsFile(period))];
    assert es[..0] == [];
  }

  lemma OneEntryColumn(evalFiles: Dict<string, Path>, basins: seq<string>, files: map<Path, Content>,
                       moduleDir: Path, agg: Aggregator)
    requires |evalFiles| == 1 && ComparisonOf(evalFiles, basins, false, false, files, moduleDir, agg).Ok?
    ensures ComparisonOf(evalFiles, basins, false, false, files, moduleDir, agg).value.models == [evalFiles[0].0]
  {
    assert Keys(evalFiles) == [evalFiles[0].0];
  }

  /** Nothing is evaluated again when every model's previous metrics can be reused. */
  lemma {:induction false} ReuseKeepsFiles(models: seq<RunLayout.TrainedModel>, period: string,
                                           basins: seq<string>, files: map<Path, Content>, evalRun: EvalRun)
    requires forall i :: 0 <= i < |models| ==>
      NeedsEvaluation(files, models[i].GetEvalMetricsFile(period), false, basins) == Ok(false)
    ensures PrepareModels(models, period, false, basins, files, evalRun).Ok?
    ensures PrepareModels(models, period, false, basins, files, evalRun).value.files == files
  {
    if models != [] {
      var prefix := models[..|models| - 1];
      assert forall i :: 0 <= i < |prefix| ==> prefix[i] == models[i];
      ReuseKeepsFiles(prefix, period, basins, files, evalRun);
    }
  }

  /** evaluate_models: evaluate what needs it, collect the metrics files by config id, and
      compare the models. */
  method EvaluateModels(fs: FileSystem, models: seq<RunLayout.TrainedModel>, basins: seq<string>,
                        includeBenchmark: bool, period: string, bolden: bool, ignorePrevious: bool,
                        evalRun: EvalRun, moduleDir: Path, agg: Aggregator)
    returns (r: Result<Shown>)
    modifies fs
    ensures var p := PrepareModels(models, period, ignorePrevious, basins, old(fs.files), evalRun);
      && (p.Err? ==> r == Err(p.error)
                     && fs.files == LoopFiles(models, period, ignorePrevious, basins, old(fs.files), evalRun))
      && (p.Ok? ==> fs.files == p.value.files
                    && r == ComparisonOf(p.value.evalFiles, basins, includeBenchmark, bolden,
                                         fs.files, moduleDir, agg))
  {
    var modelsDict: Dict<string, Path> := [];
    var i := 0;
    while i < |models|
      invariant 0 <= i <= |models|
      invariant PrepareModels(models[..i], period, ignorePrevious, basins, old(fs.files), evalRun)
             == Ok(Prepared(fs.files, modelsDict))
    {
      var model := models[i];
      ghost var before := Prepared(fs.files, modelsDict);
      PrepareUnfold(models, i, period, ignorePrevious, basins, old(fs.files), evalRun);
      var metricsFile := model.GetEvalMetricsFile(period);
      var needed := NeedsEvaluation(fs.files, metricsFile, ignorePrevious, basins);
      if needed.Err? {
        PrepareErrSticks(models, i + 1, period, ignorePrevious, basins, old(fs.files), evalRun);
        LoopFilesStick(models, i + 1, period, ignorePrevious, basins, old(fs.files), evalRun);
        assert models[..i + 1][..i] == models[..i];
        return Err(needed.error);
      }
      if needed.value {
        fs.files := evalRun(fs.files, model.runDir, period, model.epoch);
      }
      modelsDict := Put(modelsDict, model.configId, metricsFile);
      assert PrepareStep(before, model, period, ignorePrevious, basins, evalRun) == Ok(Prepared(fs.files, modelsDict));
      i := i + 1;
    }
    assert models[..i] == models;
    r := EvaluteModelCsvs(modelsDict, basins, includeBenchmark, bolden, fs.files, moduleDir, agg);
  }
}
