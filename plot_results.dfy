/**
 * The bookkeeping of the SmolLM2 results visualiser: which checkpoint
 * directories `load_results` returns, the per-task score lists
 * `plot_comparison` builds, the subplot grid it lays them out on, the
 * per-checkpoint averages of `plot_average_performance`, and the sorted
 * rows of `print_summary`.
 *
 * A parsed results file is modelled by the items of its `results` object,
 * in the order the file lists them (the order a Python dict keeps).
 */
module PlotResults {
  import opened Wrappers
  import opened Ordering
  import opened Checkpoints

  /** One `(task_name, metrics)` item of the `results` object. */
  datatype TaskEntry = TaskEntry(task: string, metrics: Metrics)

  /** A parsed results file: the items of its `results` member, if it has one. */
  datatype ResultsData = ResultsData(results: Option<seq<TaskEntry>>)

  /** One element of the list `load_results` returns. */
  datatype CheckpointResult = CheckpointResult(checkpoint: string, data: ResultsData)

  /** The keys of a dict are distinct: what the parsed items always satisfy. */
  predicate DistinctTasks(items: seq<TaskEntry>) {
    forall i, j :: 0 <= i < j < |items| ==> items[i].task != items[j].task
  }

  // ------------------------------------------------------------------
  // load_results
  // ------------------------------------------------------------------

  /** A directory whose first JSON file was read: the loader appends it. */
  predicate Loadable(e: Entry<ResultsData>) {
    e.isDir && e.payload.Parsed?
  }

  function AsResult(e: Entry<ResultsData>): CheckpointResult
    requires e.payload.Parsed?
  {
    CheckpointResult(e.name, e.payload.value)
  }

  predicate AllParsed(xs: seq<Entry<ResultsData>>) {
    forall k :: 0 <= k < |xs| ==> xs[k].payload.Parsed?
  }

  /** Every directory the loader keeps was parsed. */
  lemma SelectLoadableParsed(xs: seq<Entry<ResultsData>>)
    ensures AllParsed(Select(xs, Loadable))
  {
    var kept := Select(xs, Loadable);
    forall k | 0 <= k < |kept| ensures kept[k].payload.Parsed? {
      assert kept[k] in kept;
    }
  }

  /** The results of the loadable directories `kept`, in their order. */
  function ResultsOf(kept: seq<Entry<ResultsData>>): (r: seq<CheckpointResult>)
    requires AllParsed(kept)
    ensures |r| == |kept|
    ensures forall k :: 0 <= k < |kept| ==> r[k] == AsResult(kept[k])
    decreases |kept|
  {
    if kept == [] then [] else ResultsOf(kept[..|kept| - 1]) + [AsResult(kept[|kept| - 1])]
  }

  /**
   * The results `load_results` produces from the entries `ord`, taken in
   * that order: one per loadable directory, with its name and data.
   */
  function LoadedOf(ord: seq<Entry<ResultsData>>): seq<CheckpointResult>
    decreases |ord|
  {
    if ord == [] then []
    else
      var e := ord[|ord| - 1];
      LoadedOf(ord[..|ord| - 1]) + (if Loadable(e) then [CheckpointResult(e.name, e.payload.value)] else [])
  }

  /** `LoadedOf` is the result of every loadable entry, in order. */
  lemma {:induction false} LoadedOfSelect(ord: seq<Entry<ResultsData>>)
    ensures AllParsed(Select(ord, Loadable))
    ensures LoadedOf(ord) == ResultsOf(Select(ord, Loadable))
    decreases |ord|
  {
    SelectLoadableParsed(ord);
    if ord != [] {
      var n := |ord| - 1;
      assert ord[..n + 1] == ord;
      SelectPrefix(ord, n, Loadable);
      LoadedOfSelect(ord[..n]);
      var kept := Select(ord[..n], Loadable);
      if Loadable(ord[n]) {
        assert (kept + [ord[n]])[..|kept|] == kept;
      }
    }
  }

  /**
   * `load_results`: `[]` for a missing directory; otherwise one result per
   * subdirectory, in name order, whose first JSON file parses.  Entries
   * that are not directories, directories without a JSON file and files
   * that raise on reading are skipped.
   */
  method LoadResults(dirExists: bool, listing: seq<Entry<ResultsData>>) returns (results: seq<CheckpointResult>)
    ensures !dirExists ==> results == []
    ensures dirExists ==> results == LoadedOf(SortByName(listing))
  {
    if !dirExists {
      return [];
    }
    var ord := SortByName(listing);
    results := [];
    for i := 0 to |ord|
      invariant results == LoadedOf(ord[..i])
    {
      var e := ord[i];
      assert ord[..i + 1][..i] == ord[..i];
      if Loadable(e) {
        results := results + [CheckpointResult(e.name, e.payload.value)];
      }
    }
    assert ord[..|ord|] == ord;
  }

  /** The loaded checkpoint names are in ascending order. */
  lemma LoadedResultsSorted(listing: seq<Entry<ResultsData>>)
    ensures var r := LoadedOf(SortByName(listing));
            forall i, j :: 0 <= i < j < |r| ==> StrLe(r[i].checkpoint, r[j].checkpoint)
  {
    var ord := SortByName(listing);
    LoadedOfSelect(ord);
    SelectKeepsNameSorted(ord, Loadable);
  }

  /** Each loaded result is the name and data of a listed directory whose results file parsed. */
  lemma LoadedResultsListed(listing: seq<Entry<ResultsData>>, k: nat) returns (e: Entry<ResultsData>)
    requires k < |LoadedOf(SortByName(listing))|
    ensures e in listing && Loadable(e) && LoadedOf(SortByName(listing))[k] == AsResult(e)
  {
    var ord := SortByName(listing);
    var kept := Select(ord, Loadable);
    LoadedOfSelect(ord);
    e := kept[k];
    assert e in kept;
    assert e in multiset(ord);
  }

  /** Every loadable entry of `ord` has its result among `LoadedOf(ord)`. */
  lemma {:induction false} LoadedOfMembers(ord: seq<Entry<ResultsData>>, e: Entry<ResultsData>)
    requires e in ord && Loadable(e)
    ensures AsResult(e) in LoadedOf(ord)
    decreases |ord|
  {
    var n := |ord| - 1;
    assert ord[..n + 1] == ord;
    if ord[n] != e {
      var j :| 0 <= j < |ord| && ord[j] == e;
      assert ord[..n][j] == e;
      LoadedOfMembers(ord[..n], e);
    }
  }

  /** Every listed directory whose results file parsed is loaded. */
  lemma LoadedResultsComplete(listing: seq<Entry<ResultsData>>, e: Entry<ResultsData>)
    requires e in listing && Loadable(e)
    ensures AsResult(e) in LoadedOf(SortByName(listing))
  {
    var ord := SortByName(listing);
    assert e in multiset(listing);
    assert e in ord;
    LoadedOfMembers(ord, e);
  }

  // ------------------------------------------------------------------
  // Metric lookup
  // ------------------------------------------------------------------

  /** `metrics.get('acc,none', metrics.get('acc', None))`. */
  function AccOf(m: Metrics): (r: Option<real>)
    ensures r == if "acc,none" in m then Some(m["acc,none"]) else if "acc" in m then Some(m["acc"]) else None
  {
    var keys := ["acc,none", "acc"];
    assert keys[1..] == ["acc"] && keys[1..][1..] == [];
    FirstPresent(m, keys)
  }

  /** `metrics.get('acc_norm,none', metrics.get('acc_norm', None))`. */
  function AccNormOf(m: Metrics): (r: Option<real>)
    ensures r == if "acc_norm,none" in m then Some(m["acc_norm,none"]) else if "acc_norm" in m then Some(m["acc_norm"]) else None
  {
    var keys := ["acc_norm,none", "acc_norm"];
    assert keys[1..] == ["acc_norm"] && keys[1..][1..] == [];
    FirstPresent(m, keys)
  }

  /** The one-element list a present value appends, or nothing. */
  function Present(v: Option<real>): (r: seq<real>)
    ensures |r| <= 1 && (r == [] <==> v.None?)
  {
    if v.Some? then [v.value] else []
  }

  /** The items of a result's `results` member; none when the member is absent. */
  function ItemsOf(r: CheckpointResult): seq<TaskEntry> {
    if r.data.results.Some? then r.data.results.value else []
  }

  // ------------------------------------------------------------------
  // plot_comparison: the per-task lists
  // ------------------------------------------------------------------

  /** What one result's items append to `task_scores[t][metric]`. */
  function ItemsMetric(items: seq<TaskEntry>, t: string, metric: Metrics -> Option<real>): seq<real>
    decreases |items|
  {
    if items == [] then []
    else
      var last := items[|items| - 1];
      ItemsMetric(items[..|items| - 1], t, metric) + (if last.task == t then Present(metric(last.metrics)) else [])
  }

  lemma ItemsMetricPrefix(items: seq<TaskEntry>, j: nat, t: string, metric: Metrics -> Option<real>)
    requires j < |items|
    ensures ItemsMetric(items[..j + 1], t, metric) ==
            ItemsMetric(items[..j], t, metric) + (if items[j].task == t then Present(metric(items[j].metrics)) else [])
  {
    assert items[..j + 1][..j] == items[..j];
  }

  /** `task_scores[t][metric]` after the results `results`. */
  function TaskSeries(results: seq<CheckpointResult>, t: string, metric: Metrics -> Option<real>): seq<real>
    decreases |results|
  {
    if results == [] then []
    else TaskSeries(results[..|results| - 1], t, metric) + ItemsMetric(ItemsOf(results[|results| - 1]), t, metric)
  }

  lemma TaskSeriesPrefix(results: seq<CheckpointResult>, i: nat, t: string, metric: Metrics -> Option<real>)
    requires i < |results|
    ensures TaskSeries(results[..i + 1], t, metric) == TaskSeries(results[..i], t, metric) + ItemsMetric(ItemsOf(results[i]), t, metric)
  {
    assert results[..i + 1][..i] == results[..i];
  }

  /** The item reports at least one of the two metrics, so `task_scores[task]` is touched. */
  predicate HasMetric(e: TaskEntry) {
    AccOf(e.metrics).Some? || AccNormOf(e.metrics).Some?
  }

  /** The tasks one result adds to the keys of `task_scores`. */
  function ItemTasks(items: seq<TaskEntry>): set<string> {
    set k | 0 <= k < |items| && HasMetric(items[k]) :: items[k].task
  }

  /** The keys of `task_scores` after the results `results`. */
  function TasksOf(results: seq<CheckpointResult>): set<string>
    decreases |results|
  {
    if results == [] then {}
    else TasksOf(results[..|results| - 1]) + ItemTasks(ItemsOf(results[|results| - 1]))
  }

  lemma TasksOfPrefix(results: seq<CheckpointResult>, i: nat)
    requires i < |results|
    ensures TasksOf(results[..i + 1]) == TasksOf(results[..i]) + ItemTasks(ItemsOf(results[i]))
  {
    assert results[..i + 1][..i] == results[..i];
  }

  lemma ItemTasksPrefix(items: seq<TaskEntry>, j: nat)
    requires j < |items|
    ensures ItemTasks(items[..j + 1]) == ItemTasks(items[..j]) + (if HasMetric(items[j]) then {items[j].task} else {})
  {
    var p := items[..j + 1];
    forall t | t in ItemTasks(p) ensures t in ItemTasks(items[..j]) + (if HasMetric(items[j]) then {items[j].task} else {}) {
      var k :| 0 <= k < |p| && HasMetric(p[k]) && p[k].task == t;
      if k < j { assert items[..j][k] == p[k]; }
    }
    forall t | t in ItemTasks(items[..j]) ensures t in ItemTasks(p) {
      var k :| 0 <= k < j && HasMetric(items[..j][k]) && items[..j][k].task == t;
      assert p[k] == items[..j][k];
    }
    if HasMetric(items[j]) {
      assert p[j] == items[j];
    }
  }

  /** The two lists of one task. */
  datatype TaskScores = TaskScores(acc: seq<real>, accNorm: seq<real>)

  /** `task_scores[t]` of the `defaultdict`: empty lists for a task not yet touched. */
  function Get(ts: map<string, TaskScores>, t: string): TaskScores {
    if t in ts then ts[t] else TaskScores([], [])
  }

  /**
   * One item of the inner loop: `acc` appended when present, then
   * `acc_norm` when present; an item with neither leaves the dict untouched.
   */
  function AddItem(ts: map<string, TaskScores>, e: TaskEntry): (r: map<string, TaskScores>)
    ensures r.Keys == ts.Keys + (if HasMetric(e) then {e.task} else {})
    ensures forall t :: Get(r, t) == if t == e.task then TaskScores(Get(ts, t).acc + Present(AccOf(e.metrics)),
                                                                   Get(ts, t).accNorm + Present(AccNormOf(e.metrics)))
                                     else Get(ts, t)
  {
    var cur := Get(ts, e.task);
    if !HasMetric(e) then ts
    else ts[e.task := TaskScores(cur.acc + Present(AccOf(e.metrics)), cur.accNorm + Present(AccNormOf(e.metrics)))]
  }

  /** The state after `j` items of the inner loop. */
  ghost predicate AddedUpTo(ts: map<string, TaskScores>, ts': map<string, TaskScores>, items: seq<TaskEntry>, j: nat)
    requires j <= |items|
  {
    forall t :: Get(ts', t) == TaskScores(Get(ts, t).acc + ItemsMetric(items[..j], t, AccOf),
                                          Get(ts, t).accNorm + ItemsMetric(items[..j], t, AccNormOf))
  }

  lemma AddItemStep(ts: map<string, TaskScores>, ts': map<string, TaskScores>, items: seq<TaskEntry>, j: nat)
    requires j < |items| && AddedUpTo(ts, ts', items, j)
    ensures AddedUpTo(ts, AddItem(ts', items[j]), items, j + 1)
  {
    forall t ensures Get(AddItem(ts', items[j]), t) == TaskScores(Get(ts, t).acc + ItemsMetric(items[..j + 1], t, AccOf),
                                                                  Get(ts, t).accNorm + ItemsMetric(items[..j + 1], t, AccNormOf)) {
      AddItemAt(ts, ts', items, j, t);
    }
  }

  lemma AddItemAt(ts: map<string, TaskScores>, ts': map<string, TaskScores>, items: seq<TaskEntry>, j: nat, t: string)
    requires j < |items|
    requires Get(ts', t) == TaskScores(Get(ts, t).acc + ItemsMetric(items[..j], t, AccOf),
                                       Get(ts, t).accNorm + ItemsMetric(items[..j], t, AccNormOf))
    ensures Get(AddItem(ts', items[j]), t) == TaskScores(Get(ts, t).acc + ItemsMetric(items[..j + 1], t, AccOf),
                                                         Get(ts, t).accNorm + ItemsMetric(items[..j + 1], t, AccNormOf))
  {
    ItemsMetricPrefix(items, j, t, AccOf);
    ItemsMetricPrefix(items, j, t, AccNormOf);
  }

  /** The inner loop of `plot_comparison` over one result's items. */
  method AddItems(ts: map<string, TaskScores>, items: seq<TaskEntry>) returns (ts': map<string, TaskScores>)
    ensures ts'.Keys == ts.Keys + ItemTasks(items)
    ensures forall t :: Get(ts', t) == TaskScores(Get(ts, t).acc + ItemsMetric(items, t, AccOf),
                                                  Get(ts, t).accNorm + ItemsMetric(items, t, AccNormOf))
  {
    ts' := ts;
    for j := 0 to |items|
      invariant ts'.Keys == ts.Keys + ItemTasks(items[..j])
      invariant AddedUpTo(ts, ts', items, j)
    {
      ItemTasksPrefix(items, j);
      AddItemStep(ts, ts', items, j);
      ts' := AddItem(ts', items[j]);
    }
    assert items[..|items|] == items;
  }

  /** For every task, `ts` holds the values of the results that report it, in checkpoint order. */
  ghost predicate Collected(ts: map<string, TaskScores>, results: seq<CheckpointResult>) {
    forall t :: Get(ts, t) == TaskScores(TaskSeries(results, t, AccOf), TaskSeries(results, t, AccNormOf))
  }

  lemma CollectStep(prev: map<string, TaskScores>, ts: map<string, TaskScores>, results: seq<CheckpointResult>, i: nat)
    requires i < |results| && Collected(prev, results[..i])
    requires forall t :: Get(ts, t) == TaskScores(Get(prev, t).acc + ItemsMetric(ItemsOf(results[i]), t, AccOf),
                                                  Get(prev, t).accNorm + ItemsMetric(ItemsOf(results[i]), t, AccNormOf))
    ensures Collected(ts, results[..i + 1])
  {
    forall t ensures Get(ts, t) == TaskScores(TaskSeries(results[..i + 1], t, AccOf), TaskSeries(results[..i + 1], t, AccNormOf)) {
      TaskSeriesPrefix(results, i, t, AccOf);
      TaskSeriesPrefix(results, i, t, AccNormOf);
    }
  }

  /**
   * The collection loop of `plot_comparison`: one checkpoint name per
   * result, and for every task the values of the results that report it.
   */
  method CollectTaskScores(results: seq<CheckpointResult>) returns (checkpoints: seq<string>, ts: map<string, TaskScores>)
    ensures |checkpoints| == |results| && forall k :: 0 <= k < |results| ==> checkpoints[k] == results[k].checkpoint
    ensures ts.Keys == TasksOf(results)
    ensures Collected(ts, results)
  {
    checkpoints, ts := [], map[];
    for i := 0 to |results|
      invariant |checkpoints| == i && forall k :: 0 <= k < i ==> checkpoints[k] == results[k].checkpoint
      invariant ts.Keys == TasksOf(results[..i])
      invariant Collected(ts, results[..i])
    {
      checkpoints := checkpoints + [results[i].checkpoint];
      TasksOfPrefix(results, i);
      ghost var prev := ts;
      ts := AddItems(ts, ItemsOf(results[i]));
      CollectStep(prev, ts, results, i);
    }
    assert results[..|results|] == results;
  }

  /** With distinct keys, an item for `t` appends exactly its own value; without one, nothing. */
  lemma {:induction false} ItemsMetricIsLookup(items: seq<TaskEntry>, t: string, metric: Metrics -> Option<real>)
    requires DistinctTasks(items)
    ensures ItemsMetric(items, t, metric) == Present(LookupMetric(items, t, metric))
    decreases |items|
  {
    if items != [] {
      var init := items[..|items| - 1];
      assert DistinctTasks(init) by {
        forall i, j | 0 <= i < j < |init| ensures init[i].task != init[j].task {
          assert init[i] == items[i] && init[j] == items[j];
        }
      }
      if items[|items| - 1].task == t {
        ItemsMetricAbsent(init, t, metric);
      } else {
        ItemsMetricIsLookup(init, t, metric);
      }
    }
  }

  lemma {:induction false} ItemsMetricAbsent(items: seq<TaskEntry>, t: string, metric: Metrics -> Option<real>)
    requires forall k :: 0 <= k < |items| ==> items[k].task != t
    ensures ItemsMetric(items, t, metric) == []
    decreases |items|
  {
    if items != [] {
      var init := items[..|items| - 1];
      assert forall k :: 0 <= k < |init| ==> init[k] == items[k];
      ItemsMetricAbsent(init, t, metric);
    }
  }

  /** A task's list gains at most one value per checkpoint, so it is never longer than `checkpoints`. */
  lemma {:induction false} SeriesAtMostOnePerResult(results: seq<CheckpointResult>, t: string, metric: Metrics -> Option<real>)
    requires forall k :: 0 <= k < |results| ==> DistinctTasks(ItemsOf(results[k]))
    ensures |TaskSeries(results, t, metric)| <= |results|
    decreases |results|
  {
    if results != [] {
      var init := results[..|results| - 1];
      assert forall k :: 0 <= k < |init| ==> init[k] == results[k];
      SeriesAtMostOnePerResult(init, t, metric);
      ItemsMetricIsLookup(ItemsOf(results[|results| - 1]), t, metric);
    }
  }

  /** A task that no result reports with a metric never gets a key, and its lists stay empty. */
  lemma {:induction false} UntouchedTaskEmpty(results: seq<CheckpointResult>, t: string)
    requires t !in TasksOf(results)
    ensures TaskSeries(results, t, AccOf) == [] && TaskSeries(results, t, AccNormOf) == []
    decreases |results|
  {
    if results != [] {
      var init := results[..|results| - 1];
      var items := ItemsOf(results[|results| - 1]);
      UntouchedTaskEmpty(init, t);
      UntouchedItemsEmpty(items, t);
    }
  }

  lemma {:induction false} UntouchedItemsEmpty(items: seq<TaskEntry>, t: string)
    requires t !in ItemTasks(items)
    ensures ItemsMetric(items, t, AccOf) == [] && ItemsMetric(items, t, AccNormOf) == []
    decreases |items|
  {
    if items != [] {
      var init := items[..|items| - 1];
      var last := items[|items| - 1];
      assert forall k :: 0 <= k < |init| ==> init[k] == items[k];
      if last.task == t {
        assert !HasMetric(last);
      }
      UntouchedItemsEmpty(init, t);
    }
  }

  // ------------------------------------------------------------------
  // plot_comparison: the grid and the panels
  // ------------------------------------------------------------------

  /** The subplot grid: rows, columns, the flat indices of the hidden cells. */
  datatype Grid = Grid(nrows: nat, ncols: nat, hidden: seq<nat>)

  /**
   * `nrows=(n_tasks + 1) // 2`, `ncols=2`, and the cells from `n_tasks` on
   * hidden: the fewest rows of two that hold every task, and at most one
   * cell left over.
   */
  function GridLayout(nTasks: nat): (g: Grid)
    ensures g.ncols == 2 && g.nrows * g.ncols >= nTasks
    ensures nTasks > 0 ==> (g.nrows - 1) * g.ncols < nTasks
    ensures forall k :: 0 <= k < |g.hidden| ==> g.hidden[k] == nTasks + k
    ensures nTasks + |g.hidden| == g.nrows * g.ncols
    ensures |g.hidden| <= 1
  {
    var rows := (nTasks + 1) / 2;
    Grid(rows, 2, seq(2 * rows - nTasks, k => nTasks + k))
  }

  /** What stands in a position of `axes`: one Axes, or a row of Axes that `plt.subplots` returned as an array. */
  datatype AxesCell = AxesObject | AxesRow(size: nat)

  /**
   * `axes` as written: `[axes]` when there is one task, where
   * `plt.subplots(1, 2)` returns a one-dimensional array of two Axes, so
   * the single position holds that array; otherwise the flattened grid.
   */
  function AxesAsWritten(nTasks: nat): seq<AxesCell>
  {
    if nTasks == 1 then [AxesRow(2)] else seq(2 * ((nTasks + 1) / 2), _ => AxesObject)
  }

  /** Every task's position `axes[idx]` is one Axes, so `ax.bar` and the other calls apply. */
  predicate PanelsDrawable(cells: seq<AxesCell>, nTasks: nat) {
    nTasks <= |cells| && forall k :: 0 <= k < nTasks ==> cells[k].AxesObject?
  }

  /** As written, a single task raises: `axes[0]` is an array, which has no `bar`. */
  lemma OneTaskRaisesAsWritten()
    ensures !PanelsDrawable(AxesAsWritten(1), 1)
  {
    assert AxesAsWritten(1)[0] == AxesRow(2);
  }

  /** As written, two or more tasks are drawn. */
  lemma AsWrittenDrawsFromTwo(nTasks: nat)
    requires nTasks >= 2
    ensures PanelsDrawable(AxesAsWritten(nTasks), nTasks)
  {
  }

  /** `axes.flatten()` for every task count: one Axes per cell of the grid. */
  function AxesFlattened(nTasks: nat): (cells: seq<AxesCell>)
    ensures |cells| == GridLayout(nTasks).nrows * GridLayout(nTasks).ncols
    ensures PanelsDrawable(cells, nTasks)
  {
    seq(2 * ((nTasks + 1) / 2), _ => AxesObject)
  }

  /**
   * `ax.bar(x, heights)` broadcasts `x` (one position per checkpoint)
   * against the heights: numpy accepts equal lengths or a length of one.
   */
  predicate BarsBroadcast(nCheckpoints: nat, nHeights: nat) {
    nCheckpoints == nHeights || nCheckpoints == 1 || nHeights == 1
  }

  /** The `acc` bars of task `t`, as written: drawn from the list, against every checkpoint. */
  predicate AccBarsDrawAsWritten(results: seq<CheckpointResult>, t: string) {
    var acc := TaskSeries(results, t, AccOf);
    acc != [] ==> BarsBroadcast(|results|, |acc|)
  }

  /** A task that misses its metric at one of three checkpoints raises in `ax.bar`. */
  lemma GappedTaskRaisesAsWritten()
    ensures var rs := GappedResults();
            TaskSeries(rs, "arc_easy", AccOf) == [0.5, 0.75] && !AccBarsDrawAsWritten(rs, "arc_easy")
  {
    var rs := GappedResults();
    var a := [TaskEntry("arc_easy", map["acc,none" := 0.5])];
    var b := [TaskEntry("arc_easy", map["acc,none" := 0.75])];
    assert ItemsOf(rs[0]) == a && ItemsOf(rs[1]) == [] && ItemsOf(rs[2]) == b;
    assert a[..0] == [] && b[..0] == [];
    assert ItemsMetric(a, "arc_easy", AccOf) == [0.5];
    assert ItemsMetric(b, "arc_easy", AccOf) == [0.75];
    assert rs[..1][..0] == [] && rs[..2][..1] == rs[..1] && rs[..3] == rs && rs[..2] == rs[..3][..2];
    assert TaskSeries(rs[..1], "arc_easy", AccOf) == [0.5];
    assert TaskSeries(rs[..2], "arc_easy", AccOf) == [0.5];
  }

  /** Three checkpoints; `arc_easy` is reported at the first and the last. */
  function GappedResults(): (rs: seq<CheckpointResult>)
    ensures |rs| == 3
  {
    [ CheckpointResult("step-1000", ResultsData(Some([TaskEntry("arc_easy", map["acc,none" := 0.5])]))),
      CheckpointResult("step-2000", ResultsData(Some([]))),
      CheckpointResult("step-3000", ResultsData(Some([TaskEntry("arc_easy", map["acc,none" := 0.75])]))) ]
  }

  /** The value `results['results'][t][metric]` the checkpoint reports, if any (the last item for `t` wins, as in a dict). */
  function LookupMetric(items: seq<TaskEntry>, t: string, metric: Metrics -> Option<real>): Option<real>
    decreases |items|
  {
    if items == [] then None
    else if items[|items| - 1].task == t then metric(items[|items| - 1].metrics)
    else LookupMetric(items[..|items| - 1], t, metric)
  }

  /** One bar height per checkpoint, `None` where the checkpoint does not report the metric. */
  function AlignedSeries(results: seq<CheckpointResult>, t: string, metric: Metrics -> Option<real>): (r: seq<Option<real>>)
    ensures |r| == |results|
    ensures forall k :: 0 <= k < |results| ==> r[k] == LookupMetric(ItemsOf(results[k]), t, metric)
    decreases |results|
  {
    if results == [] then []
    else AlignedSeries(results[..|results| - 1], t, metric) + [LookupMetric(ItemsOf(results[|results| - 1]), t, metric)]
  }

  /** The present values of an aligned series, in order. */
  function Somes(xs: seq<Option<real>>): seq<real>
    decreases |xs|
  {
    if xs == [] then [] else Somes(xs[..|xs| - 1]) + Present(xs[|xs| - 1])
  }

  /** The aligned series keeps exactly the values of the appended list, each at its own checkpoint. */
  lemma {:induction false} AlignedSeriesKeepsValues(results: seq<CheckpointResult>, t: string, metric: Metrics -> Option<real>)
    requires forall k :: 0 <= k < |results| ==> DistinctTasks(ItemsOf(results[k]))
    ensures Somes(AlignedSeries(results, t, metric)) == TaskSeries(results, t, metric)
    decreases |results|
  {
    if results != [] {
      var init := results[..|results| - 1];
      var a := AlignedSeries(results, t, metric);
      assert a[..|a| - 1] == AlignedSeries(init, t, metric);
      assert forall k :: 0 <= k < |init| ==> init[k] == results[k];
      AlignedSeriesKeepsValues(init, t, metric);
      ItemsMetricIsLookup(ItemsOf(results[|results| - 1]), t, metric);
    }
  }

  /** One subplot: the task's title and its bars, one height (or none) per checkpoint. */
  datatype Panel = Panel(task: string, acc: seq<Option<real>>, accNorm: seq<Option<real>>)

  /** Some panel is titled `t`. */
  ghost predicate HasPanel(panels: seq<Panel>, t: string) {
    exists k :: 0 <= k < |panels| && panels[k].task == t
  }

  datatype ComparisonOutcome =
    | NoResultData                     // `results` is empty
    | NoTasks                          // no result reports a metric for any task
    | Plotted(checkpoints: seq<string>, panels: seq<Panel>, grid: Grid)

  /**
   * What `plot_comparison` makes of `results`: nothing for no results or no
   * tasks; otherwise one checkpoint per result and panels in ascending task
   * order, one per reported task, with aligned bars on the grid of `GridLayout`.
   */
  ghost predicate Compared(results: seq<CheckpointResult>, r: ComparisonOutcome) {
    && (results == [] <==> r.NoResultData?)
    && (r.NoTasks? <==> results != [] && TasksOf(results) == {})
    && (r.Plotted? ==>
          && |r.checkpoints| == |results| && (forall k :: 0 <= k < |results| ==> r.checkpoints[k] == results[k].checkpoint)
          && (forall i, j :: 0 <= i < j < |r.panels| ==> StrLt(r.panels[i].task, r.panels[j].task))
          && (forall t :: t in TasksOf(results) <==> HasPanel(r.panels, t))
          && (forall k :: 0 <= k < |r.panels| ==>
                && r.panels[k].acc == AlignedSeries(results, r.panels[k].task, AccOf)
                && r.panels[k].accNorm == AlignedSeries(results, r.panels[k].task, AccNormOf))
          && r.grid == GridLayout(|r.panels|))
  }

  /** One subplot per task of `tasks`, in that order, with its aligned accuracy series. */
  function PanelsOf(results: seq<CheckpointResult>, tasks: seq<string>): (ps: seq<Panel>)
    ensures |ps| == |tasks|
    ensures forall k :: 0 <= k < |ps| ==>
              && ps[k].task == tasks[k]
              && ps[k].acc == AlignedSeries(results, tasks[k], AccOf)
              && ps[k].accNorm == AlignedSeries(results, tasks[k], AccNormOf)
  {
    seq(|tasks|, k requires 0 <= k < |tasks| =>
          Panel(tasks[k], AlignedSeries(results, tasks[k], AccOf), AlignedSeries(results, tasks[k], AccNormOf)))
  }

  /** With `tasks` listing exactly the tasks of `results`, every task gets a subplot and nothing else does. */
  lemma PanelsCover(results: seq<CheckpointResult>, tasks: seq<string>)
    requires forall t :: t in tasks <==> t in TasksOf(results)
    ensures forall t :: t in TasksOf(results) <==> HasPanel(PanelsOf(results, tasks), t)
  {
    var panels := PanelsOf(results, tasks);
    forall t | t in TasksOf(results) ensures HasPanel(panels, t) {
      assert t in tasks;
      var k :| 0 <= k < |tasks| && tasks[k] == t;
      assert panels[k].task == t;
    }
    forall t | HasPanel(panels, t) ensures t in TasksOf(results) {
      var k :| 0 <= k < |panels| && panels[k].task == t;
      assert tasks[k] in tasks;
    }
  }

  /**
   * `plot_comparison`, with the bars of each task aligned to their
   * checkpoints and the axes always flattened: panels in ascending task
   * order, one per key of `task_scores`, on the grid of `GridLayout`.
   */
  method PlotComparison(results: seq<CheckpointResult>) returns (r: ComparisonOutcome)
    ensures Compared(results, r)
  {
    if results == [] {
      return NoResultData;
    }
    var checkpoints, ts := CollectTaskScores(results);
    if |ts| == 0 {
      assert ts.Keys == {};
      return NoTasks;
    }
    var tasks := SortedNames(ts.Keys);
    var panels := PanelsOf(results, tasks);
    PanelsCover(results, tasks);
    r := Plotted(checkpoints, panels, GridLayout(|panels|));
  }

  // ------------------------------------------------------------------
  // plot_average_performance
  // ------------------------------------------------------------------

  function Sum(xs: seq<real>): real
    decreases |xs|
  {
    if xs == [] then 0.0 else Sum(xs[..|xs| - 1]) + xs[|xs| - 1]
  }

  /** `np.mean(xs) if xs else 0`, on exact reals. */
  function AverageOf(xs: seq<real>): real {
    if xs == [] then 0.0 else Sum(xs) / |xs| as real
  }

  /** A sum of values within `[lo, hi]` lies within `|xs|` times those bounds. */
  lemma {:induction false} SumBounds(xs: seq<real>, lo: real, hi: real)
    requires forall k :: 0 <= k < |xs| ==> lo <= xs[k] <= hi
    ensures |xs| as real * lo <= Sum(xs) <= |xs| as real * hi
    decreases |xs|
  {
    if xs != [] {
      var init := xs[..|xs| - 1];
      assert forall k :: 0 <= k < |init| ==> init[k] == xs[k];
      SumBounds(init, lo, hi);
      var n := |init| as real;
      assert Sum(xs) == Sum(init) + xs[|xs| - 1];
      assert |xs| as real == n + 1.0;
      assert (n + 1.0) * lo == n * lo + lo && (n + 1.0) * hi == n * hi + hi;
    }
  }

  /** The average of values within `[lo, hi]` lies within them; the empty average is 0. */
  lemma AverageBounds(xs: seq<real>, lo: real, hi: real)
    requires forall k :: 0 <= k < |xs| ==> lo <= xs[k] <= hi
    ensures xs == [] ==> AverageOf(xs) == 0.0
    ensures xs != [] ==> lo <= AverageOf(xs) <= hi
  {
    if xs != [] {
      SumBounds(xs, lo, hi);
      var n := |xs| as real;
      assert Sum(xs) / n >= lo by { assert Sum(xs) >= n * lo; }
      assert Sum(xs) / n <= hi by { assert Sum(xs) <= n * hi; }
    }
  }

  /** Every value of `metric` that the items report, in item order. */
  function ItemsValues(items: seq<TaskEntry>, metric: Metrics -> Option<real>): (r: seq<real>)
    ensures |r| <= |items|
    decreases |items|
  {
    if items == [] then [] else ItemsValues(items[..|items| - 1], metric) + Present(metric(items[|items| - 1].metrics))
  }

  lemma ItemsValuesPrefix(items: seq<TaskEntry>, j: nat, metric: Metrics -> Option<real>)
    requires j < |items|
    ensures ItemsValues(items[..j + 1], metric) == ItemsValues(items[..j], metric) + Present(metric(items[j].metrics))
  {
    assert items[..j + 1][..j] == items[..j];
  }

  /** Every reported value comes from one of the result's items. */
  lemma {:induction false} ItemsValuesFromItems(items: seq<TaskEntry>, metric: Metrics -> Option<real>, i: nat)
    requires i < |ItemsValues(items, metric)|
    ensures exists k :: 0 <= k < |items| && metric(items[k].metrics) == Some(ItemsValues(items, metric)[i])
    decreases |items|
  {
    var init := items[..|items| - 1];
    var last := items[|items| - 1];
    if i < |ItemsValues(init, metric)| {
      ItemsValuesFromItems(init, metric, i);
      var k :| 0 <= k < |init| && metric(init[k].metrics) == Some(ItemsValues(init, metric)[i]);
      assert items[k] == init[k];
    } else {
      assert metric(items[|items| - 1].metrics) == Some(ItemsValues(items, metric)[i]);
    }
  }

  /** `acc_scores` and `acc_norm_scores` of one result. */
  method ResultScores(items: seq<TaskEntry>) returns (accScores: seq<real>, accNormScores: seq<real>)
    ensures accScores == ItemsValues(items, AccOf) && accNormScores == ItemsValues(items, AccNormOf)
  {
    accScores, accNormScores := [], [];
    for j := 0 to |items|
      invariant accScores == ItemsValues(items[..j], AccOf) && accNormScores == ItemsValues(items[..j], AccNormOf)
    {
      ItemsValuesPrefix(items, j, AccOf);
      ItemsValuesPrefix(items, j, AccNormOf);
      var acc, accNorm := AccOf(items[j].metrics), AccNormOf(items[j].metrics);
      if acc.Some? {
        accScores := accScores + [acc.value];
      }
      if accNorm.Some? {
        accNormScores := accNormScores + [accNorm.value];
      }
    }
    assert items[..|items|] == items;
  }

  datatype Averages = Averages(checkpoints: seq<string>, avgAcc: seq<real>, avgAccNorm: seq<real>)

  /** Position `k` of the averages holds result `k`'s name and the averages of its reported values. */
  predicate AveragedAt(results: seq<CheckpointResult>, a: Averages, k: nat)
    requires k < |results| && k < |a.checkpoints| && k < |a.avgAcc| && k < |a.avgAccNorm|
  {
    && a.checkpoints[k] == results[k].checkpoint
    && a.avgAcc[k] == AverageOf(ItemsValues(ItemsOf(results[k]), AccOf))
    && a.avgAccNorm[k] == AverageOf(ItemsValues(ItemsOf(results[k]), AccNormOf))
  }

  /**
   * `plot_average_performance`: nothing for no results; otherwise one
   * checkpoint name and one average of each metric per result, 0 for a
   * result that reports the metric for no task.
   */
  /** One averaged point per result, each as `AveragedAt` says. */
  ghost predicate Averaged(results: seq<CheckpointResult>, a: Averages) {
    && |a.checkpoints| == |a.avgAcc| == |a.avgAccNorm| == |results|
    && forall k :: 0 <= k < |results| ==> AveragedAt(results, a, k)
  }

  method PlotAveragePerformance(results: seq<CheckpointResult>) returns (r: Option<Averages>)
    ensures r.None? <==> results == []
    ensures r.Some? ==> Averaged(results, r.value)
  {
    if results == [] {
      return None;
    }
    var checkpoints, avgAcc, avgAccNorm := [], [], [];
    for i := 0 to |results|
      invariant |checkpoints| == |avgAcc| == |avgAccNorm| == i
      invariant forall k :: 0 <= k < i ==> AveragedAt(results, Averages(checkpoints, avgAcc, avgAccNorm), k)
    {
      var accScores, accNormScores := ResultScores(ItemsOf(results[i]));
      ghost var before := Averages(checkpoints, avgAcc, avgAccNorm);
      checkpoints := checkpoints + [results[i].checkpoint];
      avgAcc := avgAcc + [AverageOf(accScores)];
      avgAccNorm := avgAccNorm + [AverageOf(accNormScores)];
      forall k | 0 <= k < i + 1 ensures AveragedAt(results, Averages(checkpoints, avgAcc, avgAccNorm), k) {
        if k < i {
          assert AveragedAt(results, before, k);
        }
      }
    }
    r := Some(Averages(checkpoints, avgAcc, avgAccNorm));
  }

  /** Accuracies within `[0, 1]` give averages within `[0, 1]`, the range the plot's axis shows. */
  lemma AverageOfAccuracies(items: seq<TaskEntry>, metric: Metrics -> Option<real>)
    requires forall k :: 0 <= k < |items| && metric(items[k].metrics).Some? ==> 0.0 <= metric(items[k].metrics).value <= 1.0
    ensures 0.0 <= AverageOf(ItemsValues(items, metric)) <= 1.0
  {
    var xs := ItemsValues(items, metric);
    forall i | 0 <= i < |xs| ensures 0.0 <= xs[i] <= 1.0 {
      ItemsValuesFromItems(items, metric, i);
    }
    AverageBounds(xs, 0.0, 1.0);
  }

  // ------------------------------------------------------------------
  // print_summary and main
  // ------------------------------------------------------------------

  /** One line of the summary: the task and the metrics it prints, if present. */
  datatype SummaryRow = SummaryRow(task: string, acc: Option<real>, accNorm: Option<real>)

  /** The task names of the items. */
  function ItemNames(items: seq<TaskEntry>): set<string> {
    set k | 0 <= k < |items| :: items[k].task
  }

  /** The metrics the dict holds for `t` (the last item for `t`). */
  function FindMetrics(items: seq<TaskEntry>, t: string): (m: Option<Metrics>)
    ensures m.Some? <==> t in ItemNames(items)
    decreases |items|
  {
    if items == [] then None
    else if items[|items| - 1].task == t then Some(items[|items| - 1].metrics)
    else
      var r := FindMetrics(items[..|items| - 1], t);
      assert t in ItemNames(items) <==> t in ItemNames(items[..|items| - 1]) by {
        if t in ItemNames(items) {
          var k :| 0 <= k < |items| && items[k].task == t;
          assert items[..|items| - 1][k] == items[k];
        }
        if t in ItemNames(items[..|items| - 1]) {
          var k :| 0 <= k < |items| - 1 && items[..|items| - 1][k].task == t;
          assert items[k] == items[..|items| - 1][k];
        }
      }
      r
  }

  /** The rows of one checkpoint: its tasks in ascending order, with the metrics looked up as in `plot_comparison`. */
  method SummaryRows(items: seq<TaskEntry>) returns (rows: seq<SummaryRow>)
    ensures items == [] ==> rows == []
    ensures forall i, j :: 0 <= i < j < |rows| ==> StrLt(rows[i].task, rows[j].task)
    ensures forall t :: t in ItemNames(items) <==> exists k :: 0 <= k < |rows| && rows[k].task == t
    ensures forall k :: 0 <= k < |rows| ==> (&& rows[k].task in ItemNames(items)
                                            && rows[k].acc == AccOf(FindMetrics(items, rows[k].task).value)
                                            && rows[k].accNorm == AccNormOf(FindMetrics(items, rows[k].task).value))
  {
    var names := SortedNames(ItemNames(items));
    assert items == [] ==> names == [] by {
      if names != [] {
        assert names[0] in names;
      }
    }
    rows := [];
    for k := 0 to |names|
      invariant |rows| == k
      invariant forall j :: 0 <= j < k ==> (&& rows[j].task == names[j]
                                           && rows[j].acc == AccOf(FindMetrics(items, names[j]).value)
                                           && rows[j].accNorm == AccNormOf(FindMetrics(items, names[j]).value))
    {
      var m := FindMetrics(items, names[k]).value;
      rows := rows + [SummaryRow(names[k], AccOf(m), AccNormOf(m))];
    }
    forall t | t in ItemNames(items) ensures exists k :: 0 <= k < |rows| && rows[k].task == t {
      var k :| 0 <= k < |names| && names[k] == t;
      assert rows[k].task == t;
    }
  }

  /**
   * The rows of result `k` list its tasks, each once, in ascending order,
   * with the metrics the dict holds for them; none without `results`.
   */
  ghost predicate SummarisedAt(results: seq<CheckpointResult>, summary: seq<seq<SummaryRow>>, k: nat)
    requires k < |results| && k < |summary|
  {
    && (results[k].data.results.None? ==> summary[k] == [])
    && (forall i, j :: 0 <= i < j < |summary[k]| ==> StrLt(summary[k][i].task, summary[k][j].task))
    && (forall t :: t in ItemNames(ItemsOf(results[k])) <==> exists i :: 0 <= i < |summary[k]| && summary[k][i].task == t)
    && (forall i :: 0 <= i < |summary[k]| ==>
          && summary[k][i].task in ItemNames(ItemsOf(results[k]))
          && summary[k][i].acc == AccOf(FindMetrics(ItemsOf(results[k]), summary[k][i].task).value)
          && summary[k][i].accNorm == AccNormOf(FindMetrics(ItemsOf(results[k]), summary[k][i].task).value))
  }

  /** One block of rows per result, each as `SummarisedAt` says. */
  ghost predicate Summarised(results: seq<CheckpointResult>, summary: seq<seq<SummaryRow>>) {
    |summary| == |results| && forall k :: 0 <= k < |results| ==> SummarisedAt(results, summary, k)
  }

  /** `print_summary`: for each result, its rows, or none when its data has no `results`. */
  method PrintSummary(results: seq<CheckpointResult>) returns (summary: seq<seq<SummaryRow>>)
    ensures Summarised(results, summary)
  {
    summary := [];
    for i := 0 to |results|
      invariant |summary| == i
      invariant forall k :: 0 <= k < i ==> SummarisedAt(results, summary, k)
    {
      var rows := SummaryRows(ItemsOf(results[i]));
      ghost var before := summary;
      summary := summary + [rows];
      forall k | 0 <= k <= i ensures SummarisedAt(results, summary, k) {
        if k < i {
          assert summary[k] == before[k] && SummarisedAt(results, before, k);
        } else {
          assert summary[i] == rows;
        }
      }
    }
  }

  datatype RunOutcome =
    | NothingLoaded
    | Finished(summary: seq<seq<SummaryRow>>, comparison: ComparisonOutcome, averages: Averages)

  /** `main`: load, stop when nothing loaded, else the summary and both plots. */
  method Run(dirExists: bool, listing: seq<Entry<ResultsData>>) returns (r: RunOutcome)
    ensures var results := LoadedOf(SortByName(listing));
            r.NothingLoaded? <==> !dirExists || results == []
    ensures r.Finished? ==>
              var results := LoadedOf(SortByName(listing));
              && Summarised(results, r.summary)
              && Compared(results, r.comparison)
              && (r.comparison.Plotted? <==> TasksOf(results) != {})
              && Averaged(results, r.averages)
  {
    var results := LoadResults(dirExists, listing);
    if results == [] {
      return NothingLoaded;
    }
    var summary := PrintSummary(results);
    var comparison := PlotComparison(results);
    var averages := PlotAveragePerformance(results);
    r := Finished(summary, comparison, averages.value);
  }
}
