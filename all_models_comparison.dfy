/**
 * The bookkeeping of the script that compares the Dense-500M, Dense-1B and
 * Dense-3B models: per model, the checkpoints of its multiple-choice (MC)
 * and fill-in-the-blank (FB) results directories are visited in training
 * order, `iter_0050000` is skipped, checkpoints without the needed result
 * are dropped, and one accuracy per remaining checkpoint is collected.
 */
module AllModelsComparison {
  import opened Wrappers
  import opened Checkpoints
  import opened Extremes

  /** The checkpoint both collectors leave out. */
  const SkippedCheckpoint := "iter_0050000"

  /** What `load_fb_results` parses: the numeric top-level fields of a fill-in-the-blank results file. */
  type FbResults = map<string, real>

  /** The lists a collector builds; `checkpoints`, `iterNumbers` and `accuracies` run in parallel. */
  datatype Series = Series(iterNumbers: seq<int>, accuracies: seq<real>, checkpoints: seq<string>, skipped: seq<string>)

  predicate IsSkipped<P>(e: Entry<P>) {
    e.name == SkippedCheckpoint
  }

  /** `results and 'mmlu' in results`, for a checkpoint that is not skipped. */
  predicate McKeep(e: Entry<TaskResults>) {
    e.name != SkippedCheckpoint && e.payload.Parsed? && |e.payload.value| > 0 && "mmlu" in e.payload.value
  }

  /** `results and 'accuracy' in results`, for a checkpoint that is not skipped. */
  predicate FbKeep(e: Entry<FbResults>) {
    e.name != SkippedCheckpoint && e.payload.Parsed? && |e.payload.value| > 0 && "accuracy" in e.payload.value
  }

  /** `'acc_norm,none'`, else `'acc,none'`, else 0, of the `mmlu` metrics, as a percentage. */
  function McAccuracy(e: Entry<TaskResults>): real {
    if e.payload.Parsed? && "mmlu" in e.payload.value then
      100.0 * FirstPresent(e.payload.value["mmlu"], ["acc_norm,none", "acc,none"]).GetOr(0.0)
    else 0.0
  }

  /** `results.get('accuracy', 0)`, as a percentage. */
  function FbAccuracy(e: Entry<FbResults>): real {
    if e.payload.Parsed? && "accuracy" in e.payload.value then 100.0 * e.payload.value["accuracy"] else 0.0
  }

  /**
   * The lists a collector builds from the visiting order `ord`: the kept
   * checkpoints in order, their iteration numbers and accuracies, and the
   * names skipped on the way.
   */
  function SeriesOf<P(!new)>(ord: seq<Entry<P>>, keep: Entry<P> -> bool, metric: Entry<P> -> real): (s: Series)
    ensures |s.iterNumbers| == |s.accuracies| == |s.checkpoints|
    ensures forall i :: 0 <= i < |s.checkpoints| ==> s.iterNumbers[i] == ExtractIterNumber(s.checkpoints[i])
  {
    var kept := Select(ord, keep);
    Series(IterNumbersOf(kept), ValuesOf(kept, metric), NamesOf(kept), NamesOf(Select(ord, IsSkipped)))
  }

  /** A series follows the visiting order, so an order by iteration number carries over to it. */
  lemma SeriesOfSorted<P(!new)>(ord: seq<Entry<P>>, keep: Entry<P> -> bool, metric: Entry<P> -> real)
    requires IterSorted(ord)
    ensures var s := SeriesOf(ord, keep, metric);
            forall i, j :: 0 <= i < j < |s.iterNumbers| ==> s.iterNumbers[i] <= s.iterNumbers[j]
  {
    SelectKeepsIterSorted(ord, keep);
  }

  /** Every kept checkpoint is in the series. */
  lemma SeriesOfIncludes<P(!new)>(ord: seq<Entry<P>>, keep: Entry<P> -> bool, metric: Entry<P> -> real)
    ensures var s := SeriesOf(ord, keep, metric);
            forall e :: e in ord && keep(e) ==> e.name in s.checkpoints
  {
    var s := SeriesOf(ord, keep, metric);
    assert s.checkpoints == NamesOf(Select(ord, keep));
    forall e | e in ord && keep(e) ensures e.name in s.checkpoints {
      KeptAt(ord, keep, e);
    }
  }

  /** Every position of the series holds a kept checkpoint and that checkpoint's accuracy. */
  lemma SeriesOfWitness<P(!new)>(ord: seq<Entry<P>>, keep: Entry<P> -> bool, metric: Entry<P> -> real, i: nat)
    requires i < |SeriesOf(ord, keep, metric).checkpoints|
    ensures var s := SeriesOf(ord, keep, metric);
            var e := Select(ord, keep)[i];
            e in ord && keep(e) && e.name == s.checkpoints[i] && s.accuracies[i] == metric(e)
  {
    var kept := Select(ord, keep);
    var s := SeriesOf(ord, keep, metric);
    assert s.checkpoints == NamesOf(kept) && s.accuracies == ValuesOf(kept, metric);
    KeptFrom(ord, keep, i);
  }

  lemma KeptFrom<P(!new)>(ord: seq<Entry<P>>, keep: Entry<P> -> bool, i: nat)
    requires i < |Select(ord, keep)|
    ensures var e := Select(ord, keep)[i]; e in ord && keep(e)
  {
    var kept := Select(ord, keep);
    assert kept[i] in kept;
  }

  /** The skipped list names `iter_0050000` once per directory of that name, and nothing else. */
  lemma SeriesOfSkips<P(!new)>(ord: seq<Entry<P>>, keep: Entry<P> -> bool, metric: Entry<P> -> real)
    ensures var s := SeriesOf(ord, keep, metric);
            && (forall n :: n in s.skipped ==> n == SkippedCheckpoint)
            && (forall e :: e in ord && IsSkipped(e) ==> SkippedCheckpoint in s.skipped)
  {
    var skipped := Select(ord, IsSkipped);
    var s := SeriesOf(ord, keep, metric);
    forall n | n in s.skipped ensures n == SkippedCheckpoint {
      var i :| 0 <= i < |s.skipped| && s.skipped[i] == n;
      assert skipped[i] in skipped;
    }
    forall e | e in ord && IsSkipped(e) ensures SkippedCheckpoint in s.skipped {
      assert e in skipped;
      var i :| 0 <= i < |skipped| && skipped[i] == e;
      assert s.skipped[i] == e.name;
    }
  }

  /**
   * `collect_mc_data`: `None` (the source's `(None, None, None)`) when the
   * results directory is missing or has no subdirectory; otherwise the MC
   * series of the model.
   */
  function McSeries(dirExists: bool, listing: seq<Entry<TaskResults>>): (r: Option<Series>)
    ensures r.None? <==> !dirExists || Select(listing, IsDirectory) == []
  {
    if !dirExists || Select(listing, IsDirectory) == [] then None
    else Some(SeriesOf(CheckpointOrder(listing), McKeep, McAccuracy))
  }

  /** `collect_fb_data`: as `McSeries`, for fill-in-the-blank results. */
  function FbSeries(dirExists: bool, listing: seq<Entry<FbResults>>): (r: Option<Series>)
    ensures r.None? <==> !dirExists || Select(listing, IsDirectory) == []
  {
    if !dirExists || Select(listing, IsDirectory) == [] then None
    else Some(SeriesOf(CheckpointOrder(listing), FbKeep, FbAccuracy))
  }

  /** Some kept directory of the listing has this name and this accuracy. */
  ghost predicate FromListing<P(!new)>(listing: seq<Entry<P>>, keep: Entry<P> -> bool, metric: Entry<P> -> real, name: string, acc: real) {
    exists e :: e in listing && e.isDir && keep(e) && e.name == name && metric(e) == acc
  }

  /**
   * The series of a listing, for any keep test that refuses the skipped
   * name: aligned lists in training order, a directory included iff it is
   * kept, the skipped name never included but recorded in `skipped`.
   */
  lemma ListingSeries<P(!new)>(listing: seq<Entry<P>>, keep: Entry<P> -> bool, metric: Entry<P> -> real)
    requires forall e :: keep(e) ==> !IsSkipped(e)
    ensures var s := SeriesOf(CheckpointOrder(listing), keep, metric);
            && (forall i, j :: 0 <= i < j < |s.iterNumbers| ==> s.iterNumbers[i] <= s.iterNumbers[j])
            && (forall e :: e in listing && e.isDir && keep(e) ==> e.name in s.checkpoints)
            && (forall i :: 0 <= i < |s.checkpoints| ==>
                  FromListing(listing, keep, metric, s.checkpoints[i], s.accuracies[i]))
            && SkippedCheckpoint !in s.checkpoints
            && (forall n :: n in s.skipped ==> n == SkippedCheckpoint)
            && (forall e :: e in listing && e.isDir && IsSkipped(e) ==> SkippedCheckpoint in s.skipped)
  {
    ListingIncludes(listing, keep, metric);
    ListingRecords(listing, keep, metric);
    ListingSkips(listing, keep, metric);
    SeriesOfSorted(CheckpointOrder(listing), keep, metric);
  }

  lemma ListingIncludes<P(!new)>(listing: seq<Entry<P>>, keep: Entry<P> -> bool, metric: Entry<P> -> real)
    ensures var s := SeriesOf(CheckpointOrder(listing), keep, metric);
            forall e :: e in listing && e.isDir && keep(e) ==> e.name in s.checkpoints
  {
    var ord := CheckpointOrder(listing);
    SeriesOfIncludes(ord, keep, metric);
    forall e | e in listing && e.isDir && keep(e) ensures e in ord { }
  }

  lemma ListingRecords<P(!new)>(listing: seq<Entry<P>>, keep: Entry<P> -> bool, metric: Entry<P> -> real)
    requires forall e :: keep(e) ==> !IsSkipped(e)
    ensures var s := SeriesOf(CheckpointOrder(listing), keep, metric);
            && (forall i :: 0 <= i < |s.checkpoints| ==> FromListing(listing, keep, metric, s.checkpoints[i], s.accuracies[i]))
            && SkippedCheckpoint !in s.checkpoints
  {
    var ord := CheckpointOrder(listing);
    var s := SeriesOf(ord, keep, metric);
    forall i | 0 <= i < |s.checkpoints|
      ensures FromListing(listing, keep, metric, s.checkpoints[i], s.accuracies[i]) && s.checkpoints[i] != SkippedCheckpoint
    {
      SeriesOfWitness(ord, keep, metric, i);
      var e := Select(ord, keep)[i];
      assert e in listing && e.isDir && !IsSkipped(e);
    }
  }

  lemma ListingSkips<P(!new)>(listing: seq<Entry<P>>, keep: Entry<P> -> bool, metric: Entry<P> -> real)
    ensures var s := SeriesOf(CheckpointOrder(listing), keep, metric);
            && (forall n :: n in s.skipped ==> n == SkippedCheckpoint)
            && (forall e :: e in listing && e.isDir && IsSkipped(e) ==> SkippedCheckpoint in s.skipped)
  {
    var ord := CheckpointOrder(listing);
    SeriesOfSkips(ord, keep, metric);
    forall e | e in listing && e.isDir && IsSkipped(e) ensures e in ord { }
  }

  /**
   * What `collect_mc_data` promises: aligned lists in training order; a
   * directory is included iff its results are non-empty, contain `mmlu`
   * and it is not `iter_0050000`; the skipped list records that name.
   */
  lemma McSeriesProperties(dirExists: bool, listing: seq<Entry<TaskResults>>)
    requires McSeries(dirExists, listing).Some?
    ensures var s := McSeries(dirExists, listing).value;
            && |s.iterNumbers| == |s.accuracies| == |s.checkpoints|
            && (forall i :: 0 <= i < |s.checkpoints| ==> s.iterNumbers[i] == ExtractIterNumber(s.checkpoints[i]))
            && (forall i, j :: 0 <= i < j < |s.iterNumbers| ==> s.iterNumbers[i] <= s.iterNumbers[j])
            && (forall e :: e in listing && e.isDir && McKeep(e) ==> e.name in s.checkpoints)
            && (forall i :: 0 <= i < |s.checkpoints| ==>
                  FromListing(listing, McKeep, McAccuracy, s.checkpoints[i], s.accuracies[i]))
            && SkippedCheckpoint !in s.checkpoints
            && (forall n :: n in s.skipped ==> n == SkippedCheckpoint)
            && (forall e :: e in listing && e.isDir && IsSkipped(e) ==> SkippedCheckpoint in s.skipped)
  {
    ListingSeries(listing, McKeep, McAccuracy);
  }

  /** What `collect_fb_data` promises, with `accuracy` as the required key. */
  lemma FbSeriesProperties(dirExists: bool, listing: seq<Entry<FbResults>>)
    requires FbSeries(dirExists, listing).Some?
    ensures var s := FbSeries(dirExists, listing).value;
            && |s.iterNumbers| == |s.accuracies| == |s.checkpoints|
            && (forall i :: 0 <= i < |s.checkpoints| ==> s.iterNumbers[i] == ExtractIterNumber(s.checkpoints[i]))
            && (forall i, j :: 0 <= i < j < |s.iterNumbers| ==> s.iterNumbers[i] <= s.iterNumbers[j])
            && (forall e :: e in listing && e.isDir && FbKeep(e) ==> e.name in s.checkpoints)
            && (forall i :: 0 <= i < |s.checkpoints| ==>
                  FromListing(listing, FbKeep, FbAccuracy, s.checkpoints[i], s.accuracies[i]))
            && SkippedCheckpoint !in s.checkpoints
            && (forall n :: n in s.skipped ==> n == SkippedCheckpoint)
            && (forall e :: e in listing && e.isDir && IsSkipped(e) ==> SkippedCheckpoint in s.skipped)
  {
    ListingSeries(listing, FbKeep, FbAccuracy);
  }


  /** `collect_mc_data`: `None` when the results directory is missing or has no subdirectory, else one pass in training order. */
  method CollectMcData(dirExists: bool, listing: seq<Entry<TaskResults>>) returns (r: Option<Series>)
    ensures r == McSeries(dirExists, listing)
  {
    if !dirExists {
      return None;
    }
    var dirs := SortByName(Select(listing, IsDirectory));
    if dirs == [] {
      return None;
    }
    var s := McPass(SortByIter(dirs));
    r := Some(s);
  }

  /** The loop of `collect_mc_data` over the checkpoints in visiting order `ord`. */
  method McPass(ord: seq<Entry<TaskResults>>) returns (s: Series)
    ensures s == SeriesOf(ord, McKeep, McAccuracy)
  {
    var iterNumbers, accuracies, checkpoints, skipped := [], [], [], [];
    ghost var kept: seq<Entry<TaskResults>>, skips: seq<Entry<TaskResults>> := [], [];
    var i := 0;
    while i < |ord|
      invariant 0 <= i <= |ord|
      invariant kept == Select(ord[..i], McKeep) && skips == Select(ord[..i], IsSkipped)
      invariant iterNumbers == IterNumbersOf(kept) && accuracies == ValuesOf(kept, McAccuracy)
      invariant checkpoints == NamesOf(kept) && skipped == NamesOf(skips)
    {
      var e := ord[i];
      SelectPrefix(ord, i, McKeep);
      SelectPrefix(ord, i, IsSkipped);
      if IsSkipped(e) {
        ListsSnoc(skips, e, McAccuracy);
        skipped := skipped + [e.name];
        skips := skips + [e];
      } else if McKeep(e) {
        ListsSnoc(kept, e, McAccuracy);
        checkpoints := checkpoints + [e.name];
        iterNumbers := iterNumbers + [ExtractIterNumber(e.name)];
        accuracies := accuracies + [McAccuracy(e)];
        kept := kept + [e];
      }
      i := i + 1;
    }
    assert ord[..i] == ord;
    s := Series(iterNumbers, accuracies, checkpoints, skipped);
  }

  /** `collect_fb_data`: `None` when the results directory is missing or has no subdirectory, else one pass in training order. */
  method CollectFbData(dirExists: bool, listing: seq<Entry<FbResults>>) returns (r: Option<Series>)
    ensures r == FbSeries(dirExists, listing)
  {
    if !dirExists {
      return None;
    }
    var dirs := SortByName(Select(listing, IsDirectory));
    if dirs == [] {
      return None;
    }
    var s := FbPass(SortByIter(dirs));
    r := Some(s);
  }

  /** The loop of `collect_fb_data` over the checkpoints in visiting order `ord`. */
  method FbPass(ord: seq<Entry<FbResults>>) returns (s: Series)
    ensures s == SeriesOf(ord, FbKeep, FbAccuracy)
  {
    var iterNumbers, accuracies, checkpoints, skipped := [], [], [], [];
    ghost var kept: seq<Entry<FbResults>>, skips: seq<Entry<FbResults>> := [], [];
    var i := 0;
    while i < |ord|
      invariant 0 <= i <= |ord|
      invariant kept == Select(ord[..i], FbKeep) && skips == Select(ord[..i], IsSkipped)
      invariant iterNumbers == IterNumbersOf(kept) && accuracies == ValuesOf(kept, FbAccuracy)
      invariant checkpoints == NamesOf(kept) && skipped == NamesOf(skips)
    {
      var e := ord[i];
      SelectPrefix(ord, i, FbKeep);
      SelectPrefix(ord, i, IsSkipped);
      if IsSkipped(e) {
        ListsSnoc(skips, e, FbAccuracy);
        skipped := skipped + [e.name];
        skips := skips + [e];
      } else if FbKeep(e) {
        ListsSnoc(kept, e, FbAccuracy);
        checkpoints := checkpoints + [e.name];
        iterNumbers := iterNumbers + [ExtractIterNumber(e.name)];
        accuracies := accuracies + [FbAccuracy(e)];
        kept := kept + [e];
      }
      i := i + 1;
    }
    assert ord[..i] == ord;
    s := Series(iterNumbers, accuracies, checkpoints, skipped);
  }

  // ------------------------------------------------------------------
  // All models

  /** One entry of `models`: a model's name and what its two results directories hold. */
  datatype ModelDirs = ModelDirs(name: string, mcExists: bool, mcListing: seq<Entry<TaskResults>>,
                                 fbExists: bool, fbListing: seq<Entry<FbResults>>)

  /** One entry of `mc_data` or `fb_data`: a model and the series drawn for it. */
  datatype Plotted = Plotted(model: string, series: Series)

  /** `if iters:` on what a collector returned. */
  predicate Plottable(r: Option<Series>) {
    r.Some? && |r.value.iterNumbers| > 0
  }

  /** What one collector call of `main` returned, with the model's name. */
  datatype Collected = Collected(model: string, result: Option<Series>)

  /** The MC collector's result for each model, in the order of `models`. */
  function McResults(models: seq<ModelDirs>): seq<Collected>
  {
    seq(|models|, i requires 0 <= i < |models| => Collected(models[i].name, McSeries(models[i].mcExists, models[i].mcListing)))
  }

  /** The FB collector's result for each model. */
  function FbResultsOf(models: seq<ModelDirs>): seq<Collected>
  {
    seq(|models|, i requires 0 <= i < |models| => Collected(models[i].name, FbSeries(models[i].fbExists, models[i].fbListing)))
  }

  /** `mc_data` or `fb_data` after a collecting loop of `main`: the models whose series is non-empty, in order. */
  function Drawn(results: seq<Collected>): (r: seq<Plotted>)
    ensures |r| <= |results|
    decreases |results|
  {
    if results == [] then []
    else
      var c := results[|results| - 1];
      Drawn(results[..|results| - 1]) + (if Plottable(c.result) then [Plotted(c.model, c.result.value)] else [])
  }

  /** A model is drawn with series `p.series` exactly when its collector returned it with at least one checkpoint. */
  lemma {:induction false} DrawnMembers(results: seq<Collected>, p: Plotted)
    ensures p in Drawn(results) <==>
            exists k :: 0 <= k < |results| && results[k] == Collected(p.model, Some(p.series)) && |p.series.iterNumbers| > 0
    decreases |results|
  {
    if results != [] {
      var n := |results| - 1;
      var front := results[..n];
      DrawnMembers(front, p);
      if p in Drawn(front) {
        var k :| 0 <= k < |front| && front[k] == Collected(p.model, Some(p.series)) && |p.series.iterNumbers| > 0;
        assert results[k] == front[k];
      }
      if exists k :: 0 <= k < |results| && results[k] == Collected(p.model, Some(p.series)) && |p.series.iterNumbers| > 0 {
        var k :| 0 <= k < |results| && results[k] == Collected(p.model, Some(p.series)) && |p.series.iterNumbers| > 0;
        if k < n {
          assert front[k] == results[k];
        }
      }
    }
  }

  /** Appending one collector result appends at most that model to the drawn list. */
  lemma DrawnSnoc(results: seq<Collected>, i: nat)
    requires i < |results|
    ensures Drawn(results[..i + 1]) == Drawn(results[..i]) +
              (if Plottable(results[i].result) then [Plotted(results[i].model, results[i].result.value)] else [])
  {
    assert results[..i + 1][..i] == results[..i];
  }

  /** A model gets an MC curve exactly when its directory exists and holds a kept checkpoint. */
  lemma McPlottableIff(dirExists: bool, listing: seq<Entry<TaskResults>>)
    ensures Plottable(McSeries(dirExists, listing)) <==>
            dirExists && exists e :: e in listing && e.isDir && McKeep(e)
  {
    KeptIff(dirExists, listing, McKeep, McAccuracy);
  }

  /** A model gets an FB curve exactly when its directory exists and holds a kept checkpoint. */
  lemma FbPlottableIff(dirExists: bool, listing: seq<Entry<FbResults>>)
    ensures Plottable(FbSeries(dirExists, listing)) <==>
            dirExists && exists e :: e in listing && e.isDir && FbKeep(e)
  {
    KeptIff(dirExists, listing, FbKeep, FbAccuracy);
  }

  lemma KeptIff<P(!new)>(dirExists: bool, listing: seq<Entry<P>>, keep: Entry<P> -> bool, metric: Entry<P> -> real)
    requires forall e :: keep(e) ==> !IsSkipped(e)
    ensures var s := SeriesOf(CheckpointOrder(listing), keep, metric);
            (|s.iterNumbers| > 0 <==> exists e :: e in listing && e.isDir && keep(e))
    ensures (exists e :: e in listing && e.isDir && keep(e)) ==> Select(listing, IsDirectory) != []
  {
    var s := SeriesOf(CheckpointOrder(listing), keep, metric);
    if e :| e in listing && e.isDir && keep(e) {
      ListingIncludes(listing, keep, metric);
      assert e.name in s.checkpoints;
      assert e in Select(listing, IsDirectory);
    }
    if |s.iterNumbers| > 0 {
      ListingRecords(listing, keep, metric);
      assert FromListing(listing, keep, metric, s.checkpoints[0], s.accuracies[0]);
    }
  }

  /** `main`'s two collecting loops and its `if not mc_data and not fb_data` test. */
  method CollectAllModels(models: seq<ModelDirs>) returns (mcData: seq<Plotted>, fbData: seq<Plotted>, anyPlot: bool)
    ensures mcData == Drawn(McResults(models)) && fbData == Drawn(FbResultsOf(models))
    ensures anyPlot <==> mcData != [] || fbData != []
  {
    ghost var mcResults := McResults(models);
    mcData := [];
    for i := 0 to |models|
      invariant mcData == Drawn(mcResults[..i])
    {
      var r := CollectMcData(models[i].mcExists, models[i].mcListing);
      DrawnSnoc(mcResults, i);
      if r.Some? && |r.value.iterNumbers| > 0 {
        mcData := mcData + [Plotted(models[i].name, r.value)];
      }
    }
    assert mcResults[..|models|] == mcResults;
    ghost var fbResults := FbResultsOf(models);
    fbData := [];
    for i := 0 to |models|
      invariant fbData == Drawn(fbResults[..i])
    {
      var r := CollectFbData(models[i].fbExists, models[i].fbListing);
      DrawnSnoc(fbResults, i);
      if r.Some? && |r.value.iterNumbers| > 0 {
        fbData := fbData + [Plotted(models[i].name, r.value)];
      }
    }
    assert fbResults[..|models|] == fbResults;
    anyPlot := mcData != [] || fbData != [];
  }

  // ------------------------------------------------------------------
  // Statistics

  /** The figures the summary box and the statistics block show for one model. */
  datatype Summary = Summary(checkpointCount: nat, initial: real, final: real, best: real, improvement: real)

  /** The statistics of a series, or `None` when its accuracy list is empty (`if data['accs']`). */
  function SummaryOf(s: Series): (r: Option<Summary>)
    ensures r.None? <==> s.accuracies == []
    ensures r.Some? ==> r.value.best in s.accuracies && (forall a :: a in s.accuracies ==> a <= r.value.best)
    ensures r.Some? ==> r.value.checkpointCount == |s.checkpoints|
    ensures r.Some? ==> r.value.improvement == r.value.final - r.value.initial
                        && r.value.initial == s.accuracies[0] && r.value.final == s.accuracies[|s.accuracies| - 1]
  {
    if s.accuracies == [] then None
    else
      var accs := s.accuracies;
      Some(Summary(|s.checkpoints|, accs[0], accs[|accs| - 1], MaxOf(accs), accs[|accs| - 1] - accs[0]))
  }

  /** The improvement shown never exceeds the gap between the best and the first accuracy. */
  lemma ImprovementAtMostBestGain(s: Series)
    requires SummaryOf(s).Some?
    ensures SummaryOf(s).value.improvement <= SummaryOf(s).value.best - SummaryOf(s).value.initial
  {
    var accs := s.accuracies;
    assert accs[|accs| - 1] in accs;
  }

  /** Every model on the MC plot has statistics: the guard `if data['accs']` never fails for an entry of `mc_data`. */
  lemma McDrawnHaveSummaries(models: seq<ModelDirs>)
    ensures forall p :: p in Drawn(McResults(models)) ==> SummaryOf(p.series).Some?
  {
    var results := McResults(models);
    forall p | p in Drawn(results) ensures SummaryOf(p.series).Some? {
      DrawnMembers(results, p);
      var k :| 0 <= k < |results| && results[k] == Collected(p.model, Some(p.series)) && |p.series.iterNumbers| > 0;
      McSeriesProperties(models[k].mcExists, models[k].mcListing);
    }
  }

  /** The same for `fb_data`. */
  lemma FbDrawnHaveSummaries(models: seq<ModelDirs>)
    ensures forall p :: p in Drawn(FbResultsOf(models)) ==> SummaryOf(p.series).Some?
  {
    var results := FbResultsOf(models);
    forall p | p in Drawn(results) ensures SummaryOf(p.series).Some? {
      DrawnMembers(results, p);
      var k :| 0 <= k < |results| && results[k] == Collected(p.model, Some(p.series)) && |p.series.iterNumbers| > 0;
      FbSeriesProperties(models[k].fbExists, models[k].fbListing);
    }
  }
}
