# E2LM-MMLU-Curriculum result bookkeeping, in Dafny

This project models the bookkeeping in four evaluation scripts of the
E2LM-MMLU-Curriculum repository. These scripts turn directories of
lm-eval results into ordered, filtered, labelled series. The model also
proves what those series promise.

- `pro_Int_info/plot_all_models_comparison.py` (module `AllModelsComparison`):
  - For each of the Dense-500M, Dense-1B and Dense-3B models, it visits the
    checkpoints of the multiple-choice and fill-in-the-blank results
    directories in training order.
  - It skips `iter_0050000` and keeps the checkpoints whose results hold the
    needed key (`mmlu` or `accuracy`); for each it collects an accuracy with
    key fallbacks.
  - It decides which models are drawn, and computes the first/last/best
    summary figures.
- `dense500m_evaluation/plot_results_dense500m.py` (module `Dense500mPlot`):
  - The same collection, into four parallel lists.
  - That loader has no exception handler, so a results file that is not
    valid JSON ends the run.
  - It also computes the annotated positions, the first/last comparison, and
    the checkpoints with the lowest and highest `acc_norm`.
- `smollm2_evaluation/view_questions.py` (module `ViewQuestions`):
  - The model's answer to one sample record (the first position of the
    highest score) and whether it is correct.
  - The correct/total counters of the statistics mode.
  - The nested-then-flat search for a task's samples file.
  - Task names extracted from `samples_<task>_<timestamp>.jsonl`; the task
    listing is sorted and free of duplicates.
  - The question selection, and the command-line dispatch.
- `plot_results.py` (module `PlotResults`):
  - The directories `load_results` returns.
  - The per-task lists `plot_comparison` builds: the `defaultdict` is a map
    with a default.
  - Its subplot grid.
  - The per-checkpoint averages of `plot_average_performance`.
  - The sorted rows of `print_summary`.

Shared modules hold what several scripts use:
- `Checkpoints`:
  - the directory entries and loader outcomes;
  - `extract_iter_number` (both scripts define the same function);
  - the name sort and the stable sort by iteration number, as insertion sorts
    proved sorted, a permutation and stable;
  - list filtering;
  - the `dict.get` fallback chain.
- `Text`: `str.replace(pat, '')`, `rsplit('_', 1)[0]` and glob shape tests.
- `Numerals`: `int()` and `isdigit()` on ASCII strings.
- `Ordering`: Python's string order and `sorted(set)`.
- `Extremes`: `max`, `min` and `list.index`.
- `Wrappers`: `Option`.

Some things become inputs to the model:
- The file system: a directory listing is a sequence of entries. Each entry
  has a name, a directory flag, and what the script's loader made of the
  entry's first results file: no file, unreadable, or the parsed payload.
- Glob results: sequences of files in glob order.
- Parsed JSON: maps, or the item sequence of a dict, in file order.

Accuracies are exact reals.

The loops of the source are methods with loop invariants. Each method is
proved equal to a specification function, and the properties are lemmas
about those functions.

## Model

| member | source | states |
|---|---|---|
| Checkpoints.ExtractIterOfDigits | pro_Int_info/plot_all_models_comparison.py:16-22 | `iter_` followed by a digit string reads as that string's decimal value. The same holds for the identical copy at dense500m_evaluation/plot_results_dense500m.py:25-31. |
| Checkpoints.ExtractIterOfPaddedName | pro_Int_info/plot_all_models_comparison.py:16-22 | A zero-padded name `iter_` + `n` padded to any width gives back `n`; leading zeros are ignored. |
| Checkpoints.ExtractIterWithoutDigits | pro_Int_info/plot_all_models_comparison.py:19-22 | A name without any digit does not parse as an integer, so it gives 0. |
| Checkpoints.ExtractIterOfStep2000 | pro_Int_info/plot_all_models_comparison.py:18-20 | One worked example: `iter_0002000` gives 2000. |
| Checkpoints.ExtractIterOfFinal | pro_Int_info/plot_all_models_comparison.py:19-22 | One worked example: a directory named `final` gives 0. |
| Numerals.ParseInt | pro_Int_info/plot_all_models_comparison.py:20 | `int(s)` succeeds exactly on an optional sign followed by one or more digits. |
| Numerals.ParseZeroPadded | pro_Int_info/plot_all_models_comparison.py:18-20 | A zero-padded rendering of `n` parses back to `n`. |
| Text.RemoveAll | smollm2_evaluation/view_questions.py:136 | `replace(pat, '')` never lengthens the name and introduces no new character. |
| Text.RemoveAllWithoutOccurrence | smollm2_evaluation/view_questions.py:136 | Without an occurrence of the pattern, the name is unchanged. |
| Text.RemoveAllLeading | smollm2_evaluation/view_questions.py:136 | A leading occurrence is cut out and the remainder is handled on its own. |
| Text.BeforeLastSplits | smollm2_evaluation/view_questions.py:136 | `rsplit(c, 1)[0]` is the part before a final `c`, and the tail after that `c` holds no `c`. |
| Text.BeforeLastOfJoin | smollm2_evaluation/view_questions.py:136 | For `head + c + tail` with no `c` in `tail`, the result is `head`. |
| Text.GlobMatchJoin | smollm2_evaluation/view_questions.py:98 | Every `prefix + middle + suffix` matches the glob `prefix*suffix`. |
| Text.GlobMatchSplit | smollm2_evaluation/view_questions.py:98 | Conversely, every name matching `prefix*suffix` splits as `prefix + middle + suffix`. |
| Checkpoints.Select | pro_Int_info/plot_all_models_comparison.py:58 | A list comprehension with a test keeps exactly the elements that pass it. |
| Checkpoints.SortByName | pro_Int_info/plot_all_models_comparison.py:58 | `sorted` of the directories is in name order and a permutation of its input. |
| Checkpoints.SortByIter | pro_Int_info/plot_all_models_comparison.py:69 | Sorting by `extract_iter_number` gives non-decreasing iteration numbers and a permutation of its input. |
| Checkpoints.SortByIterStable | pro_Int_info/plot_all_models_comparison.py:69 | The sort is stable: the checkpoints sharing an iteration number keep their input order. |
| Checkpoints.SelectKeepsIterSorted | pro_Int_info/plot_all_models_comparison.py:69-83 | Keeping some of the visited checkpoints preserves the training order. |
| Checkpoints.CheckpointOrder | pro_Int_info/plot_all_models_comparison.py:58-69 | The visiting order is sorted by iteration number. It holds exactly the directories of the listing, with as many entries as the listing has directories. |
| Checkpoints.CheckpointOrderTiesByName | pro_Int_info/plot_all_models_comparison.py:58-69 | Checkpoints with equal iteration numbers are visited in name order. |
| Checkpoints.FirstPresent | pro_Int_info/plot_all_models_comparison.py:82 | The nested `get` chain yields the value under the first key present, or none when no key is present. |
| AllModelsComparison.SeriesOf | pro_Int_info/plot_all_models_comparison.py:64-83 | The collected lists have equal lengths, with `iter_numbers[i] == extract_iter_number(checkpoints[i])`. |
| AllModelsComparison.McSeries | pro_Int_info/plot_all_models_comparison.py:52-62 | `(None, None, None)` exactly when the directory is missing or has no subdirectory. |
| AllModelsComparison.FbSeries | pro_Int_info/plot_all_models_comparison.py:91-101 | The same for the fill-in-the-blank directory. |
| AllModelsComparison.CollectMcData | pro_Int_info/plot_all_models_comparison.py:52-89 | The collector equals `McSeries`. |
| AllModelsComparison.McPass | pro_Int_info/plot_all_models_comparison.py:69-83 | The loop builds exactly the series of its visiting order. |
| AllModelsComparison.CollectFbData | pro_Int_info/plot_all_models_comparison.py:91-128 | The collector equals `FbSeries`. |
| AllModelsComparison.FbPass | pro_Int_info/plot_all_models_comparison.py:108-122 | The loop builds exactly the series of its visiting order. |
| AllModelsComparison.SeriesOfSkips | pro_Int_info/plot_all_models_comparison.py:72-75 | Only `iter_0050000` is recorded in `skipped`, and it is recorded whenever it is visited. |
| AllModelsComparison.ListingSeries | pro_Int_info/plot_all_models_comparison.py:69-83 | For any keep test that refuses the skipped name, the series has these properties. The iteration numbers are sorted, and every kept directory is included. Each position holds the name and the accuracy of one kept directory. The skipped name is never included. |
| AllModelsComparison.McSeriesProperties | pro_Int_info/plot_all_models_comparison.py:69-83 | The multiple-choice series is aligned and in training order. A directory is included iff it is not `iter_0050000` and its results are non-empty and hold `mmlu`. The accuracy is `acc_norm,none`, else `acc,none`, else 0. |
| AllModelsComparison.FbSeriesProperties | pro_Int_info/plot_all_models_comparison.py:108-122 | The same for the fill-in-the-blank series, where `accuracy` is the required key. |
| AllModelsComparison.DrawnMembers | pro_Int_info/plot_all_models_comparison.py:166-173 | A model enters `mc_data`/`fb_data`, with its series, iff its collector returned a series with at least one iteration. |
| AllModelsComparison.McPlottableIff | pro_Int_info/plot_all_models_comparison.py:166-173 | A model gets a multiple-choice curve iff its directory exists and holds a kept checkpoint. |
| AllModelsComparison.FbPlottableIff | pro_Int_info/plot_all_models_comparison.py:178-185 | A model gets a fill-in-the-blank curve iff its directory exists and holds a kept checkpoint. |
| AllModelsComparison.CollectAllModels | pro_Int_info/plot_all_models_comparison.py:160-189 | The two collecting loops build the drawn lists. Plotting goes ahead iff at least one of them is non-empty. |
| AllModelsComparison.SummaryOf | pro_Int_info/plot_all_models_comparison.py:222-228 | A summary exists iff there are accuracies. The checkpoint count is the number of kept checkpoints. Initial is the first accuracy and final the last, and improvement = final − initial. Best is the maximum (the statistics at lines 245-252). |
| AllModelsComparison.ImprovementAtMostBestGain | pro_Int_info/plot_all_models_comparison.py:222-252 | A direct consequence of final ≤ best: the improvement shown never exceeds best − initial. |
| AllModelsComparison.McDrawnHaveSummaries | pro_Int_info/plot_all_models_comparison.py:223-228 | The `if data['accs']` guard holds for every drawn multiple-choice model. |
| AllModelsComparison.FbDrawnHaveSummaries | pro_Int_info/plot_all_models_comparison.py:279-284 | The guard holds for every drawn fill-in-the-blank model. |
| Dense500mPlot.DataOf | dense500m_evaluation/plot_results_dense500m.py:59-67 | The four lists have equal lengths, one element per kept checkpoint. |
| Dense500mPlot.FirstUnreadableNone | dense500m_evaluation/plot_results_dense500m.py:20-21 | No load failure iff every visited results file parses. |
| Dense500mPlot.FirstUnreadableIsFirst | dense500m_evaluation/plot_results_dense500m.py:55-57 | The failing checkpoint is unreadable, and every checkpoint visited before it parsed. |
| Dense500mPlot.CollectDense | dense500m_evaluation/plot_results_dense500m.py:33-73 | The collection phase of `main` equals `DenseOutcome`. The outcomes are missing directory, empty directory, load failure, no results, or the lists. |
| Dense500mPlot.DensePass | dense500m_evaluation/plot_results_dense500m.py:55-73 | The loop and its `if not checkpoints` test equal `PassOutcome`. |
| Dense500mPlot.DenseLoop | dense500m_evaluation/plot_results_dense500m.py:55-67 | The loop stops at the first unparsable results file. Otherwise it ends with the lists of the checkpoints whose results hold `mmlu`. |
| Dense500mPlot.DenseAccNormFallback | dense500m_evaluation/plot_results_dense500m.py:63-64 | `acc` is `acc,none`, else 0. `acc_norm` is `acc_norm,none`, else that `acc`. So it is the comparison script's fallback chain. |
| Dense500mPlot.KeptIsListed | dense500m_evaluation/plot_results_dense500m.py:59-60 | Every kept checkpoint is a directory of the listing with `mmlu` results. |
| Dense500mPlot.CollectedProperties | dense500m_evaluation/plot_results_dense500m.py:47-67 | The collected lists are non-empty, of one length, aligned and in training order. Each position comes from one directory with `mmlu` results, with both accuracies. Every such directory is present. |
| Dense500mPlot.LoadFailureWins | dense500m_evaluation/plot_results_dense500m.py:20-21 | One unparsable results file in any directory ends the run with a load failure. |
| Dense500mPlot.LoadFailureNamesFirst | dense500m_evaluation/plot_results_dense500m.py:55-57 | The failure names a listed directory whose file does not parse; all earlier visited files parsed. |
| Dense500mPlot.AnnotatedIndices | dense500m_evaluation/plot_results_dense500m.py:97 | `range(0, n, 4)` is exactly 0, 4, 8, … below `n`, that is `(n+3)/4` positions. |
| Dense500mPlot.FirstLast | dense500m_evaluation/plot_results_dense500m.py:106-138 | The comparison exists iff there are at least 2 checkpoints. Its labels are the first and last checkpoint names. Its four bar heights are `acc` and `acc_norm` at the first and the last checkpoint. The improvement = last − first for each metric. |
| Dense500mPlot.LowestHighest | dense500m_evaluation/plot_results_dense500m.py:159-161 | The extremes are reported iff `acc_norm` is non-empty. The reported checkpoints and values are those at the first index attaining the minimum and the maximum `acc_norm`. |
| Extremes.IndexOfMax | smollm2_evaluation/view_questions.py:24 | `xs.index(max(xs))` is the first position of the maximum. |
| Extremes.IndexOfMin | dense500m_evaluation/plot_results_dense500m.py:160 | `xs.index(min(xs))` is the first position of the minimum. |
| ViewQuestions.Judge | smollm2_evaluation/view_questions.py:20-25 | The judgement exists iff no step raises. The answer is the smallest index of the maximal score. The target is `int(target)`, and the answer is correct iff answer == target. |
| ViewQuestions.JudgeIsArgMaxFirst | smollm2_evaluation/view_questions.py:23-24 | The answer equals the first-maximum reference `ArgMaxFirst`. |
| ViewQuestions.ParsedSamples | smollm2_evaluation/view_questions.py:147-153 | Dropping unparsable lines never yields more records than lines. |
| ViewQuestions.ParsedSamplesConcat | smollm2_evaluation/view_questions.py:148-153 | Dropping unparsable lines preserves file order, piece by piece. |
| ViewQuestions.ParsedSamplesMembers | smollm2_evaluation/view_questions.py:148-153 | Exactly the records of the file survive. |
| ViewQuestions.ReadQuestions | smollm2_evaluation/view_questions.py:147-153 | The reading loop yields exactly the parsed records, in file order. |
| ViewQuestions.CorrectCount | smollm2_evaluation/view_questions.py:195-196 | `correct ≤ total`. |
| ViewQuestions.CountSamples | smollm2_evaluation/view_questions.py:182-198 | `total` counts the lines that parse, and `correct` counts those whose judgement succeeds and matches. |
| ViewQuestions.MalformedLineIgnored | smollm2_evaluation/view_questions.py:186-198 | A line that does not parse changes neither counter. |
| ViewQuestions.UnjudgedRecordCounted | smollm2_evaluation/view_questions.py:189-198 | A parsed record that cannot be judged counts in `total` and never in `correct`. |
| ViewQuestions.Accuracy | smollm2_evaluation/view_questions.py:200 | The accuracy is 0 when total is 0; otherwise accuracy·total = correct. It lies in [0, 1] when correct ≤ total. |
| ViewQuestions.FirstTaskFile | smollm2_evaluation/view_questions.py:98-99 | The position of the first file matching `samples_<task>_*.jsonl`, or none exactly when no file matches. |
| ViewQuestions.FindSampleFile | smollm2_evaluation/view_questions.py:96-108 | The search uses the first nested match, and the first flat match only when no nested file matches; otherwise none. The result matches the task's pattern. |
| ViewQuestions.NestedFileWins | smollm2_evaluation/view_questions.py:98-107 | Any matching nested file makes the search return a nested file. |
| ViewQuestions.SampleFiles | smollm2_evaluation/view_questions.py:125-129 | The listed files are the nested files matching `samples_*.jsonl` when there is one, and otherwise the flat files matching it. |
| ViewQuestions.TaskNameShape | smollm2_evaluation/view_questions.py:135-136 | After every `samples_` is removed, the task name is the remainder when it has no `_`. Otherwise it is the part before the last `_`. |
| ViewQuestions.TaskNameOfSampleFile | smollm2_evaluation/view_questions.py:134-136 | `samples_<task>_<stamp>.jsonl` gives back `task` when the stamp has no `_` and `samples_` does not occur in the rest. |
| ViewQuestions.ListAvailableTasks | smollm2_evaluation/view_questions.py:124-140 | The listing is strictly ascending, so free of duplicates. It holds exactly the task names of files starting with `samples_`. |
| ViewQuestions.OffersPrefix | smollm2_evaluation/view_questions.py:132-137 | One more file adds exactly its task name, and only when it starts with `samples_`. |
| ViewQuestions.ViewQuestions | smollm2_evaluation/view_questions.py:110-164 | No file means the sorted task listing. Otherwise the outcome has the path and the total. The selection is a random sample when asked for and `num_questions < total`, else the first `min(num_questions, total)` questions. Those are then displayed as `FormatSelected` describes. |
| ViewQuestions.FirstQuestionsArePrefix | smollm2_evaluation/view_questions.py:162-163 | Slice facts about the prefix selection: it has `min(num_questions, total)` questions, each at its own position, and is all of them when enough are asked for. |
| ViewQuestions.FormatSelected | smollm2_evaluation/view_questions.py:166-168 | The questions are judged in order until the first one that raises, and only then the loop stops early. `ViewQuestions` runs it on the prefix selection. |
| ViewQuestions.ShowStatistics | smollm2_evaluation/view_questions.py:170-200 | Not found, or the counts and accuracy of the file found. |
| ViewQuestions.StatsBounds | smollm2_evaluation/view_questions.py:182-200 | The statistics satisfy correct ≤ total and 0 ≤ accuracy ≤ 1. |
| ViewQuestions.ParseCommand | smollm2_evaluation/view_questions.py:211-256 | Usage iff fewer than 2 arguments. Statistics mode iff `--stats` is anywhere in argv. The task is `argv[1]`. |
| ViewQuestions.ParseCommandCount | smollm2_evaluation/view_questions.py:252-254 | Without `--stats`, and for any argv length, a count written in decimal is read back, leading zeros included. A missing count, or one that is not all digits, gives 5. |
| ViewQuestions.StatsFlagAnywhere | smollm2_evaluation/view_questions.py:248 | `--stats` selects statistics mode even in the count's place. |
| ViewQuestions.Run | smollm2_evaluation/view_questions.py:211-256 | Usage shows the sorted listing. Statistics mode reports the file's total, correct count and accuracy. View mode does everything `ViewQuestions` states (`Viewed`) with random sampling on: the sorted listing when no file is found, otherwise the file's path and total, a random sample iff the count is below the total, and else every question shown in turn. |
| PlotResults.LoadedOfSelect | plot_results.py:25-48 | The loaded results are exactly the loadable directories in name order, each with its name and parsed data. |
| PlotResults.LoadResults | plot_results.py:14-50 | The loader returns `[]` for a missing directory. Otherwise it returns one result per directory, in sorted order, whose first JSON file parsed. |
| PlotResults.LoadedResultsSorted | plot_results.py:25 | The loaded checkpoint names ascend. |
| PlotResults.LoadedResultsListed | plot_results.py:25-45 | Every loaded result comes from a listed directory whose file parsed. |
| PlotResults.LoadedResultsComplete | plot_results.py:25-45 | Every listed directory whose file parsed is loaded. |
| PlotResults.AccOf | plot_results.py:72 | `acc,none`, else `acc`, else None. |
| PlotResults.AccNormOf | plot_results.py:73 | `acc_norm,none`, else `acc_norm`, else None. |
| PlotResults.AddItem | plot_results.py:72-78 | One item touches only its task. It appends each metric that is present, and creates the key only when a metric is present. |
| PlotResults.AddItems | plot_results.py:70-78 | The inner loop adds the tasks with a metric as keys, and extends each task's lists by that result's values. |
| PlotResults.CollectTaskScores | plot_results.py:61-78 | One checkpoint name per result. The keys are the tasks reported with a metric. Each task's lists are its present values, in checkpoint order. |
| PlotResults.ItemsMetricIsLookup | plot_results.py:70-78 | With distinct dict keys, a result appends exactly the value it reports for the task, or nothing. |
| PlotResults.SeriesAtMostOnePerResult | plot_results.py:64-78 | A task's list is never longer than `checkpoints`. |
| PlotResults.UntouchedTaskEmpty | plot_results.py:75-78 | A task never reported with a metric has empty lists. |
| PlotResults.GridLayout | plot_results.py:88-123 | Two columns, and the fewest rows that hold every task. The cells from `n_tasks` on are hidden, and at most one is. |
| PlotResults.OneTaskRaisesAsWritten | plot_results.py:94-101 | As written, a single task cannot be drawn. |
| PlotResults.AsWrittenDrawsFromTwo | plot_results.py:94-101 | As written, two or more tasks are drawn. |
| PlotResults.AxesFlattened | plot_results.py:94-97 | Flattening for every task count gives one Axes per grid cell, so every task is drawable. |
| PlotResults.GappedTaskRaisesAsWritten | plot_results.py:103-110 | A task missing at one of three checkpoints has 2 bar heights for 3 positions, which do not broadcast. |
| PlotResults.AlignedSeries | plot_results.py:100-110 | One bar height per checkpoint: the value that checkpoint reports, or none. |
| PlotResults.AlignedSeriesKeepsValues | plot_results.py:100-110 | The present heights of the aligned series are exactly the appended list. |
| PlotResults.PanelsCover | plot_results.py:100-114 | Every task gets a subplot, and no other subplot exists. |
| PlotResults.PlotComparison | plot_results.py:53-123 | With both Findings' corrections applied: returns early for no results and for no tasks. Otherwise there is one checkpoint per result and the panels are strictly ascending by task. There is a panel iff the task was reported, with aligned bars on the grid of `GridLayout`. |
| PlotResults.ItemsValuesFromItems | plot_results.py:149-157 | Each collected value comes from one of the result's items. |
| PlotResults.ResultScores | plot_results.py:146-157 | `acc_scores` and `acc_norm_scores` are the present values, in item order. |
| PlotResults.PlotAveragePerformance | plot_results.py:131-160 | Nothing for no results. Otherwise one checkpoint and one average of each metric per result, and 0 for a metric that is never reported. |
| PlotResults.AverageBounds | plot_results.py:159-160 | The average of values in [lo, hi] lies in [lo, hi]; the empty average is 0. |
| PlotResults.AverageOfAccuracies | plot_results.py:159-160 | Accuracies in [0, 1] give averages in [0, 1]. |
| PlotResults.FindMetrics | plot_results.py:196-199 | The metrics of a task exist iff the task is among the items. |
| PlotResults.SummaryRows | plot_results.py:196-206 | The rows are strictly ascending by task, one per task of the result, with the metrics looked up as in `plot_comparison`. |
| PlotResults.PrintSummary | plot_results.py:185-208 | One block per result, and an empty block when the data has no `results`. Each block lists the result's tasks once each, in ascending order, with the `acc` and `acc_norm` the dict holds for them. |
| PlotResults.Run | plot_results.py:211-233 | Stops iff the directory is missing or nothing was loaded. Otherwise the results sorted by name feed the summary, the comparison and the averages, each as full as `PrintSummary`, `PlotComparison` and `PlotAveragePerformance` state (`Summarised`, `Compared`, `Averaged`). With both Findings' corrections applied, it plots the comparison iff some task was reported. |
| Ordering.SortedNames | smollm2_evaluation/view_questions.py:139 | `sorted(set)` is strictly ascending and holds exactly the set's elements. |
| Ordering.StrictlySortedUnique | plot_results.py:100 | Two strictly ascending lists with the same elements are equal, so the task order is determined. |

## Left out

- `download_model.py` is not part of this model. It downloads through the
  network, reads interactive input and sets up the environment.
- The batched fill-in-the-blank evaluator and its answer matcher are not part
  of this model. Their source is not among the four scripts modelled.
- Rendering and console output are left out, because they produce no value
  the scripts compute with. This covers:
  - all matplotlib calls: styles, lines, bars, annotation positions,
    `savefig`;
  - printing, including the per-dataset display branches of
    `format_question` (smollm2_evaluation/view_questions.py:28-94).
- PlotComparison, Run: both model `plot_comparison` with the two corrections of
  "## Findings" applied: the axes are always flattened, and the bars are aligned
  to the checkpoints. The script as written raises at plot_results.py:95-110 in two cases:
  when exactly one task is reported, and when a task's `acc` or `acc_norm` list
  does not broadcast against the checkpoint positions. `main` then stops before
  `plot_average_performance` (plot_results.py:232-233). The model instead returns
  `Plotted` and `Finished` with the averages. What it does as written is stated
  only by `OneTaskRaisesAsWritten` and `GappedTaskRaisesAsWritten`.
- FormatSelected: the display branches of `format_question` can raise on a
  malformed `doc` (for instance a missing `endings`). The model raises only
  where the judgement itself fails.
- I/O is modelled as inputs:
  - The file system, globbing and JSON parsing become inputs: listings,
    glob result sequences and parsed payloads.
  - Glob order depends on the file system, so "the first file" is the first
    element of the given sequence.
  - Recursive-glob details and hidden directories are not modelled.
  - The default directories (`results/step-125000`, `results`,
    `results_dense500m`, the absolute model paths) become the directory
    whose listing is given.
- Floating point is replaced by exact reals. Overflow, rounding, the
  `:.2f`/`:.2%` formatting and `np.std` are left out, and so is the order
  in which `np.mean` adds. The ×100 percentage scaling is kept as an
  exact multiplication.
- The relative improvement at dense500m_evaluation/plot_results_dense500m.py:167
  is left out. It divides by the first value with no zero guard, and the
  statistics block is printing only.
- `random.sample` at smollm2_evaluation/view_questions.py:160 is left out,
  because it is nondeterministic. The selection records only how many
  questions would be drawn.
- ParseInt, IsDigitString: Python's `int()` and `isdigit()` are restricted to
  ASCII digits with an optional sign. Surrounding whitespace, underscores
  and non-ASCII digits are not accepted.
- TargetValue: a float `target` is treated as a target that raises. Python's
  `int()` would truncate it.
- Judge: the scores are reals. String-valued scores, and the
  `formatted_scores` rendering that caters for them, are not modelled.
- JSON values are narrowed in three ways:
  - A sample line that parses to something other than an object is treated
    as a record without the members read.
  - A results payload that is not an object is treated as having no
    `results`.
  - Metric values are reals. A metric key stored with a `null` value is
    treated as absent, so the lookup falls back to the next key or to the
    default. Python's `.get` instead returns the stored `None`:
    - in plot_results.py:72-77 that stops the fallback, and the value is
      skipped by `if acc is not None` even when the later key holds a number;
    - in pro_Int_info/plot_all_models_comparison.py:81-82 and
      dense500m_evaluation/plot_results_dense500m.py:63-67, `None * 100`
      raises a TypeError and ends the run.
- DistinctTasks: JSON objects with duplicate keys are outside the lemmas that
  assume distinct keys. The lookup functions resolve duplicates the way a
  parsed dict does: the last occurrence wins.
- Glob metacharacters inside a task name (`*`, `?`, `[`) are treated as
  literal characters.
- Dense500mPlot.CollectDense: the script has no exception handler, so an
  unparsable results file ends the run. The model has this as the
  `LoadFailure` outcome rather than a traceback.

## Findings

| source | as written | input that shows it | evidently intended | confidence | as-written member | corrected member |
|---|---|---|---|---|---|---|
| plot_results.py:94-95 | With exactly one task, `plt.subplots(1, 2)` returns a one-dimensional array of two Axes. `axes = [axes]` wraps that array, so `axes[0].bar` is called on an array and raises `AttributeError`. | Results in which exactly one task reports `acc` or `acc_norm`. | Flatten the axes for every task count, so each task gets one Axes. | medium; not executed | PlotResults.OneTaskRaisesAsWritten | PlotResults.AxesFlattened |
| plot_results.py:66-78 | Each task's list grows only at checkpoints that report it. The bars are still drawn against one position per checkpoint, so a task missing at some checkpoint gives heights that do not broadcast, and `ax.bar` raises `ValueError`. | Three checkpoints where only the first and the last report `arc_easy` (`acc,none` 0.5 and 0.75): 3 positions, 2 heights. | One height per checkpoint, empty where the checkpoint does not report the task. | medium; not executed | PlotResults.GappedTaskRaisesAsWritten | PlotResults.AlignedSeriesKeepsValues |
