/**
 * The bookkeeping of the Dense-500M plotting script: its checkpoints are
 * visited in training order, the ones whose results contain `mmlu` give
 * four parallel lists (names, iteration numbers, `acc`, `acc_norm`), and the
 * plots and statistics read positions of those lists.  Unlike the
 * comparison script, this loader has no exception handler: a results file
 * that is not valid JSON ends the run.
 */
module Dense500mPlot {
  import opened Wrappers
  import opened Checkpoints
  import opened Extremes

  /** The four lists the collection loop of `main` builds; all have one element per included checkpoint. */
  datatype DenseData = DenseData(checkpoints: seq<string>, iterNumbers: seq<int>, acc: seq<real>, accNorm: seq<real>)

  /** How `main` ends its collection phase. */
  datatype Outcome =
    | MissingResultsDir          // the results directory does not exist
    | EmptyResultsDir            // it has no subdirectory
    | LoadFailure(checkpoint: string)  // `json.load` raised on this checkpoint's results file
    | NoResults                  // no checkpoint had `mmlu` results
    | Collected(data: DenseData)

  /** `if results and 'mmlu' in results`. */
  predicate DenseKeep(e: Entry<TaskResults>) {
    e.payload.Parsed? && |e.payload.value| > 0 && "mmlu" in e.payload.value
  }

  /** `results['mmlu'].get('acc,none', 0)`, as a percentage. */
  function DenseAcc(e: Entry<TaskResults>): real {
    if e.payload.Parsed? && "mmlu" in e.payload.value then
      100.0 * FirstPresent(e.payload.value["mmlu"], ["acc,none"]).GetOr(0.0)
    else 0.0
  }

  /** `results['mmlu'].get('acc_norm,none', acc)`, as a percentage. */
  function DenseAccNorm(e: Entry<TaskResults>): real {
    if e.payload.Parsed? && "mmlu" in e.payload.value then
      100.0 * FirstPresent(e.payload.value["mmlu"], ["acc_norm,none"]).GetOr(FirstPresent(e.payload.value["mmlu"], ["acc,none"]).GetOr(0.0))
    else 0.0
  }

  /** Every results file of `xs` that exists parses. */
  predicate AllReadable(xs: seq<Entry<TaskResults>>) {
    forall k :: 0 <= k < |xs| ==> !xs[k].payload.Unreadable?
  }

  /** The name of the first checkpoint in visiting order whose results file does not parse. */
  function FirstUnreadable(ord: seq<Entry<TaskResults>>): Option<string>
    decreases |ord|
  {
    if ord == [] then None
    else match FirstUnreadable(ord[..|ord| - 1])
      case Some(n) => Some(n)
      case None => if ord[|ord| - 1].payload.Unreadable? then Some(ord[|ord| - 1].name) else None
  }

  /** There is no failure exactly when every results file parses. */
  lemma {:induction false} FirstUnreadableNone(ord: seq<Entry<TaskResults>>)
    ensures FirstUnreadable(ord).None? <==> AllReadable(ord)
    decreases |ord|
  {
    if ord != [] {
      var init := ord[..|ord| - 1];
      FirstUnreadableNone(init);
      if AllReadable(ord) {
        assert AllReadable(init) by {
          forall k | 0 <= k < |init| ensures !init[k].payload.Unreadable? {
            assert init[k] == ord[k];
          }
        }
      }
      if FirstUnreadable(ord).None? {
        forall k | 0 <= k < |ord| ensures !ord[k].payload.Unreadable? {
          if k < |init| { assert init[k] == ord[k]; }
        }
      }
    }
  }

  /** A failure named by a prefix of the visiting order is the failure of the whole order. */
  lemma {:induction false} FirstUnreadableExtend(ord: seq<Entry<TaskResults>>, i: nat)
    requires i <= |ord| && FirstUnreadable(ord[..i]).Some?
    ensures FirstUnreadable(ord) == FirstUnreadable(ord[..i])
    decreases |ord| - i
  {
    if i < |ord| {
      assert ord[..i + 1][..i] == ord[..i];
      FirstUnreadableExtend(ord, i + 1);
    } else {
      assert ord[..i] == ord;
    }
  }

  /** A failure names an unreadable checkpoint every one before which is readable. */
  lemma {:induction false} FirstUnreadableIsFirst(ord: seq<Entry<TaskResults>>) returns (k: nat)
    requires FirstUnreadable(ord).Some?
    ensures k < |ord| && ord[k].payload.Unreadable? && ord[k].name == FirstUnreadable(ord).value
    ensures AllReadable(ord[..k])
    decreases |ord|
  {
    var init := ord[..|ord| - 1];
    if FirstUnreadable(init).Some? {
      k := FirstUnreadableIsFirst(init);
      assert ord[..k] == init[..k];
    } else {
      k := |ord| - 1;
      FirstUnreadableNone(init);
    }
  }

  /** The loop's step: the failure of one more checkpoint, given none so far. */
  lemma FirstUnreadableStep(ord: seq<Entry<TaskResults>>, i: nat)
    requires i < |ord| && FirstUnreadable(ord[..i]).None?
    ensures FirstUnreadable(ord[..i + 1]) == if ord[i].payload.Unreadable? then Some(ord[i].name) else None
  {
    assert ord[..i + 1][..i] == ord[..i];
  }

  /** The lists built from the kept checkpoints `kept`. */
  function DataOf(kept: seq<Entry<TaskResults>>): (d: DenseData)
    ensures |d.checkpoints| == |d.iterNumbers| == |d.acc| == |d.accNorm| == |kept|
  {
    DenseData(NamesOf(kept), IterNumbersOf(kept), ValuesOf(kept, DenseAcc), ValuesOf(kept, DenseAccNorm))
  }

  lemma DataOfSnoc(kept: seq<Entry<TaskResults>>, e: Entry<TaskResults>)
    ensures var d := DataOf(kept);
            DataOf(kept + [e]) == DenseData(d.checkpoints + [e.name], d.iterNumbers + [IterOf(e)],
                                            d.acc + [DenseAcc(e)], d.accNorm + [DenseAccNorm(e)])
  {
    ListsSnoc(kept, e, DenseAcc);
    ListsSnoc(kept, e, DenseAccNorm);
  }

  /** What the collection phase of `main` ends with. */
  function DenseOutcome(dirExists: bool, listing: seq<Entry<TaskResults>>): Outcome {
    if !dirExists then MissingResultsDir
    else if Select(listing, IsDirectory) == [] then EmptyResultsDir
    else
      PassOutcome(CheckpointOrder(listing))
  }

  /** What the loop over the visiting order `ord` ends with. */
  function PassOutcome(ord: seq<Entry<TaskResults>>): Outcome {
    match FirstUnreadable(ord)
    case Some(n) => LoadFailure(n)
    case None =>
      var kept := Select(ord, DenseKeep);
      if kept == [] then NoResults else Collected(DataOf(kept))
  }

  /** The collection phase of `main`. */
  method CollectDense(dirExists: bool, listing: seq<Entry<TaskResults>>) returns (r: Outcome)
    ensures r == DenseOutcome(dirExists, listing)
  {
    if !dirExists {
      return MissingResultsDir;
    }
    var dirs := SortByName(Select(listing, IsDirectory));
    if dirs == [] {
      return EmptyResultsDir;
    }
    r := DensePass(SortByIter(dirs));
  }

  /** The loop of `main` over the checkpoints in visiting order `ord`, and its `if not checkpoints` test. */
  method DensePass(ord: seq<Entry<TaskResults>>) returns (r: Outcome)
    ensures r == PassOutcome(ord)
  {
    var failure, data := DenseLoop(ord);
    if failure.Some? {
      return LoadFailure(failure.value);
    }
    if data.checkpoints == [] {
      return NoResults;
    }
    r := Collected(data);
  }

  /**
   * The loop itself: it stops at the first results file that does not
   * parse; otherwise it ends with the lists of the kept checkpoints.
   */
  method DenseLoop(ord: seq<Entry<TaskResults>>) returns (failure: Option<string>, data: DenseData)
    ensures failure == FirstUnreadable(ord)
    ensures failure.None? ==> data == DataOf(Select(ord, DenseKeep))
  {
    var checkpoints, iterNumbers, acc, accNorm := [], [], [], [];
    ghost var kept: seq<Entry<TaskResults>> := [];
    failure := None;
    var i := 0;
    while i < |ord|
      invariant 0 <= i <= |ord|
      invariant failure.None? && FirstUnreadable(ord[..i]).None?
      invariant kept == Select(ord[..i], DenseKeep)
      invariant DenseData(checkpoints, iterNumbers, acc, accNorm) == DataOf(kept)
    {
      var e := ord[i];
      FirstUnreadableStep(ord, i);
      if e.payload.Unreadable? {
        FirstUnreadableExtend(ord, i + 1);
        failure := Some(e.name);
        break;
      }
      SelectPrefix(ord, i, DenseKeep);
      if DenseKeep(e) {
        DataOfSnoc(kept, e);
        checkpoints := checkpoints + [e.name];
        iterNumbers := iterNumbers + [ExtractIterNumber(e.name)];
        acc := acc + [DenseAcc(e)];
        accNorm := accNorm + [DenseAccNorm(e)];
        kept := kept + [e];
      }
      i := i + 1;
    }
    if failure.None? {
      assert ord[..i] == ord;
    }
    data := DenseData(checkpoints, iterNumbers, acc, accNorm);
  }

  /** `acc_norm` falls back to `acc`, which falls back to 0: the same value as the comparison script's MC accuracy. */
  lemma DenseAccNormFallback(e: Entry<TaskResults>)
    requires e.payload.Parsed? && "mmlu" in e.payload.value
    ensures var m := e.payload.value["mmlu"];
            DenseAccNorm(e) == 100.0 * FirstPresent(m, ["acc_norm,none", "acc,none"]).GetOr(0.0)
            && DenseAcc(e) == (if "acc,none" in m then 100.0 * m["acc,none"] else 0.0)
            && ("acc_norm,none" !in m ==> DenseAccNorm(e) == DenseAcc(e))
  {
    var m := e.payload.value["mmlu"];
    var keys := ["acc_norm,none", "acc,none"];
    assert keys[1..] == ["acc,none"];
  }

  /** The visited checkpoint at position `i` of the kept list is a directory of the listing with `mmlu` results. */
  lemma KeptIsListed(listing: seq<Entry<TaskResults>>, i: nat)
    requires i < |Select(CheckpointOrder(listing), DenseKeep)|
    ensures var e := Select(CheckpointOrder(listing), DenseKeep)[i];
            e in listing && e.isDir && DenseKeep(e)
  {
    var kept := Select(CheckpointOrder(listing), DenseKeep);
    assert kept[i] in kept;
  }

  /**
   * What the collected lists promise: four lists of one length, in training
   * order, each position the name, iteration number and both accuracies of
   * one directory with `mmlu` results, and every such directory present.
   */
  lemma CollectedProperties(dirExists: bool, listing: seq<Entry<TaskResults>>)
    requires DenseOutcome(dirExists, listing).Collected?
    ensures var d := DenseOutcome(dirExists, listing).data;
            && |d.checkpoints| == |d.iterNumbers| == |d.acc| == |d.accNorm| > 0
            && (forall i :: 0 <= i < |d.checkpoints| ==> d.iterNumbers[i] == ExtractIterNumber(d.checkpoints[i]))
            && (forall i, j :: 0 <= i < j < |d.iterNumbers| ==> d.iterNumbers[i] <= d.iterNumbers[j])
            && (forall e :: e in listing && e.isDir && DenseKeep(e) ==> e.name in d.checkpoints)
            && (forall i :: 0 <= i < |d.checkpoints| ==> RecordedAt(listing, d, i))
  {
    var ord := CheckpointOrder(listing);
    var kept := Select(ord, DenseKeep);
    CollectedIsDataOf(dirExists, listing);
    var d := DataOf(kept);
    SelectKeepsIterSorted(ord, DenseKeep);
    DataOfSortedAligned(kept);
    KeptIncluded(listing, d);
    forall i | 0 <= i < |d.checkpoints| ensures RecordedAt(listing, d, i) {
      KeptIsListed(listing, i);
    }
  }

  lemma CollectedIsDataOf(dirExists: bool, listing: seq<Entry<TaskResults>>)
    requires DenseOutcome(dirExists, listing).Collected?
    ensures var kept := Select(CheckpointOrder(listing), DenseKeep);
            kept != [] && DenseOutcome(dirExists, listing).data == DataOf(kept)
  {
  }

  lemma DataOfSortedAligned(kept: seq<Entry<TaskResults>>)
    requires IterSorted(kept)
    ensures var d := DataOf(kept);
            && (forall i :: 0 <= i < |d.checkpoints| ==> d.iterNumbers[i] == ExtractIterNumber(d.checkpoints[i]))
            && (forall i, j :: 0 <= i < j < |d.iterNumbers| ==> d.iterNumbers[i] <= d.iterNumbers[j])
  {
  }

  lemma KeptIncluded(listing: seq<Entry<TaskResults>>, d: DenseData)
    requires d == DataOf(Select(CheckpointOrder(listing), DenseKeep))
    ensures forall e :: e in listing && e.isDir && DenseKeep(e) ==> e.name in d.checkpoints
  {
    var ord := CheckpointOrder(listing);
    forall e | e in listing && e.isDir && DenseKeep(e) ensures e.name in d.checkpoints {
      assert e in ord;
      KeptAt(ord, DenseKeep, e);
    }
  }

  /** Position `i` of the lists comes from one directory of the listing with `mmlu` results. */
  ghost predicate RecordedAt(listing: seq<Entry<TaskResults>>, d: DenseData, i: nat)
    requires i < |d.checkpoints| && i < |d.acc| && i < |d.accNorm|
  {
    exists e :: e in listing && e.isDir && DenseKeep(e) && e.name == d.checkpoints[i]
                && d.acc[i] == DenseAcc(e) && d.accNorm[i] == DenseAccNorm(e)
  }

  /** A results file that does not parse ends the run, even after checkpoints were collected. */
  lemma LoadFailureWins(dirExists: bool, listing: seq<Entry<TaskResults>>, e: Entry<TaskResults>)
    requires dirExists && e in listing && e.isDir && e.payload.Unreadable?
    ensures DenseOutcome(dirExists, listing).LoadFailure?
  {
    var ord := CheckpointOrder(listing);
    assert e in ord;
    assert e in Select(listing, IsDirectory);
    var k :| 0 <= k < |ord| && ord[k] == e;
    FirstUnreadableNone(ord);
  }

  /**
   * The checkpoint a load failure names is a directory of the listing whose
   * results file does not parse, and every checkpoint visited before it parsed.
   */
  lemma LoadFailureNamesFirst(dirExists: bool, listing: seq<Entry<TaskResults>>) returns (k: nat)
    requires DenseOutcome(dirExists, listing).LoadFailure?
    ensures var ord := CheckpointOrder(listing);
            && k < |ord| && ord[k] in listing && ord[k].isDir && ord[k].payload.Unreadable?
            && ord[k].name == DenseOutcome(dirExists, listing).checkpoint
            && AllReadable(ord[..k])
  {
    var ord := CheckpointOrder(listing);
    k := FirstUnreadableIsFirst(ord);
    assert ord[k] in ord;
  }

  // ------------------------------------------------------------------
  // Reading the lists

  /** `range(0, n, 4)`: the positions whose `acc_norm` is annotated on the curve. */
  method AnnotatedIndices(n: nat) returns (idx: seq<nat>)
    ensures |idx| == (n + 3) / 4
    ensures forall k :: 0 <= k < |idx| ==> idx[k] == 4 * k
    ensures forall j: nat :: j in idx <==> j < n && j % 4 == 0
  {
    idx := [];
    var i := 0;
    while i < n
      invariant i % 4 == 0 && i <= n + 3
      invariant |idx| == i / 4
      invariant forall k :: 0 <= k < |idx| ==> idx[k] == 4 * k
    {
      idx := idx + [i];
      i := i + 4;
    }
    assert |idx| == (n + 3) / 4;
    forall j: nat ensures j in idx <==> j < n && j % 4 == 0 {
      if j < n && j % 4 == 0 {
        assert idx[j / 4] == j;
      }
    }
  }

  /** The bar chart of the first and the last checkpoint. */
  datatype Comparison = Comparison(firstLabel: string, lastLabel: string,
                                   firstAcc: real, firstNorm: real, lastAcc: real, lastNorm: real,
                                   gainAcc: real, gainNorm: real)

  /** The first/last comparison, drawn only when there are at least two checkpoints. */
  function FirstLast(d: DenseData): (r: Option<Comparison>)
    requires |d.checkpoints| == |d.acc| == |d.accNorm|
    ensures r.Some? <==> |d.checkpoints| >= 2
    ensures r.Some? ==> var n := |d.checkpoints| - 1;
            && r.value.firstLabel == d.checkpoints[0] && r.value.lastLabel == d.checkpoints[n]
            && r.value.firstAcc == d.acc[0] && r.value.firstNorm == d.accNorm[0]
            && r.value.lastAcc == d.acc[n] && r.value.lastNorm == d.accNorm[n]
            && r.value.firstAcc + r.value.gainAcc == r.value.lastAcc
            && r.value.firstNorm + r.value.gainNorm == r.value.lastNorm
  {
    if |d.checkpoints| < 2 then None
    else
      var n := |d.checkpoints| - 1;
      Some(Comparison(d.checkpoints[0], d.checkpoints[n], d.acc[0], d.accNorm[0], d.acc[n], d.accNorm[n],
                      d.acc[n] - d.acc[0], d.accNorm[n] - d.accNorm[0]))
  }

  /** The checkpoints reported with the lowest and the highest `acc_norm`. */
  datatype ExtremeCheckpoints = ExtremeCheckpoints(lowest: string, lowestAcc: real, highest: string, highestAcc: real)

  /** `checkpoints[acc_norm.index(min(acc_norm))]` and the same for `max`, when the list is non-empty. */
  function LowestHighest(d: DenseData): (r: Option<ExtremeCheckpoints>)
    requires |d.checkpoints| == |d.accNorm|
    ensures r.None? <==> d.accNorm == []
    ensures r.Some? ==>
              && r.value.lowest == d.checkpoints[ArgMinFirst(d.accNorm)] && r.value.lowestAcc == d.accNorm[ArgMinFirst(d.accNorm)]
              && r.value.highest == d.checkpoints[ArgMaxFirst(d.accNorm)] && r.value.highestAcc == d.accNorm[ArgMaxFirst(d.accNorm)]
  {
    if d.accNorm == [] then None
    else
      var lo, hi := MinOf(d.accNorm), MaxOf(d.accNorm);
      IndexOfMin(d.accNorm);
      IndexOfMax(d.accNorm);
      Some(ExtremeCheckpoints(d.checkpoints[IndexOf(d.accNorm, lo)], lo, d.checkpoints[IndexOf(d.accNorm, hi)], hi))
  }
}
