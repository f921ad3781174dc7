/**
 * The bookkeeping of the question viewer for lm-eval sample files
 * (`samples_<task>_<timestamp>.jsonl`, one JSON record per line): which
 * file a task name finds, which task names a results directory offers,
 * the answer the model chose for one record and whether it was right,
 * the correct/total counters of the statistics mode, the questions the
 * viewer shows, and how the command line picks a mode.
 *
 * Glob results are inputs: `nested` lists, in the order glob returns them,
 * the files one level below the results directory, and `flat` the files
 * directly in it.  Each file comes with its final name and its lines.
 */
module ViewQuestions {
  import opened Wrappers
  import opened Text
  import opened Numerals
  import opened Ordering
  import opened Extremes
  import Checkpoints

  /** The JSON value `int(data['target'])` is applied to. */
  datatype JsonValue = JInt(n: int) | JString(s: string) | JBool(b: bool) | JOther

  /**
   * The members of one sample record the script reads, `None` where the
   * member is absent: `doc` (only its presence), `filtered_resps` (each
   * response a list whose first element is its score) and `target`.
   */
  datatype Sample = Sample(hasDoc: bool, filteredResps: Option<seq<seq<real>>>, target: Option<JsonValue>)

  /** A line of a samples file: `json.loads` raised on it, or the record it parsed to. */
  datatype Line = Malformed | Record(sample: Sample)

  /** A file a glob returned: its path, `Path(path).name`, and its lines. */
  datatype SampleFile = SampleFile(path: string, name: string, lines: seq<Line>)

  /** What `format_question` and `show_statistics` work out for one record. */
  datatype Judgement = Judgement(modelAnswer: nat, target: int, isCorrect: bool)

  // ------------------------------------------------------------------
  // Judging one record
  // ------------------------------------------------------------------

  /** `int(v)`, or `None` where Python raises. */
  function TargetValue(v: JsonValue): Option<int> {
    match v
    case JInt(n) => Some(n)
    case JString(s) => ParseInt(s)
    case JBool(b) => Some(if b then 1 else 0)
    case JOther => None
  }

  /** Every response has a first element, so `s[0]` does not raise. */
  predicate AllNonEmpty(resps: seq<seq<real>>) {
    forall k :: 0 <= k < |resps| ==> |resps[k]| > 0
  }

  /** `[s[0] for s in filtered_resps]`. */
  function Scores(resps: seq<seq<real>>): seq<real>
    requires AllNonEmpty(resps)
  {
    seq(|resps|, k requires 0 <= k < |resps| => resps[k][0])
  }

  /** The record can be judged: no step of the judgement raises. */
  predicate Judgeable(s: Sample) {
    && s.filteredResps.Some? && AllNonEmpty(s.filteredResps.value) && |s.filteredResps.value| > 0
    && s.target.Some? && TargetValue(s.target.value).Some?
  }

  /**
   * `model_answer = scores.index(max(scores))` and `model_answer == int(target)`;
   * `None` where a step raises: `filtered_resps` or `target` missing, an
   * empty response, no responses (`max` of an empty list), or a target
   * `int` rejects.  The answer is the first position of the highest score.
   */
  function Judge(s: Sample): (r: Option<Judgement>)
    ensures r.Some? <==> Judgeable(s)
    ensures r.Some? ==>
              var scores := Scores(s.filteredResps.value);
              var a := r.value.modelAnswer;
              && a < |scores|
              && (forall k :: 0 <= k < |scores| ==> scores[k] <= scores[a])
              && (forall k :: 0 <= k < a ==> scores[k] < scores[a])
              && r.value.target == TargetValue(s.target.value).value
              && (r.value.isCorrect <==> a == r.value.target)
  {
    if !Judgeable(s) then None
    else
      var scores := Scores(s.filteredResps.value);
      var target := TargetValue(s.target.value).value;
      var answer := IndexOf(scores, MaxOf(scores));
      assert forall k :: 0 <= k < |scores| ==> scores[k] <= scores[answer] by {
        forall k | 0 <= k < |scores| ensures scores[k] <= scores[answer] {
          assert scores[k] in scores;
        }
      }
      Some(Judgement(answer, target, answer == target))
  }

  /** The judgement names the same position as the first-maximum reference. */
  lemma JudgeIsArgMaxFirst(s: Sample)
    requires Judgeable(s)
    ensures Judge(s).value.modelAnswer == ArgMaxFirst(Scores(s.filteredResps.value))
  {
    IndexOfMax(Scores(s.filteredResps.value));
  }

  /** `format_question` reads `data['doc']` before judging; any failure raises. */
  function FormatQuestion(s: Sample): Option<Judgement> {
    if s.hasDoc then Judge(s) else None
  }

  /** The record counts as answered correctly. */
  predicate IsCorrect(s: Sample) {
    Judge(s).Some? && Judge(s).value.isCorrect
  }

  // ------------------------------------------------------------------
  // Reading a samples file and counting
  // ------------------------------------------------------------------

  /** The records of the lines that parse, in file order. */
  function ParsedSamples(lines: seq<Line>): (r: seq<Sample>)
    ensures |r| <= |lines|
    decreases |lines|
  {
    if lines == [] then []
    else
      var last := lines[|lines| - 1];
      ParsedSamples(lines[..|lines| - 1]) + (if last.Record? then [last.sample] else [])
  }

  lemma ParsedSamplesPrefix(lines: seq<Line>, i: nat)
    requires i < |lines|
    ensures ParsedSamples(lines[..i + 1]) == ParsedSamples(lines[..i]) + (if lines[i].Record? then [lines[i].sample] else [])
  {
    assert lines[..i + 1][..i] == lines[..i];
  }

  /** Dropping unparsable lines keeps file order: it works piece by piece. */
  lemma {:induction false} ParsedSamplesConcat(a: seq<Line>, b: seq<Line>)
    ensures ParsedSamples(a + b) == ParsedSamples(a) + ParsedSamples(b)
    decreases |b|
  {
    if b == [] {
      assert a + b == a;
    } else {
      var b', last := b[..|b| - 1], b[|b| - 1];
      var tail := if last.Record? then [last.sample] else [];
      assert (a + b)[..|a + b| - 1] == a + b';
      assert (a + b)[|a + b| - 1] == last;
      assert ParsedSamples(a + b) == ParsedSamples(a + b') + tail;
      ParsedSamplesConcat(a, b');
      assert ParsedSamples(b) == ParsedSamples(b') + tail;
    }
  }

  /** Exactly the records of the file survive. */
  lemma {:induction false} ParsedSamplesMembers(lines: seq<Line>, s: Sample)
    ensures s in ParsedSamples(lines) <==> Record(s) in lines
    decreases |lines|
  {
    if lines != [] {
      var init := lines[..|lines| - 1];
      assert lines == init + [lines[|lines| - 1]];
      ParsedSamplesMembers(init, s);
    }
  }

  /** The number of records judged correct. */
  function CorrectCount(qs: seq<Sample>): (n: nat)
    ensures n <= |qs|
    decreases |qs|
  {
    if qs == [] then 0
    else CorrectCount(qs[..|qs| - 1]) + (if IsCorrect(qs[|qs| - 1]) then 1 else 0)
  }

  lemma CorrectCountSnoc(qs: seq<Sample>, s: Sample)
    ensures CorrectCount(qs + [s]) == CorrectCount(qs) + (if IsCorrect(s) then 1 else 0)
  {
    assert (qs + [s])[..|qs|] == qs;
  }

  /**
   * The counting loop of `show_statistics`: `total` grows for every line
   * that parses, `correct` for every one whose judgement succeeds and
   * matches; the exception handler skips the rest of a line's step.
   */
  method CountSamples(lines: seq<Line>) returns (correct: nat, total: nat)
    ensures total == |ParsedSamples(lines)|
    ensures correct == CorrectCount(ParsedSamples(lines))
  {
    correct, total := 0, 0;
    ghost var qs: seq<Sample> := [];
    var i := 0;
    while i < |lines|
      invariant 0 <= i <= |lines|
      invariant qs == ParsedSamples(lines[..i])
      invariant total == |qs| && correct == CorrectCount(qs)
    {
      ParsedSamplesPrefix(lines, i);
      if lines[i].Record? {
        var s := lines[i].sample;
        CorrectCountSnoc(qs, s);
        total := total + 1;
        qs := qs + [s];
        var j := Judge(s);
        if j.Some? && j.value.isCorrect {
          correct := correct + 1;
        }
      }
      i := i + 1;
    }
    assert lines[..i] == lines;
  }

  /** A line that does not parse changes neither counter. */
  lemma MalformedLineIgnored(lines: seq<Line>)
    ensures ParsedSamples(lines + [Malformed]) == ParsedSamples(lines)
  {
    assert (lines + [Malformed])[..|lines|] == lines;
  }

  /** A parsed record that cannot be judged counts in `total` and never in `correct`. */
  lemma UnjudgedRecordCounted(lines: seq<Line>, s: Sample)
    requires !Judgeable(s)
    ensures |ParsedSamples(lines + [Record(s)])| == |ParsedSamples(lines)| + 1
    ensures CorrectCount(ParsedSamples(lines + [Record(s)])) == CorrectCount(ParsedSamples(lines))
  {
    assert (lines + [Record(s)])[..|lines|] == lines;
    CorrectCountSnoc(ParsedSamples(lines), s);
  }

  /** `correct / total if total > 0 else 0`. */
  function Accuracy(correct: nat, total: nat): (a: real)
    ensures total == 0 ==> a == 0.0
    ensures total > 0 ==> a * total as real == correct as real
    ensures correct <= total ==> 0.0 <= a <= 1.0
  {
    if total > 0 then correct as real / total as real else 0.0
  }

  // ------------------------------------------------------------------
  // Finding files and listing tasks
  // ------------------------------------------------------------------

  /** The file name matches `samples_<task>_*.jsonl`. */
  predicate IsTaskFile(task: string, f: SampleFile) {
    GlobMatch(f.name, "samples_" + task + "_", ".jsonl")
  }

  /** The file name matches `samples_*.jsonl`. */
  predicate IsSampleFile(f: SampleFile) {
    GlobMatch(f.name, "samples_", ".jsonl")
  }

  /** The position of the first file of `files` matching the task's pattern. */
  function FirstTaskFile(task: string, files: seq<SampleFile>): (r: Option<nat>)
    ensures r.None? <==> forall k :: 0 <= k < |files| ==> !IsTaskFile(task, files[k])
    ensures r.Some? ==> r.value < |files| && IsTaskFile(task, files[r.value])
    ensures r.Some? ==> forall k :: 0 <= k < r.value ==> !IsTaskFile(task, files[k])
    decreases |files|
  {
    if files == [] then None
    else if IsTaskFile(task, files[0]) then Some(0)
    else match FirstTaskFile(task, files[1..])
      case None =>
        assert forall k :: 0 < k < |files| ==> files[k] == files[1..][k - 1];
        None
      case Some(k) => Some(k + 1)
  }

  /**
   * `find_sample_file`: the first match of the nested pattern, or when
   * there is none the first match of the flat pattern, or `None`.
   */
  function FindSampleFile(task: string, nested: seq<SampleFile>, flat: seq<SampleFile>): (r: Option<SampleFile>)
    ensures r.Some? ==> IsTaskFile(task, r.value) && (r.value in nested || r.value in flat)
    ensures r.None? <==> FirstTaskFile(task, nested).None? && FirstTaskFile(task, flat).None?
    ensures FirstTaskFile(task, nested).Some? ==> r == Some(nested[FirstTaskFile(task, nested).value])
    ensures FirstTaskFile(task, nested).None? && r.Some? ==> r == Some(flat[FirstTaskFile(task, flat).value])
  {
    match FirstTaskFile(task, nested)
    case Some(k) => Some(nested[k])
    case None =>
      match FirstTaskFile(task, flat)
      case Some(k) => Some(flat[k])
      case None => None
  }

  /** A file of the nested level wins over every flat one, wherever it is listed. */
  lemma NestedFileWins(task: string, nested: seq<SampleFile>, flat: seq<SampleFile>, f: SampleFile)
    requires f in nested && IsTaskFile(task, f)
    ensures FindSampleFile(task, nested, flat).Some?
    ensures FindSampleFile(task, nested, flat).value in nested
  {
    var k :| 0 <= k < |nested| && nested[k] == f;
  }

  /** The files `samples_*.jsonl` lists: the nested ones, or the flat ones when no nested one matches. */
  function SampleFiles(nested: seq<SampleFile>, flat: seq<SampleFile>): (r: seq<SampleFile>)
    ensures (exists g :: g in nested && IsSampleFile(g)) ==> forall f :: f in r <==> f in nested && IsSampleFile(f)
    ensures (forall g :: g in nested ==> !IsSampleFile(g)) ==> forall f :: f in r <==> f in flat && IsSampleFile(f)
  {
    var n := Checkpoints.Select(nested, IsSampleFile);
    if n != [] then assert n[0] in n; n else Checkpoints.Select(flat, IsSampleFile)
  }

  /**
   * `name.replace('samples_', '').rsplit('_', 1)[0]`: with every
   * `samples_` removed, the part before the last `_`, or the whole
   * remainder when no `_` is left.
   */
  function TaskName(name: string): string {
    BeforeLast(RemoveAll(name, "samples_"), '_')
  }

  /**
   * The task name is the whole remainder when it has no `_`, and otherwise
   * the part before its last `_`.
   */
  lemma TaskNameShape(name: string) returns (tail: string)
    ensures var rest := RemoveAll(name, "samples_");
            && ('_' !in rest ==> TaskName(name) == rest)
            && ('_' in rest ==> rest == TaskName(name) + "_" + tail && '_' !in tail)
  {
    var rest := RemoveAll(name, "samples_");
    tail := "";
    if '_' in rest {
      BeforeLastSplits(rest, '_');
      tail := rest[|TaskName(name)| + 1..];
    } else {
      BeforeLastWithout(rest, '_');
    }
  }

  /** The name lm-eval gives a task's samples file yields that task back. */
  lemma TaskNameOfSampleFile(task: string, stamp: string)
    requires '_' !in stamp
    requires !Occurs("samples_", task + "_" + stamp + ".jsonl")
    ensures TaskName("samples_" + task + "_" + stamp + ".jsonl") == task
  {
    var tail := stamp + ".jsonl";
    assert '_' !in tail by {
      forall j | 0 <= j < |tail| ensures tail[j] != '_' {
        if j < |stamp| { assert tail[j] == stamp[j]; }
      }
    }
    var rest := task + "_" + stamp + ".jsonl";
    assert rest == task + ['_'] + tail;
    assert "samples_" + task + "_" + stamp + ".jsonl" == "samples_" + rest;
    TaskNameOfJoin(rest, task, tail);
  }

  lemma TaskNameOfJoin(rest: string, task: string, tail: string)
    requires rest == task + ['_'] + tail && '_' !in tail
    requires !Occurs("samples_", rest)
    ensures TaskName("samples_" + rest) == task
  {
    RemoveAllLeading("samples_", rest);
    RemoveAllWithoutOccurrence(rest, "samples_");
    BeforeLastOfJoin(task, '_', tail);
    assert RemoveAll("samples_" + rest, "samples_") == rest;
    assert BeforeLast(rest, '_') == task;
  }

  /** `f` starts with `samples_` and yields the task name `t`. */
  predicate Gives(f: SampleFile, t: string) {
    HasPrefix(f.name, "samples_") && TaskName(f.name) == t
  }

  /** `t` is the task name of some file of `files` that starts with `samples_`. */
  ghost predicate Offers(files: seq<SampleFile>, t: string) {
    exists k :: 0 <= k < |files| && Gives(files[k], t)
  }

  /**
   * The task listing of `view_questions` and `main`: the task names of the
   * sample files, each once, in ascending order.
   */
  method ListAvailableTasks(nested: seq<SampleFile>, flat: seq<SampleFile>) returns (tasks: seq<string>)
    ensures StrictlySorted(tasks)
    ensures forall t :: t in tasks <==> Offers(SampleFiles(nested, flat), t)
  {
    var files := SampleFiles(nested, flat);
    var found: set<string> := {};
    var i := 0;
    while i < |files|
      invariant 0 <= i <= |files|
      invariant Lists(found, files[..i])
    {
      var name := files[i].name;
      ListsStep(found, files, i);
      if HasPrefix(name, "samples_") {
        found := found + {TaskName(name)};
      }
      i := i + 1;
    }
    assert files[..i] == files;
    tasks := SortedNames(found);
  }

  /** `found` holds exactly the task names some file of `files` offers. */
  ghost predicate Lists(found: set<string>, files: seq<SampleFile>) {
    forall t :: t in found <==> Offers(files, t)
  }

  /** The set after one more file: its task name added when it is a samples file. */
  function Noted(found: set<string>, f: SampleFile): set<string> {
    if HasPrefix(f.name, "samples_") then found + {TaskName(f.name)} else found
  }

  lemma ListsStep(found: set<string>, files: seq<SampleFile>, i: nat)
    requires i < |files| && Lists(found, files[..i])
    ensures Lists(Noted(found, files[i]), files[..i + 1])
  {
    OffersPrefix(files, i);
  }

  lemma OffersPrefix(files: seq<SampleFile>, i: nat)
    requires i < |files|
    ensures forall t :: Offers(files[..i + 1], t) <==> Offers(files[..i], t) || Gives(files[i], t)
  {
    var p := files[..i + 1];
    forall t ensures Offers(p, t) <==> Offers(files[..i], t) || Gives(files[i], t) {
      if Offers(p, t) {
        var k :| 0 <= k < |p| && Gives(p[k], t);
        if k < i { assert files[..i][k] == p[k]; }
      }
      if Offers(files[..i], t) {
        var k :| 0 <= k < i && Gives(files[..i][k], t);
        assert p[k] == files[..i][k];
      }
      if Gives(files[i], t) {
        assert p[i] == files[i];
      }
    }
  }

  // ------------------------------------------------------------------
  // The viewer, the statistics mode and the command line
  // ------------------------------------------------------------------

  /**
   * The questions shown: the first ones of the file, with what the display
   * loop showed of them and whether it raised, or a random sample of this
   * many (whose members, and so their display, are not modelled).
   */
  datatype Selection = FirstQuestions(questions: seq<Sample>, shown: seq<Judgement>, raised: bool) | RandomSample(count: nat)

  /**
   * `shown` is what the display loop shows of `selected`: the judgements of
   * the questions before the first one `format_question` cannot handle, and
   * `raised` says whether it met one.
   */
  predicate Displayed(selected: seq<Sample>, shown: seq<Judgement>, raised: bool) {
    && |shown| <= |selected|
    && (forall k :: 0 <= k < |shown| ==> FormatQuestion(selected[k]) == Some(shown[k]))
    && (raised <==> |shown| < |selected|)
    && (raised ==> FormatQuestion(selected[|shown|]).None?)
  }

  datatype ViewOutcome =
    | TaskNotFound(available: seq<string>)    // no samples file; the task listing is printed
    | Shown(path: string, total: nat, selection: Selection)

  /** `for line in f: try: questions.append(json.loads(line)) except: continue`. */
  method ReadQuestions(lines: seq<Line>) returns (questions: seq<Sample>)
    ensures questions == ParsedSamples(lines)
  {
    questions := [];
    var i := 0;
    while i < |lines|
      invariant 0 <= i <= |lines|
      invariant questions == ParsedSamples(lines[..i])
    {
      ParsedSamplesPrefix(lines, i);
      if lines[i].Record? {
        questions := questions + [lines[i].sample];
      }
      i := i + 1;
    }
    assert lines[..i] == lines;
  }

  /**
   * What `view_questions` does for `task`: without a samples file, the task
   * listing; otherwise the parsed questions and the selection: a random
   * sample when asked for and fewer questions are wanted than there are,
   * else the first `min(num_questions, total)` questions in file order,
   * displayed in turn.
   */
  ghost predicate Viewed(task: string, numQuestions: nat, randomSample: bool, nested: seq<SampleFile>, flat: seq<SampleFile>,
                         r: ViewOutcome)
  {
    && (FindSampleFile(task, nested, flat).None? ==>
          && r.TaskNotFound? && StrictlySorted(r.available)
          && forall t :: t in r.available <==> Offers(SampleFiles(nested, flat), t))
    && (FindSampleFile(task, nested, flat).Some? ==>
          var f := FindSampleFile(task, nested, flat).value;
          var qs := ParsedSamples(f.lines);
          && r.Shown? && r.path == f.path && r.total == |qs|
          && (randomSample && numQuestions < |qs| ==> r.selection == RandomSample(numQuestions))
          && (!(randomSample && numQuestions < |qs|) ==>
                && r.selection.FirstQuestions?
                && r.selection.questions == qs[..if numQuestions < |qs| then numQuestions else |qs|]
                && Displayed(r.selection.questions, r.selection.shown, r.selection.raised)))
  }

  /** `view_questions`, as `Viewed` states. */
  method ViewQuestions(task: string, numQuestions: nat, randomSample: bool, nested: seq<SampleFile>, flat: seq<SampleFile>)
    returns (r: ViewOutcome)
    ensures Viewed(task, numQuestions, randomSample, nested, flat, r)
  {
    var found := FindSampleFile(task, nested, flat);
    if found.None? {
      var tasks := ListAvailableTasks(nested, flat);
      return TaskNotFound(tasks);
    }
    var questions := ReadQuestions(found.value.lines);
    var total := |questions|;
    if randomSample && numQuestions < total {
      r := Shown(found.value.path, total, RandomSample(numQuestions));
    } else {
      var n := if numQuestions < total then numQuestions else total;
      var shown, raised := FormatSelected(questions[..n]);
      r := Shown(found.value.path, total, FirstQuestions(questions[..n], shown, raised));
    }
  }

  /** The prefix selection is the first questions of the file, as many as asked for and there are. */
  lemma FirstQuestionsArePrefix(lines: seq<Line>, numQuestions: nat)
    ensures var qs := ParsedSamples(lines);
            var sel := qs[..if numQuestions < |qs| then numQuestions else |qs|];
            && |sel| == (if numQuestions < |qs| then numQuestions else |qs|)
            && (forall k :: 0 <= k < |sel| ==> sel[k] == qs[k])
            && (numQuestions >= |qs| ==> sel == qs)
  {
  }

  /**
   * The display loop of `view_questions`: `format_question` on each
   * selected question in turn; the first one it cannot judge raises and
   * ends the run.
   */
  method FormatSelected(selected: seq<Sample>) returns (shown: seq<Judgement>, raised: bool)
    ensures |shown| <= |selected|
    ensures forall k :: 0 <= k < |shown| ==> FormatQuestion(selected[k]) == Some(shown[k])
    ensures raised <==> |shown| < |selected|
    ensures raised ==> FormatQuestion(selected[|shown|]).None?
  {
    shown, raised := [], false;
    var i := 0;
    while i < |selected|
      invariant 0 <= i <= |selected| && |shown| == i
      invariant forall k :: 0 <= k < i ==> FormatQuestion(selected[k]) == Some(shown[k])
    {
      var j := FormatQuestion(selected[i]);
      if j.None? {
        raised := true;
        break;
      }
      shown := shown + [j.value];
      i := i + 1;
    }
  }

  datatype StatsOutcome =
    | StatsNotFound                   // no samples file for the task
    | Stats(total: nat, correct: nat, accuracy: real)

  /** `show_statistics`. */
  method ShowStatistics(task: string, nested: seq<SampleFile>, flat: seq<SampleFile>) returns (r: StatsOutcome)
    ensures FindSampleFile(task, nested, flat).None? ==> r == StatsNotFound
    ensures FindSampleFile(task, nested, flat).Some? ==>
              var qs := ParsedSamples(FindSampleFile(task, nested, flat).value.lines);
              r == Stats(|qs|, CorrectCount(qs), Accuracy(CorrectCount(qs), |qs|))
  {
    var found := FindSampleFile(task, nested, flat);
    if found.None? {
      return StatsNotFound;
    }
    var correct, total := CountSamples(found.value.lines);
    r := Stats(total, correct, Accuracy(correct, total));
  }

  /** What the statistics mode reports: at most as many correct as counted, and an accuracy between 0 and 1. */
  lemma StatsBounds(task: string, nested: seq<SampleFile>, flat: seq<SampleFile>)
    requires FindSampleFile(task, nested, flat).Some?
    ensures var qs := ParsedSamples(FindSampleFile(task, nested, flat).value.lines);
            var a := Accuracy(CorrectCount(qs), |qs|);
            CorrectCount(qs) <= |qs| && 0.0 <= a <= 1.0
  {
  }

  /** The mode `main` picks from `sys.argv`. */
  datatype Command = Usage | StatsMode(task: string) | ViewMode(task: string, numQuestions: nat)

  /** `main`'s reading of `sys.argv` (the script's own name first). */
  function ParseCommand(argv: seq<string>): (c: Command)
    ensures c.Usage? <==> |argv| < 2
    ensures c.StatsMode? <==> |argv| >= 2 && "--stats" in argv
    ensures !c.Usage? ==> c.task == argv[1]
  {
    if |argv| < 2 then Usage
    else if "--stats" in argv then StatsMode(argv[1])
    else if |argv| >= 3 && IsDigitString(argv[2]) then ViewMode(argv[1], DecimalValue(argv[2]))
    else ViewMode(argv[1], 5)
  }

  /**
   * Without `--stats`, a count written in decimal (leading zeros allowed)
   * is read back whatever follows it; a missing count, or one that is not
   * all digits, gives the default 5.
   */
  lemma ParseCommandCount(argv: seq<string>, zeros: nat, n: nat)
    requires |argv| >= 2 && "--stats" !in argv
    ensures |argv| >= 3 && argv[2] == Zeros(zeros) + ShowNat(n) ==> ParseCommand(argv) == ViewMode(argv[1], n)
    ensures |argv| < 3 || !IsDigitString(argv[2]) ==> ParseCommand(argv) == ViewMode(argv[1], 5)
  {
    if |argv| >= 3 && argv[2] == Zeros(zeros) + ShowNat(n) {
      DecimalValueOfShowNat(n);
      DecimalValueIgnoresLeadingZeros(zeros, ShowNat(n));
      assert IsDigitString(argv[2]);
    }
  }

  /** `--stats` anywhere on the command line selects the statistics mode, even in the count's place. */
  lemma StatsFlagAnywhere(argv: seq<string>, k: nat)
    requires |argv| >= 2 && k < |argv| && argv[k] == "--stats"
    ensures ParseCommand(argv) == StatsMode(argv[1])
  {
  }

  datatype RunOutcome =
    | UsageShown(available: seq<string>)
    | StatsRun(stats: StatsOutcome)
    | ViewRun(view: ViewOutcome)

  /** `main`, on the default results directory (whose glob results are `nested` and `flat`). */
  method Run(argv: seq<string>, nested: seq<SampleFile>, flat: seq<SampleFile>) returns (r: RunOutcome)
    ensures ParseCommand(argv).Usage? ==>
              && r.UsageShown? && StrictlySorted(r.available)
              && forall t :: t in r.available <==> Offers(SampleFiles(nested, flat), t)
    ensures ParseCommand(argv).StatsMode? ==>
              var found := FindSampleFile(argv[1], nested, flat);
              && r.StatsRun? && (r.stats.StatsNotFound? <==> found.None?)
              && (found.Some? ==> var qs := ParsedSamples(found.value.lines);
                                  r.stats == Stats(|qs|, CorrectCount(qs), Accuracy(CorrectCount(qs), |qs|)))
    ensures ParseCommand(argv).ViewMode? ==>
              var found := FindSampleFile(argv[1], nested, flat);
              && r.ViewRun? && (r.view.TaskNotFound? <==> found.None?)
              && Viewed(argv[1], ParseCommand(argv).numQuestions, true, nested, flat, r.view)
              && (found.Some? ==> (r.view.selection.RandomSample? <==> ParseCommand(argv).numQuestions < r.view.total))
  {
    var command := ParseCommand(argv);
    match command
    case Usage =>
      var tasks := ListAvailableTasks(nested, flat);
      r := UsageShown(tasks);
    case StatsMode(task) =>
      var s := ShowStatistics(task, nested, flat);
      r := StatsRun(s);
    case ViewMode(task, n) =>
      var v := ViewQuestions(task, n, true, nested, flat);
      r := ViewRun(v);
  }
}
