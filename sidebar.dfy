/**
 * The sidebar controller of src/extension.ts (AtCoderSidebarProvider): the
 * session fields it keeps between messages from the view, and the three
 * handlers that compute something from plain data.
 *
 * Everything the handlers reach outside the extension is a parameter:
 * the scraped page (None when the request failed), the active editor's
 * file, the host platform, the compiler runs (`compile`) and the sample runs
 * (`execute`, the settled promise of a run helper for a command, its stdin
 * text and timeout). The output channel is returned as the lines appended
 * after it was cleared, and error pop-ups as a `Popup` value.
 */
module Sidebar {
  import opened JsText
  import opened Paths
  import opened Process
  import opened Compiler
  import opened Samples
  import opened Tasks
  import opened Verdicts

  /** ProblemContent in src/types.ts: the statement HTML per language. */
  datatype ProblemContent = ProblemContent(ja: string, en: string, ko: Option<string>)

  /**
   * What `selectProblem` scrapes from a problem page: the HTML of the
   * Japanese and English statement parts ("" when absent), the whole
   * statement's HTML, and the sections.
   */
  datatype ProblemPage = ProblemPage(langJa: string, langEn: string, statement: string, sections: seq<Section>)

  /** The error pop-ups of the handlers. */
  datatype Popup = ContestNotFound | FetchError(url: string) | DetailError | NoEditor | NoData | UnsupportedFile

  /** What `loadContest` does with the view. */
  datatype LoadResult = NothingToLoad | LoadFailed(popup: Popup) | TaskListUpdated(tasks: seq<Task>)

  /** What `selectProblem` posts to the view, or the pop-up it shows instead. */
  datatype SelectResult = SelectFailed(popup: Popup) | ProblemDisplayed(content: string, sampleCount: nat)

  /** The extensions `runTest` compiles first. */
  predicate IsCompiled(ext: string) {
    ext == ".c" || ext == ".cpp"
  }

  /** The extensions `runTest` can run at all. */
  predicate IsRunnable(ext: string) {
    IsCompiled(ext) || ext == ".py"
  }

  /** The channel's first two lines: the file under test and a separator. */
  function Header(src: FilePath): seq<Line> {
    [TestingStart(src.name, Extname(src.name)), Rule]
  }

  /** The statement shown: the Japanese and English parts when both exist, else the whole statement for both. */
  function ContentOf(page: ProblemPage): ProblemContent {
    if page.langJa != "" && page.langEn != "" then ProblemContent(page.langJa, page.langEn, None)
    else ProblemContent(page.statement, page.statement, None)
  }

  /** Scanning one more section extends the numbered inputs or outputs by its trimmed text, or neither. */
  lemma PrefixStep(sections: seq<Section>, k: nat)
    requires k < |sections|
    ensures var kind, t := Classify(sections[k].title), Trim(sections[k].text);
      && InputTexts(sections[..k + 1]) == InputTexts(sections[..k]) + (if kind == SampleInput then [t] else [])
      && OutputTexts(sections[..k + 1]) == OutputTexts(sections[..k]) + (if kind == SampleOutput then [t] else [])
  {
    assert sections[..k + 1][..k] == sections[..k];
  }

  /** A counter-keyed map holding texts[0], texts[1], ... under keys 1, 2, ..., with the counter at the next free key. */
  ghost predicate Numbered(m: map<int, string>, count: int, texts: seq<string>) {
    && count == |texts| + 1
    && (forall j :: j in m <==> 1 <= j < count)
    && (forall j :: 1 <= j < count ==> m[j] == texts[j - 1])
  }

  /** Storing a text under the counter and bumping the counter numbers one more text. */
  lemma NumberedPush(m: map<int, string>, count: int, texts: seq<string>, t: string)
    requires Numbered(m, count, texts)
    ensures Numbered(m[count := t], count + 1, texts + [t])
  {
  }

  /**
   * The `$('section').each` pass of selectProblem: input and output texts are
   * trimmed and stored under their own running counters, which start at 1.
   */
  method NumberSections(sections: seq<Section>)
    returns (inputs: map<int, string>, inputCount: int, outputs: map<int, string>, outputCount: int)
    ensures Numbered(inputs, inputCount, InputTexts(sections))
    ensures Numbered(outputs, outputCount, OutputTexts(sections))
  {
    inputCount, outputCount := 1, 1;
    inputs, outputs := map[], map[];
    var k := 0;
    while k < |sections|
      invariant 0 <= k <= |sections|
      invariant Numbered(inputs, inputCount, InputTexts(sections[..k]))
      invariant Numbered(outputs, outputCount, OutputTexts(sections[..k]))
    {
      var title, content := sections[k].title, sections[k].text;
      ghost var ins, outs := InputTexts(sections[..k]), OutputTexts(sections[..k]);
      PrefixStep(sections, k);
      if Contains(title, InputMarkerJa) || Contains(title, InputMarkerEn) {
        assert Classify(title) == SampleInput;
        NumberedPush(inputs, inputCount, ins, Trim(content));
        inputs := inputs[inputCount := Trim(content)];
        inputCount := inputCount + 1;
      } else if Contains(title, OutputMarkerJa) || Contains(title, OutputMarkerEn) {
        assert Classify(title) == SampleOutput;
        NumberedPush(outputs, outputCount, outs, Trim(content));
        outputs := outputs[outputCount := Trim(content)];
        outputCount := outputCount + 1;
      } else {
        assert Classify(title) == OtherSection;
      }
      k := k + 1;
    }
    assert sections[..k] == sections;
  }

  /** The command runTest starts for each sample: the compiled executable for C/C++, the interpreter for Python. */
  function RunCommandFor(ext: string, platform: string, src: FilePath, exe: FilePath): Command {
    if IsCompiled(ext) then ExecutableCommand(exe) else PythonCommand(platform, src)
  }

  /** Whether runTest gets past its compile gate and extension check for this file. */
  predicate Proceeds(src: FilePath, platform: string, compile: Command -> ToolRun) {
    var ext := Extname(src.name);
    var job := CompileCode(src, ext, platform);
    IsRunnable(ext) && (IsCompiled(ext) ==> Finish(job, compile(job.command)).Ok?)
  }

  /** The per-sample command of a run that got past its compile gate. */
  function SampleCommand(src: FilePath, platform: string, compile: Command -> ToolRun): Command
    requires Proceeds(src, platform, compile)
  {
    var ext := Extname(src.name);
    var job := CompileCode(src, ext, platform);
    RunCommandFor(ext, platform, src, if IsCompiled(ext) then Finish(job, compile(job.command)).value else src)
  }

  /** The verdicts of running every sample, in order, with the same command and the default time limit. */
  function JudgeAll(samples: seq<Sample>, cmd: Command, execute: (Command, string, nat) -> Outcome): seq<Verdict> {
    if samples == [] then []
    else
      var last := samples[|samples| - 1];
      JudgeAll(samples[..|samples| - 1], cmd, execute) + [Judge(last, execute(cmd, last.input, DefaultTimeoutMs))]
  }

  /** Sample i, and no other, decides verdict i: each sample is judged on its own run. */
  lemma {:induction false} JudgeAllSpec(samples: seq<Sample>, cmd: Command, execute: (Command, string, nat) -> Outcome)
    ensures |JudgeAll(samples, cmd, execute)| == |samples|
    ensures forall i :: 0 <= i < |samples| ==>
      JudgeAll(samples, cmd, execute)[i] == Judge(samples[i], execute(cmd, samples[i].input, DefaultTimeoutMs))
    decreases |samples|
  {
    if samples != [] {
      JudgeAllSpec(samples[..|samples| - 1], cmd, execute);
    }
  }

  /** One more sample judged extends the verdict list by that sample's verdict. */
  lemma JudgeStep(samples: seq<Sample>, i: nat, cmd: Command, execute: (Command, string, nat) -> Outcome,
                  vs: seq<Verdict>, v: Verdict)
    requires i < |samples|
    requires vs == JudgeAll(samples[..i], cmd, execute)
    requires v == Judge(samples[i], execute(cmd, samples[i].input, DefaultTimeoutMs))
    ensures vs + [v] == JudgeAll(samples[..i + 1], cmd, execute)
  {
    assert samples[..i + 1][..i] == samples[..i];
  }

  /** The bookkeeping after one sample: its verdict kept, its lines logged, and passCount bumped if it passed. */
  method Record(verdicts: seq<Verdict>, lines: seq<Line>, passCount: nat, v: Verdict, caseLines: seq<Line>)
    returns (verdicts': seq<Verdict>, lines': seq<Line>, passCount': nat)
    requires lines == CaseLog(verdicts) && passCount == CountPass(verdicts)
    requires caseLines == VerdictLines(v)
    ensures verdicts' == verdicts + [v]
    ensures lines' == CaseLog(verdicts') && passCount' == CountPass(verdicts')
  {
    passCount' := passCount;
    if v.Pass? {
      passCount' := passCount' + 1;
    }
    verdicts' := verdicts + [v];
    assert verdicts'[..|verdicts|] == verdicts;
    lines' := lines + caseLines;
  }

  /**
   * One pass of the sample loop: sample i is run and judged and the
   * bookkeeping extended, or, for an extension the loop cannot run, nothing
   * changes and the loop must stop.
   */
  method SampleStep(samples: seq<Sample>, i: nat, ext: string, platform: string, filePath: FilePath,
                    executablePath: FilePath, execute: (Command, string, nat) -> Outcome,
                    verdicts: seq<Verdict>, lines: seq<Line>, passCount: nat)
    returns (next: bool, verdicts': seq<Verdict>, lines': seq<Line>, passCount': nat)
    requires i < |samples|
    requires verdicts == JudgeAll(samples[..i], RunCommandFor(ext, platform, filePath, executablePath), execute)
    requires lines == CaseLog(verdicts) && passCount == CountPass(verdicts)
    ensures next <==> IsRunnable(ext)
    ensures !next ==> verdicts' == verdicts && lines' == lines && passCount' == passCount
    ensures next ==>
      && verdicts' == JudgeAll(samples[..i + 1], RunCommandFor(ext, platform, filePath, executablePath), execute)
      && lines' == CaseLog(verdicts') && passCount' == CountPass(verdicts')
  {
    var ran := RunCase(samples[i], ext, platform, filePath, executablePath, execute);
    if ran.None? {
      return false, verdicts, lines, passCount;
    }
    JudgeStep(samples, i, ran.value.run, execute, verdicts, ran.value.verdict);
    next := true;
    verdicts', lines', passCount' := Record(verdicts, lines, passCount, ran.value.verdict, ran.value.lines);
  }

  /**
   * The sample loop of runTest. Each sample's run is dispatched on the
   * extension; one the loop cannot run stops it at the first sample. A run
   * that rejects becomes that sample's error and the loop goes on.
   */
  method RunSamples(samples: seq<Sample>, ext: string, platform: string, filePath: FilePath,
                    executablePath: FilePath, execute: (Command, string, nat) -> Outcome)
    returns (stopped: bool, verdicts: seq<Verdict>, lines: seq<Line>, passCount: nat)
    ensures stopped <==> samples != [] && !IsRunnable(ext)
    ensures stopped ==> verdicts == [] && lines == []
    ensures !stopped ==>
      var cmd := RunCommandFor(ext, platform, filePath, executablePath);
      && verdicts == JudgeAll(samples, cmd, execute)
      && lines == CaseLog(verdicts)
      && passCount == CountPass(verdicts)
  {
    stopped, verdicts, lines, passCount := false, [], [], 0;
    ghost var cmd := RunCommandFor(ext, platform, filePath, executablePath);
    var i := 0;
    assert samples[..i] == [];
    while i < |samples|
      invariant 0 <= i <= |samples|
      invariant !IsRunnable(ext) ==> i == 0 && verdicts == [] && lines == []
      invariant verdicts == JudgeAll(samples[..i], cmd, execute)
      invariant passCount == CountPass(verdicts)
      invariant lines == CaseLog(verdicts)
    {
      var next;
      next, verdicts, lines, passCount :=
        SampleStep(samples, i, ext, platform, filePath, executablePath, execute, verdicts, lines, passCount);
      if !next {
        stopped := true;
        return;
      }
      i := i + 1;
    }
    assert samples[..i] == samples;
  }

  /** A sample that was run: the command started, its verdict and the lines logged for it. */
  datatype CaseRun = CaseRun(run: Command, verdict: Verdict, lines: seq<Line>)

  /**
   * One iteration of the sample loop: the run is dispatched on the extension
   * and its outcome judged, the trimmed run output against the trimmed
   * expected output, or the error of a rejected run. None stands for an
   * extension the loop cannot run, which ends it.
   */
  method RunCase(sample: Sample, ext: string, platform: string, filePath: FilePath,
                 executablePath: FilePath, execute: (Command, string, nat) -> Outcome)
    returns (r: Option<CaseRun>)
    ensures r.Some? <==> IsRunnable(ext)
    ensures r.Some? ==>
      && r.value.run == RunCommandFor(ext, platform, filePath, executablePath)
      && r.value.verdict == Judge(sample, execute(r.value.run, sample.input, DefaultTimeoutMs))
      && r.value.lines == VerdictLines(r.value.verdict)
  {
    var run: Command;
    if ext == ".c" || ext == ".cpp" {
      run := ExecutableCommand(executablePath);
    } else if ext == ".py" {
      run := PythonCommand(platform, filePath);
    } else {
      return None;
    }
    var v: Verdict, lines: seq<Line>;
    match execute(run, sample.input, DefaultTimeoutMs) {
      case Resolved(stdout) =>
        var actualOutput := Trim(stdout);
        var expectedOutput := Trim(sample.output);
        if actualOutput == expectedOutput {
          lines := [CasePass(sample.id), Expected(expectedOutput), Actual(actualOutput)];
          v := Pass(sample.id, expectedOutput, actualOutput);
        } else {
          lines := [CaseFail(sample.id), Expected(expectedOutput), Actual(actualOutput)];
          v := Fail(sample.id, expectedOutput, actualOutput);
        }
        lines := lines + [Rule];
      case Rejected(failure) =>
        lines := [CaseError(sample.id), ErrorDetail(failure)];
        v := Error(sample.id, failure);
    }
    r := Some(CaseRun(run, v, lines));
  }

  /**
   * The compile gate of runTest: C and C++ sources are compiled with
   * compileCode and the run continues with the executable; any other source
   * goes on as it is.
   */
  method CompileGate(src: FilePath, ext: string, platform: string, compile: Command -> ToolRun)
    returns (started: bool, built: Result<FilePath>, lines: seq<Line>)
    ensures started <==> IsCompiled(ext)
    ensures !IsCompiled(ext) ==> built == Ok(src) && lines == []
    ensures IsCompiled(ext) ==>
      var job := CompileCode(src, ext, platform);
      && built == Finish(job, compile(job.command))
      && lines == [Compiling] + (if built.Ok? then [CompileSucceeded] else [CompileFailed, Diagnostic(built.message)])
  {
    if ext == ".c" || ext == ".cpp" {
      var job := CompileCode(src, ext, platform);
      started := true;
      built := Finish(job, compile(job.command));
      if built.Err? {
        lines := [Compiling, CompileFailed, Diagnostic(built.message)];
      } else {
        lines := [Compiling, CompileSucceeded];
      }
    } else {
      started, built, lines := false, Ok(src), [];
    }
  }

  class SidebarProvider {
    var currentSamples: seq<Sample>
    var currentProblemUrl: string
    var currentTasks: seq<Task>
    var currentContent: ProblemContent

    constructor ()
      ensures currentSamples == [] && currentProblemUrl == "" && currentTasks == []
      ensures currentContent == ProblemContent("", "", None)
    {
      currentSamples := [];
      currentProblemUrl := "";
      currentTasks := [];
      currentContent := ProblemContent("", "", None);
    }

    /**
     * loadContest: `rows` is the scraped task table of ContestTasksUrl(contestId),
     * or None when fetching it failed. The stored task list is replaced only
     * when at least one row is listed.
     */
    method LoadContest(contestId: string, rows: Option<seq<TaskRow>>) returns (r: LoadResult)
      modifies this
      ensures contestId == "" ==> r == NothingToLoad
      ensures contestId != "" && rows.None? ==> r == LoadFailed(FetchError(ContestTasksUrl(contestId)))
      ensures contestId != "" && rows.Some? && KeptTasks(rows.value) == [] ==> r == LoadFailed(ContestNotFound)
      ensures contestId != "" && rows.Some? && KeptTasks(rows.value) != [] ==> r == TaskListUpdated(KeptTasks(rows.value))
      ensures currentTasks == if r.TaskListUpdated? then r.tasks else old(currentTasks)
      ensures currentSamples == old(currentSamples) && currentProblemUrl == old(currentProblemUrl)
      ensures currentContent == old(currentContent)
    {
      if contestId == "" {
        return NothingToLoad;
      }
      var listUrl := ContestTasksUrl(contestId);
      if rows.None? {
        return LoadFailed(FetchError(listUrl));
      }
      var table := rows.value;
      var tasks: seq<Task> := [];
      var k := 0;
      while k < |table|
        invariant 0 <= k <= |table|
        invariant tasks == KeptTasks(table[..k])
      {
        var row := table[k];
        if row.title != "" && row.href.Some? && row.href.value != "" {
          tasks := tasks + [Task(row.title, Origin + row.href.value)];
        }
        assert table[..k + 1][..k] == table[..k];
        k := k + 1;
      }
      assert table[..k] == table;
      if |tasks| == 0 {
        return LoadFailed(ContestNotFound);
      }
      currentTasks := tasks;
      r := TaskListUpdated(tasks);
    }

    /**
     * selectProblem: `page` is the scraped problem page at `url`, or None when
     * fetching it failed, in which case nothing changes.
     */
    method SelectProblem(url: string, page: Option<ProblemPage>) returns (r: SelectResult)
      modifies this
      ensures page.None? ==> r == SelectFailed(DetailError)
      ensures page.None? ==> currentSamples == old(currentSamples) && currentProblemUrl == old(currentProblemUrl)
                             && currentContent == old(currentContent)
      ensures page.Some? ==> currentSamples == ExtractSamples(page.value.sections)
                             && currentProblemUrl == url
                             && currentContent == ContentOf(page.value)
                             && r == ProblemDisplayed(currentContent.ja, |currentSamples|)
      ensures currentTasks == old(currentTasks)
    {
      if page.None? {
        return SelectFailed(DetailError);
      }
      var p := page.value;
      currentContent := ProblemContent("", "", None);
      currentProblemUrl := url;
      if p.langJa != "" && p.langEn != "" {
        currentContent := ProblemContent(p.langJa, p.langEn, None);
      } else {
        currentContent := ProblemContent(p.statement, p.statement, None);
      }

      currentSamples := [];
      var sections := p.sections;
      var inputs, inputCount, outputs, outputCount := NumberSections(sections);
      ghost var ins, outs := InputTexts(sections), OutputTexts(sections);

      var i := 1;
      while i < inputCount
        invariant 1 <= i <= inputCount
        invariant currentProblemUrl == url && currentContent == ContentOf(p) && currentTasks == old(currentTasks)
        invariant currentSamples == PairUpTo(ins, outs, i - 1)
      {
        if i in inputs && inputs[i] != "" && i in outputs && outputs[i] != "" {
          currentSamples := currentSamples + [Sample(i, inputs[i], outputs[i])];
        }
        i := i + 1;
      }
      r := ProblemDisplayed(currentContent.ja, |currentSamples|);
    }

    /**
     * runTest on the file open in `editor`, against the stored samples.
     */
    method RunTest(editor: Option<FilePath>, platform: string,
                   compile: Command -> ToolRun, execute: (Command, string, nat) -> Outcome)
      returns (popup: Option<Popup>, channel: Option<seq<Line>>, compiled: bool, verdicts: seq<Verdict>)
      // the compiler is started once, and only for a C/C++ file with samples to test
      ensures compiled <==> editor.Some? && currentSamples != [] && IsCompiled(Extname(editor.value.name))
      // no editor, or no samples: an error pop-up and nothing else
      ensures editor.None? ==> popup == Some(NoEditor) && channel.None? && verdicts == []
      ensures editor.Some? && currentSamples == [] ==>
        popup == Some(NoData) && channel.None? && verdicts == []
      // a C/C++ compile failure ends the run before any sample and without a summary
      ensures editor.Some? && currentSamples != [] && IsCompiled(Extname(editor.value.name)) ==>
        var job := CompileCode(editor.value, Extname(editor.value.name), platform);
        var built := Finish(job, compile(job.command));
        built.Err? ==>
          && popup.None? && verdicts == []
          && channel == Some(Header(editor.value) + [Compiling, CompileFailed, Diagnostic(built.message)])
      // an extension that cannot be run stops at the first sample, with no verdict and no summary
      ensures editor.Some? && currentSamples != [] && !IsRunnable(Extname(editor.value.name)) ==>
        popup == Some(UnsupportedFile) && verdicts == []
        && channel == Some(Header(editor.value))
      // otherwise every sample runs, in order, and is judged on its own
      ensures editor.Some? && currentSamples != [] && Proceeds(editor.value, platform, compile) ==>
        var src, ext := editor.value, Extname(editor.value.name);
        var cmd := SampleCommand(src, platform, compile);
        && popup.None?
        && |verdicts| == |currentSamples|
        && (forall i :: 0 <= i < |verdicts| ==>
              verdicts[i] == Judge(currentSamples[i], execute(cmd, currentSamples[i].input, DefaultTimeoutMs)))
        && channel == Some(Header(src)
                           + (if IsCompiled(ext) then [Compiling, CompileSucceeded] else [])
                           + CaseLog(verdicts)
                           + SummaryLines(CountPass(verdicts), |currentSamples|)
                           + [Rule])
    {
      popup, channel, compiled, verdicts := None, None, false, [];
      if editor.None? {
        popup := Some(NoEditor);
        return;
      }
      var filePath := editor.value;
      var ext := Extname(filePath.name);
      if |currentSamples| == 0 {
        popup := Some(NoData);
        return;
      }

      var log := [TestingStart(filePath.name, ext), Rule];
      var built, compileLines;
      compiled, built, compileLines := CompileGate(filePath, ext, platform, compile);
      assert log == Header(filePath);
      log := log + compileLines;
      if built.Err? {
        assert log == Header(filePath) + [Compiling, CompileFailed, Diagnostic(built.message)];
        channel := Some(log);
        return;
      }
      var executablePath := built.value;   // the source itself unless it was compiled
      assert log == Header(filePath) + (if IsCompiled(ext) then [Compiling, CompileSucceeded] else []);

      var stopped, caseLines, passCount;
      stopped, verdicts, caseLines, passCount :=
        RunSamples(currentSamples, ext, platform, filePath, executablePath, execute);
      if stopped {
        assert log == Header(filePath);
        popup := Some(UnsupportedFile);
        channel := Some(log);
        return;
      }
      ghost var cmd := RunCommandFor(ext, platform, filePath, executablePath);
      JudgeAllSpec(currentSamples, cmd, execute);
      assert Proceeds(filePath, platform, compile) ==> cmd == SampleCommand(filePath, platform, compile);
      ghost var head := Header(filePath) + (if IsCompiled(ext) then [Compiling, CompileSucceeded] else []);
      log := log + caseLines;

      var summary: seq<Line>;
      if passCount == |currentSamples| {
        summary := [AllPassed];
      } else {
        summary := [ResultSummary(|currentSamples|, passCount), ResultRatio(RatioPercent(passCount, |currentSamples|))];
      }
      assert summary == SummaryLines(CountPass(verdicts), |currentSamples|);
      log := log + summary + [Rule];
      assert log == head + CaseLog(verdicts) + SummaryLines(CountPass(verdicts), |currentSamples|) + [Rule];
      channel := Some(log);
    }
  }
}
