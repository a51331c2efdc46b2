# atcoder-helper: the sample-test pipeline and the process harness, in Dafny

atcoder-helper is a VS Code extension for AtCoder. It loads a contest's task list and
scrapes a problem page's sample inputs and outputs. It then compiles and runs the file in
the active editor against every sample and writes a verdict per sample and a summary to
the "AtCoder Helper" output channel. This project models the part of the extension that
is sequential logic over plain data and proves what that logic promises.

- `jstext.dfy` (module `JsText`): the JavaScript string semantics the code relies on.
  `String.prototype.trim` uses the full ECMAScript white-space and line-terminator set.
  `includes` is also modelled, along with `Option`/`Result` shapes for absent values and
  settled promises.
- `paths.dfy` (module `Paths`): a path is a directory plus a final name. The module holds
  `path.extname`, `path.basename(p, suffix)` and the `.exe` naming of executables on
  win32.
- `process.dfy` (module `Process`): `handleProcess` of `src/compiler.ts`. Its state is the
  two output buffers, the `killed` flag, the kill timer and a promise that settles once.
  `Step` gives the effect of one event, and `Run` folds a whole event trace. The class
  `ProcessHarness` keeps that state in fields and has one method per event handler. Each
  method is proved to perform `Step`.
- `compiler.dfy` (module `Compiler`): the commands that `compileCode`, `compileRust`,
  `compileJava` and the `run*` helpers build. It also covers how a compile settles its
  promise.
- `samples.dfy` (module `Samples`): the samples `selectProblem` extracts from a problem
  page's sections, stated as functions of the section list.
- `tasks.dfy` (module `Tasks`): the task list `loadContest` keeps from the contest's task
  table.
- `verdicts.dfy` (module `Verdicts`): how `runTest` judges one sample, counts passes and
  what it writes to the output channel.
- `sidebar.dfy` (module `Sidebar`): the sidebar controller `AtCoderSidebarProvider` as a
  class holding the session fields. It has the imperative handlers `LoadContest`,
  `SelectProblem` and `RunTest`, and the helper methods their loops are split into.

Everything the handlers reach outside the extension is a parameter:
- the scraped task table and problem page, or `None` when the HTTP request failed;
- the active editor's file;
- `process.platform`;
- the compiler runs, as `compile: Command -> ToolRun`, which is what `execFile` hands to
  its callback;
- the sample runs, as `execute: (Command, string, nat) -> Outcome`, which is the settled
  promise of a run helper for a command, a stdin text and a timeout.

`RunTest` returns the lines appended to the output channel after it was cleared, or `None`
when it was never cleared. It also returns the error pop-up it showed and the verdicts.

## Model

| member | source | states |
|---|---|---|
| JsText.TrimStartSpec | src/extension.ts:340-348 | the part trim() removes at the front is all white space, and what is left starts with non-white space |
| JsText.TrimEndSpec | src/extension.ts:340-348 | the part trim() removes at the back is all white space, and what is left ends with non-white space |
| JsText.TrimSpec | src/extension.ts:340-348 | a trimmed text has no white space at either end |
| JsText.TrimKeepsMiddle | src/extension.ts:340-348 | trim() returns a contiguous middle slice of its input with only white space before and after it |
| JsText.TrimOfPadded | src/extension.ts:340-350 | any white-space padding around a trimmed text is removed exactly, which characterises trim() by its result |
| JsText.TrimIdempotent | src/extension.ts:145-149 | texts stored trimmed are unchanged by the second trim before comparison |
| JsText.ContainsAt | src/extension.ts:144-147 | includes() holds exactly when the marker occurs at some position of the title |
| JsText.ContainsWithin | src/extension.ts:144-147 | a title with a marker inside it is found by includes() |
| Paths.LastIndexOf | src/extension.ts:310 | the index found holds the dot and no later character is a dot, or -1 when there is no dot |
| Paths.Extname | src/extension.ts:310 | the extension is empty or a dot-led strict suffix of the name containing no further dot, and it is non-empty whenever the name has a dot after its first character and is not "..", and empty for ".." |
| Paths.ExtnameOfDotted | src/extension.ts:310 | a stem other than "" and ".", followed by a dot and a dot-free tail, has exactly that dot and tail as its extension |
| Paths.BasenameWithout | src/compiler.ts:56 | the result differs from the name exactly when the name strictly ends with the suffix, and then it is the name with exactly that suffix removed |
| Paths.StemPlusExtname | src/compiler.ts:56 | stripping the extension that extname reports and putting it back gives the file name again |
| Paths.ExecutableNameRoundTrip | src/compiler.ts:57 | the ".exe" appended on win32 is removed again by ExecutableStem, so the stem is recoverable |
| Process.SettleOnce | src/compiler.ts:16-40 | the first resolve/reject fixes the outcome and a second one on the settled promise is a no-op |
| Process.Start | src/compiler.ts:12-27 | the harness starts with empty buffers and an armed timer, unless the stdin write threw, in which case it is rejected with that error and the timer is cleared |
| Process.StepConsistent | src/compiler.ts:16-40 | every handler keeps "timer armed exactly while unsettled" and "killed implies rejected with the time limit" |
| Process.RunConsistent | src/compiler.ts:16-40 | the same invariant holds after any trace of events |
| Process.RunAppend | src/compiler.ts:16-40 | handling a trace in two parts is the same as handling it at once |
| Process.SettledOnce | src/compiler.ts:16-40 | once settled, no later event changes the outcome |
| Process.DataOnlyBuffers | src/compiler.ts:28-29 | data events only append their chunks, in arrival order, to stdout and stderr |
| Process.ExitZeroResolvesWithStdout | src/compiler.ts:28-34 | exit code 0 before any other settlement resolves with the untrimmed concatenation of all stdout chunks before it |
| Process.NonZeroExitRejectsWithStderr | src/compiler.ts:29-35 | any other exit before settlement rejects with exactly the stderr accumulated so far, never stdout |
| Process.TimeoutWins | src/compiler.ts:16-20 | a timer firing while unsettled kills the run and rejects it with the time limit, whatever follows |
| Process.KilledStaysKilled | src/compiler.ts:16-32 | a killed run stays killed |
| Process.DisarmedNeverKilled | src/compiler.ts:21-40 | once the timer is cleared the run can never be killed |
| Process.SpawnErrorDisarmsTimer | src/compiler.ts:37-40 | an 'error' event settles an unsettled run with that error and the timeout can no longer fire |
| Process.WriteFailureIsFinal | src/compiler.ts:21-27 | a failed stdin write is the final outcome and the process is never killed |
| Process.ProcessHarness.constructor | src/compiler.ts:10-27 | the object starts in the state Start describes |
| Process.ProcessHarness.SettleWith | src/compiler.ts:16-40 | the promise cell is assigned only if it was empty |
| Process.ProcessHarness.OnStdout | src/compiler.ts:28 | appending a stdout chunk performs Step and keeps the invariant |
| Process.ProcessHarness.OnStderr | src/compiler.ts:29 | appending a stderr chunk performs Step and keeps the invariant |
| Process.ProcessHarness.OnTimer | src/compiler.ts:16-20 | the timeout handler performs Step and keeps the invariant |
| Process.ProcessHarness.OnClose | src/compiler.ts:31-36 | the close handler performs Step and keeps the invariant |
| Process.ProcessHarness.OnError | src/compiler.ts:37-40 | the error handler performs Step and keeps the invariant |
| Compiler.CompiledOutputSpec | src/compiler.ts:55-58 | the executable sits in the source's directory, ends in ".exe" on win32 and is the bare stem elsewhere, and gives back the source name once ".exe" is removed and the extension restored |
| Compiler.CompileCodeSpec | src/compiler.ts:53-68 | ".c"/".C" selects gcc with -lm, anything else g++ with -std=c++17; both take the source first, -O2, and "-o" naming the compiled output |
| Compiler.CompileRustSpec | src/compiler.ts:142-151 | rustc takes the source first and "-o" names the executable stripped of ".rs" |
| Compiler.CompileJavaSpec | src/compiler.ts:89-99 | javac takes the source, has no "-o", and the promise resolves to the source path itself |
| Compiler.FinishSpec | src/compiler.ts:70-76 | a compile succeeds exactly when there is no error; a failure carries stderr if non-empty, else stdout if non-empty, else the error's message |
| Compiler.InterpretersRunSource | src/compiler.ts:44-136 | python (on win32) or python3, node, npx ts-node and go run each receive the source file as their last argument |
| Compiler.CompiledBinaryIsWhatRuns | src/compiler.ts:53-86 | the file a C/C++ or Rust compile writes with "-o" is the binary runExecutable launches |
| Compiler.JavaRunsCompiledClass | src/compiler.ts:89-110 | java loads the class javac compiled: class path = source directory, class name + ".java" = source name |
| Samples.InputTexts | src/extension.ts:140-151 | the numbered input texts are trimmed and there are at most as many as sections |
| Samples.OutputTexts | src/extension.ts:140-151 | the numbered output texts are trimmed and there are at most as many as sections |
| Samples.PairUpToSound | src/extension.ts:153-157 | every pushed sample has a pairable id at most n and carries input id and output id |
| Samples.PairUpToSorted | src/extension.ts:153-157 | sample ids come out strictly increasing |
| Samples.PairUpToComplete | src/extension.ts:153-157 | every pairable id up to n is pushed |
| Samples.ExtractSamplesSpec | src/extension.ts:134-157 | sample i exists iff the i-th input and i-th output section exist and are non-empty after trimming, with those texts, in increasing id order |
| Samples.ExtraOutputsIgnored | src/extension.ts:153-154 | output sections numbered beyond the last input never affect the samples |
| Samples.InputMarkerFirst | src/extension.ts:144-150 | a title carrying an input marker is an input even when it also carries an output marker |
| Tasks.TaskUrlRoundTrip | src/extension.ts:97-98 | a task url is "https://atcoder.jp" followed by the row's non-empty href, which it gives back |
| Tasks.KeptTasksAppend | src/extension.ts:92-100 | the task list of a split table is the concatenation of the parts' lists, so row order is kept |
| Tasks.KeptTasksSpec | src/extension.ts:92-100 | every task comes from a row with both a label and an href, and every such row gives a task |
| Verdicts.JudgeSpec | src/extension.ts:338-363 | pass iff the run resolved and the trimmed outputs agree, fail iff they differ, error iff the run rejected; the verdict carries the compared texts or the failure |
| Verdicts.CountPassBounds | src/extension.ts:336-358 | 0 <= passCount <= number of samples, with equality exactly when all (or none) passed |
| Verdicts.RatioPercent | src/extension.ts:368-369 | the ratio lies between 0 and 100 and is 100 exactly when every sample passed |
| Verdicts.SummaryAllPassIff | src/extension.ts:366-372 | the all-pass message is printed iff every sample passed; otherwise the total, the pass count and a ratio below 100 |
| Verdicts.ThreeOfFour | src/extension.ts:369 | three passes of four samples report 75 percent |
| Verdicts.ExpectedIsStoredOutput | src/extension.ts:348-350 | the expected text compared is the stored, already trimmed output |
| Verdicts.PaddedOutputPasses | src/extension.ts:340-350 | output that differs from the expected text only by surrounding white space passes |
| Sidebar.NumberSections | src/extension.ts:134-151 | the inputs/outputs maps hold exactly the i-th trimmed input/output text under key i, and the counters stop one past the last key |
| Sidebar.JudgeAllSpec | src/extension.ts:336-363 | verdict i is decided by sample i alone, run with the same command and the default 10000 ms limit |
| Sidebar.Record | src/extension.ts:350-363 | after one sample the log has gained its lines and passCount counts exactly the passing verdicts |
| Sidebar.SampleStep | src/extension.ts:337-363 | one pass of the loop judges sample i and extends the bookkeeping, or leaves it untouched when the extension cannot be run |
| Sidebar.RunSamples | src/extension.ts:336-364 | the loop stops at the first sample with nothing logged iff there is a sample and the extension cannot be run; otherwise every sample is judged in order, the log is the per-case lines, and passCount the number of passes |
| Sidebar.RunCase | src/extension.ts:338-363 | the run is dispatched on the extension and its verdict and logged lines are those of Judge |
| Sidebar.CompileGate | src/extension.ts:321-333 | only C/C++ sources are compiled, once, and then logged as compiling followed by success or failure with the diagnostic |
| Sidebar.SidebarProvider.constructor | src/extension.ts:32-37 | the session starts with no samples, url, tasks or content |
| Sidebar.SidebarProvider.LoadContest | src/extension.ts:83-111 | nothing happens for an empty contest id; a failed fetch reports the list url; no listed row reports "not found" and leaves the stored list; otherwise the stored list becomes exactly the listed rows' tasks |
| Sidebar.SidebarProvider.SelectProblem | src/extension.ts:114-168 | on a fetched page the stored samples are ExtractSamples of its sections, with the url and content stored; a failed fetch changes nothing |
| Sidebar.SidebarProvider.RunTest | src/extension.ts:301-374 | no editor or no samples: only a pop-up, and no compile; a C/C++ compile failure logs the diagnostic and runs no sample; an unsupported extension runs nothing and prints no summary; otherwise each sample is judged on its own run and the log is header, compile lines, per-case lines, summary and a separator |

## Left out

- HTTP fetching and HTML scraping (axios, cheerio) are not modelled. The task table rows
  and the problem page sections are inputs, and a failed request is `None`.
- Child processes, `execFile`, `spawn`, `proc.kill()` and real timers are not modelled.
  The process harness is driven by an explicit event trace. In `runTest`, compile and
  sample runs are the `compile` and `execute` parameters.
- VS Code UI calls (`showErrorMessage`, `outputChannel.show`, `postMessage`, the active
  editor lookup) are not modelled. They become the returned `Popup`, the returned channel
  lines, `SelectResult`/`LoadResult` values and the `editor` parameter.
- Localised message texts (src/locale.ts) and the emoji in channel lines are not modelled.
  Each channel line is a constructor carrying the values the source interpolates.
- The translation features (src/translator.ts, src/extension.ts:198-262),
  `changeProblemDisplayLang`, `createSourceFile`, the webview HTML (src/webview.ts) and
  extension activation are foreign calls or UI with no logic to verify.
- `runTest` only wires `.c`, `.cpp` and `.py` to runners. The Java, JavaScript, TypeScript,
  Go and Rust helpers are modelled as command construction and are not part of `RunTest`.
- Verdicts.RatioPercent: the ratio is the exact rational passCount / total × 100, without
  the one-decimal `toFixed(1)` rounding of the printed text.
- Process.Start: the time-limit failure carries the integer `timeoutMs`, not the text of
  `timeoutMs / 1000` in seconds.
- Paths.BasenameWithout: assumes the path has a directory part. The case of a whole path
  equal to the suffix, where Node returns "", does not arise for an editor's file.
- Paths.Extname: the extension of the file name alone. Node computes it on the whole path,
  which gives the same result whenever the name is not empty.
- Sidebar.SidebarProvider.SelectProblem: only a failed fetch is an error. A parser
  exception thrown halfway through, after some fields were already assigned, is not
  modelled.
- Sidebar.SidebarProvider.LoadContest and Sidebar.SidebarProvider.SelectProblem: the
  `_view?` test before posting to the webview (src/extension.ts:107 and 159) is not
  modelled. `TaskListUpdated` and `ProblemDisplayed` stand for a post that always happens.
- Sidebar.SidebarProvider.RunTest: the commands started are not returned. The compile is
  visible only through the `compiled` flag. The command each sample ran with is named only
  in RunTest's contract, where each verdict is `Judge` of `execute` applied to that
  command.
- Sidebar.SidebarProvider.RunTest: the webview's message handler is `async`, so in the
  extension a `selectProblem` can finish while `runTest` awaits a compile or a sample run.
  It then replaces the sample list that the loop bound (src/extension.ts:336) and the
  summary (366-370) read again. The model runs each handler to completion without
  interleaving, so it does not capture a summary computed over a list that changed
  mid-run.
- Sidebar.RunSamples: `execute` is a function of the command, the stdin text and the time
  limit. Two runs with the same input therefore get the same outcome, and a run that
  times out only some of the time cannot be expressed.
- JsText: a `string` is a sequence of Unicode scalar values, not of UTF-16 code units as
  in JavaScript. Lengths and indices differ for characters outside the Basic Multilingual
  Plane, and no property here depends on them.
