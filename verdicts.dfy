/**
 * How `runTest` (src/extension.ts) judges one sample and what it writes to
 * the "AtCoder Helper" output channel. Localised message texts are not
 * modelled: each line is a constructor carrying the values the source
 * interpolates into it.
 */
module Verdicts {
  import opened JsText
  import opened Process
  import opened Samples

  /** The classification of one executed sample, with the trimmed texts that were compared. */
  datatype Verdict =
    | Pass(id: nat, expected: string, actual: string)
    | Fail(id: nat, expected: string, actual: string)
    | Error(id: nat, failure: Failure)

  /** One line appended to the output channel. */
  datatype Line =
    | TestingStart(fileName: string, ext: string) // testingStart with the base name and extension
    | Rule                                      // the dashed separator
    | Compiling
    | CompileSucceeded
    | CompileFailed
    | Diagnostic(message: string)               // the compile error's message, on its own line
    | CasePass(id: nat)
    | CaseFail(id: nat)
    | CaseError(id: nat)
    | Expected(text: string)
    | Actual(text: string)
    | ErrorDetail(failure: Failure)             // the rejected run's error message
    | AllPassed
    | ResultSummary(total: nat, passCount: nat) // printed as "total / passCount"
    | ResultRatio(percent: real)                // passCount / total * 100

  /**
   * A sample run that resolved is compared after trimming both sides; one
   * that rejected is an error for that sample alone.
   */
  function Judge(s: Sample, o: Outcome): Verdict {
    match o
    case Resolved(out) =>
      var actual, expected := Trim(out), Trim(s.output);
      if actual == expected then Pass(s.id, expected, actual) else Fail(s.id, expected, actual)
    case Rejected(f) => Error(s.id, f)
  }

  /**
   * A sample passes exactly when its run resolved with output equal to the
   * expected output once both are trimmed, fails when they differ, and is an
   * error exactly when the run rejected; the verdict keeps the sample's id
   * and the compared texts or the failure.
   */
  lemma JudgeSpec(s: Sample, o: Outcome)
    ensures var v := Judge(s, o);
      && v.id == s.id
      && (v.Pass? <==> o.Resolved? && Trim(o.stdout) == Trim(s.output))
      && (v.Fail? <==> o.Resolved? && Trim(o.stdout) != Trim(s.output))
      && (v.Error? <==> o.Rejected?)
      && (v.Error? ==> v.failure == o.failure)
      && (!v.Error? ==> v.expected == Trim(s.output) && v.actual == Trim(o.stdout))
  {
  }

  /** `passCount` after the given verdicts. */
  function CountPass(vs: seq<Verdict>): nat {
    if vs == [] then 0
    else CountPass(vs[..|vs| - 1]) + (if vs[|vs| - 1].Pass? then 1 else 0)
  }

  /** The pass count never exceeds the number of samples, and reaches it exactly when every sample passed. */
  lemma {:induction false} CountPassBounds(vs: seq<Verdict>)
    ensures CountPass(vs) <= |vs|
    ensures CountPass(vs) == |vs| <==> forall i :: 0 <= i < |vs| ==> vs[i].Pass?
    ensures CountPass(vs) == 0 <==> forall i :: 0 <= i < |vs| ==> !vs[i].Pass?
    decreases |vs|
  {
    if vs != [] {
      var init := vs[..|vs| - 1];
      CountPassBounds(init);
      assert forall i :: 0 <= i < |init| ==> vs[i] == init[i];
    }
  }

  /** The lines one verdict adds: an error has no expected/actual lines and no separator. */
  function VerdictLines(v: Verdict): seq<Line> {
    match v
    case Pass(id, e, a) => [CasePass(id), Expected(e), Actual(a), Rule]
    case Fail(id, e, a) => [CaseFail(id), Expected(e), Actual(a), Rule]
    case Error(id, f) => [CaseError(id), ErrorDetail(f)]
  }

  /** The per-case part of the channel, in sample order. */
  function CaseLog(vs: seq<Verdict>): seq<Line> {
    if vs == [] then [] else CaseLog(vs[..|vs| - 1]) + VerdictLines(vs[|vs| - 1])
  }

  /** passCount / total * 100, exactly (the source then rounds it to one decimal). */
  function RatioPercent(passCount: nat, total: nat): (p: real)
    requires 0 < total
    ensures passCount <= total ==> 0.0 <= p <= 100.0
    ensures p == 100.0 <==> passCount == total
  {
    (passCount as real) / (total as real) * 100.0
  }

  /** The closing report: the all-pass line, or the counts and the ratio. */
  function SummaryLines(passCount: nat, total: nat): seq<Line>
    requires 0 < total
  {
    if passCount == total then [AllPassed]
    else [ResultSummary(total, passCount), ResultRatio(RatioPercent(passCount, total))]
  }

  /**
   * The all-pass message is printed exactly when every sample passed;
   * otherwise the report carries the sample count, the pass count and a ratio
   * below 100.
   */
  lemma SummaryAllPassIff(vs: seq<Verdict>)
    requires vs != []
    ensures SummaryLines(CountPass(vs), |vs|) == [AllPassed] <==> forall i :: 0 <= i < |vs| ==> vs[i].Pass?
    ensures !(forall i :: 0 <= i < |vs| ==> vs[i].Pass?) ==>
      SummaryLines(CountPass(vs), |vs|)[0] == ResultSummary(|vs|, CountPass(vs))
      && 0.0 <= SummaryLines(CountPass(vs), |vs|)[1].percent < 100.0
  {
    CountPassBounds(vs);
  }

  /** Three passes out of four samples report exactly 75 percent. */
  lemma ThreeOfFour()
    ensures RatioPercent(3, 4) == 75.0
  {
  }

  /** A stored expected output is already trimmed, so re-trimming it before the comparison changes nothing. */
  lemma ExpectedIsStoredOutput(s: Sample, out: string)
    requires IsTrimmed(s.output)
    ensures !Judge(s, Resolved(out)).Error? && Judge(s, Resolved(out)).expected == s.output
  {
    assert s.output == [] + s.output + [];
    TrimOfPadded([], s.output, []);
  }

  /** Output that differs from the expected text only by surrounding whitespace still passes. */
  lemma PaddedOutputPasses(s: Sample, lead: string, trail: string)
    requires AllTrimmable(lead) && AllTrimmable(trail)
    ensures Judge(s, Resolved(lead + Trim(s.output) + trail)).Pass?
  {
    TrimSpec(s.output);
    TrimOfPadded(lead, Trim(s.output), trail);
  }
}
