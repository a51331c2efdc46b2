/**
 * Sample extraction of `selectProblem` (src/extension.ts): the problem page's
 * <section> elements, reduced to their <h3> title and <pre> text, are sorted
 * into numbered sample inputs and sample outputs, and input i is paired with
 * output i. This module states the result as functions of the section list;
 * the imperative loops that build it are `Sidebar.SidebarProvider.SelectProblem`.
 */
module Samples {
  import opened JsText

  /** One <section> of the statement: the text of its <h3> and of its <pre>. */
  datatype Section = Section(title: string, text: string)

  /** One test case (SampleData in src/types.ts): a 1-based id, the stdin text and the expected output. */
  datatype Sample = Sample(id: nat, input: string, output: string)

  datatype SectionKind = SampleInput | SampleOutput | OtherSection

  const InputMarkerJa: string := "入力例"
  const InputMarkerEn: string := "Sample Input"
  const OutputMarkerJa: string := "出力例"
  const OutputMarkerEn: string := "Sample Output"

  /** The input markers are tested first, so a title carrying both kinds of marker is an input. */
  function Classify(title: string): SectionKind {
    if Contains(title, InputMarkerJa) || Contains(title, InputMarkerEn) then SampleInput
    else if Contains(title, OutputMarkerJa) || Contains(title, OutputMarkerEn) then SampleOutput
    else OtherSection
  }

  /** The trimmed texts of the sample-input sections, in page order: entry i-1 is input number i. */
  function InputTexts(sections: seq<Section>): (ins: seq<string>)
    ensures |ins| <= |sections|
    ensures forall k :: 0 <= k < |ins| ==> IsTrimmed(ins[k])
  {
    if sections == [] then []
    else
      var last := sections[|sections| - 1];
      TrimSpec(last.text);
      InputTexts(sections[..|sections| - 1])
        + (if Classify(last.title) == SampleInput then [Trim(last.text)] else [])
  }

  /** The trimmed texts of the sample-output sections, in page order: entry i-1 is output number i. */
  function OutputTexts(sections: seq<Section>): (outs: seq<string>)
    ensures |outs| <= |sections|
    ensures forall k :: 0 <= k < |outs| ==> IsTrimmed(outs[k])
  {
    if sections == [] then []
    else
      var last := sections[|sections| - 1];
      TrimSpec(last.text);
      OutputTexts(sections[..|sections| - 1])
        + (if Classify(last.title) == SampleOutput then [Trim(last.text)] else [])
  }

  /**
   * `inputs[i] && outputs[i]`: both numbered texts exist and are non-empty
   * (a missing entry and an empty string are both falsy).
   */
  predicate Pairable(ins: seq<string>, outs: seq<string>, i: int) {
    1 <= i <= |ins| && i <= |outs| && ins[i - 1] != "" && outs[i - 1] != ""
  }

  /** The samples the pairing loop has pushed once it has looked at ids 1..n. */
  function PairUpTo(ins: seq<string>, outs: seq<string>, n: nat): seq<Sample>
    requires n <= |ins|
  {
    if n == 0 then []
    else PairUpTo(ins, outs, n - 1)
           + (if Pairable(ins, outs, n) then [Sample(n, ins[n - 1], outs[n - 1])] else [])
  }

  /** The sample list `selectProblem` stores for a page with these sections. */
  function ExtractSamples(sections: seq<Section>): seq<Sample> {
    var ins := InputTexts(sections);
    PairUpTo(ins, OutputTexts(sections), |ins|)
  }

  /** The pairing loop after n ids appends id n when it is pairable, and nothing otherwise. */
  lemma PairUpToStep(ins: seq<string>, outs: seq<string>, n: nat)
    requires 0 < n <= |ins|
    ensures var p, r := PairUpTo(ins, outs, n - 1), PairUpTo(ins, outs, n);
      && (Pairable(ins, outs, n) ==> r == p + [Sample(n, ins[n - 1], outs[n - 1])])
      && (!Pairable(ins, outs, n) ==> r == p)
  {
  }

  /** Only pairable ids up to n are pushed, each with its own numbered input and output. */
  lemma {:induction false} PairUpToSound(ins: seq<string>, outs: seq<string>, n: nat)
    requires n <= |ins|
    ensures var r := PairUpTo(ins, outs, n);
      && |r| <= n
      && (forall k :: 0 <= k < |r| ==>
            && 1 <= r[k].id <= n
            && Pairable(ins, outs, r[k].id)
            && r[k].input == ins[r[k].id - 1]
            && r[k].output == outs[r[k].id - 1])
  {
    if n > 0 {
      PairUpToSound(ins, outs, n - 1);
      PairUpToStep(ins, outs, n);
    }
  }

  /** Ids come out in strictly increasing order. */
  lemma {:induction false} PairUpToSorted(ins: seq<string>, outs: seq<string>, n: nat)
    requires n <= |ins|
    ensures var r := PairUpTo(ins, outs, n);
      forall j, k :: 0 <= j < k < |r| ==> r[j].id < r[k].id
  {
    if n > 0 {
      PairUpToSorted(ins, outs, n - 1);
      PairUpToSound(ins, outs, n - 1);
      PairUpToStep(ins, outs, n);
    }
  }

  /** Every pairable id up to n is pushed. */
  lemma {:induction false} PairUpToComplete(ins: seq<string>, outs: seq<string>, n: nat)
    requires n <= |ins|
    ensures var r := PairUpTo(ins, outs, n);
      forall i :: 1 <= i <= n && Pairable(ins, outs, i) ==> exists k :: 0 <= k < |r| && r[k].id == i
  {
    if n > 0 {
      PairUpToComplete(ins, outs, n - 1);
      PairUpToStep(ins, outs, n);
      var p, r := PairUpTo(ins, outs, n - 1), PairUpTo(ins, outs, n);
      forall i | 1 <= i <= n && Pairable(ins, outs, i)
        ensures exists k :: 0 <= k < |r| && r[k].id == i
      {
        if i == n {
          assert r[|p|].id == i;
        } else {
          var k :| 0 <= k < |p| && p[k].id == i;
          assert r[k].id == i;
        }
      }
    }
  }

  /**
   * The stored samples, stated on the page's sections: sample id i exists
   * exactly when the i-th input section and the i-th output section both
   * exist and are non-empty after trimming; its texts are those trimmed
   * texts; ids come out strictly increasing and never exceed the number of
   * input sections.
   */
  lemma ExtractSamplesSpec(sections: seq<Section>)
    ensures var ins, outs, r := InputTexts(sections), OutputTexts(sections), ExtractSamples(sections);
      && |r| <= |ins|
      && (forall k :: 0 <= k < |r| ==>
            && Pairable(ins, outs, r[k].id)
            && r[k].input == ins[r[k].id - 1] && r[k].output == outs[r[k].id - 1]
            && r[k].input != "" && IsTrimmed(r[k].input)
            && r[k].output != "" && IsTrimmed(r[k].output))
      && (forall j, k :: 0 <= j < k < |r| ==> r[j].id < r[k].id)
      && (forall i :: Pairable(ins, outs, i) ==> exists k :: 0 <= k < |r| && r[k].id == i)
  {
    var ins, outs := InputTexts(sections), OutputTexts(sections);
    PairUpToSound(ins, outs, |ins|);
    PairUpToSorted(ins, outs, |ins|);
    PairUpToComplete(ins, outs, |ins|);
  }

  /** Output sections numbered beyond the last input are never looked at. */
  lemma {:induction false} ExtraOutputsIgnored(ins: seq<string>, outs: seq<string>, extra: seq<string>, n: nat)
    requires n <= |ins| && n <= |outs|
    ensures PairUpTo(ins, outs + extra, n) == PairUpTo(ins, outs, n)
  {
    if n > 0 {
      ExtraOutputsIgnored(ins, outs, extra, n - 1);
      assert (outs + extra)[n - 1] == outs[n - 1];
    }
  }

  /** A title is an input as soon as it carries an input marker, even when it also carries an output marker. */
  lemma InputMarkerFirst(pre: string, post: string)
    ensures Classify(pre + InputMarkerJa + post) == SampleInput
    ensures Classify(pre + InputMarkerEn + post) == SampleInput
  {
    ContainsWithin(pre, InputMarkerJa, post);
    ContainsWithin(pre, InputMarkerEn, post);
  }
}
