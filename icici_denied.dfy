/**
 * `extract_denied_letter_fields` (icici.py): the fields of an ICICI denial letter
 * ("DENIAL OF CASHLESS ACCESS"). The scalar fields are those of the query letter without
 * the Date of Admission; the numbered reasons come from the table after "mentioned herein
 * below", or else from a line scanner over the whole text, or else from the first long
 * enough line that mentions the policy's general terms, a pre-existing disease or an
 * exclusion.
 */
module IciciDenied {
  import opened Common
  import opened Text
  import opened Regex
  import opened IciciText
  import opened IciciPatterns
  import opened PolicyPeriod
  import opened IciciReasons

  /** `mentioned\s+herein\s+below(.+?)(?:Important\s+Note|$)`, IGNORECASE and DOTALL. */
  const ReasonSectionPattern: Pattern := CI(PhraseItems(["mentioned", "herein", "below"]) + [
    Cap(1, AnyChar, 1, Unbounded, false), Alt([Seq(PhraseItems(["Important", "Note"])), LineEnd])])

  /** `Sr\s*No\s*Reason\s*Description`, IGNORECASE. */
  const DeniedHeader: Pattern := CI([Lit("Sr"), Ws0, Lit("No"), Ws0, Lit("Reason"), Ws0, Lit("Description")])

  // ---------------------------------------------------------------- the general terms line

  predicate MentionsTerms(line: string)
  {
    Contains(line, "General Terms") || Contains(line, "Pre-Existing") || Contains(line, "Exclusion")
  }

  /** The line's text as a reason: stripped and cut before "Description". */
  function TermsText(line: string): string { CutDescription(Strip(line)) }

  /** A line the fallback takes: it mentions the terms and its text is longer than ten characters. */
  predicate TakesLine(line: string) { MentionsTerms(line) && |TermsText(line)| > 10 }

  /** The index of the first line from `j` on that the fallback takes. */
  function TermsLine(lines: seq<string>, j: nat): (r: Option<nat>)
    requires j <= |lines|
    ensures r.Some? ==> j <= r.value < |lines| && TakesLine(lines[r.value])
    ensures r.Some? ==> forall k :: j <= k < r.value ==> !TakesLine(lines[k])
    ensures r.None? ==> forall k :: j <= k < |lines| ==> !TakesLine(lines[k])
    decreases |lines| - j
  {
    if j == |lines| then None
    else if TakesLine(lines[j]) then Some(j)
    else TermsLine(lines, j + 1)
  }

  /** The fallback's reasons: `"1. " + text` of the first line it takes, or none. */
  function TermsReasons(lines: seq<string>): seq<string>
  {
    var r := TermsLine(lines, 0);
    if r.Some? then [RowText(Row("1", TermsText(lines[r.value])))] else []
  }

  /**
   * `for line in text.split('\n'): if ...: reason_text = ...; if reason_text and
   * len(reason_text) > 10: reasons.append(...); break`: a line that mentions the terms but is
   * too short does not stop the loop.
   */
  method ScanTermsLines(lines: seq<string>) returns (reasons: seq<string>)
    ensures reasons == TermsReasons(lines)
  {
    var i := 0;
    while i < |lines|
      invariant i <= |lines|
      invariant TermsLine(lines, i) == TermsLine(lines, 0)
    {
      var line := lines[i];
      if Contains(line, "General Terms") || Contains(line, "Pre-Existing") || Contains(line, "Exclusion") {
        var text := Strip(line);
        if Contains(text, "Description") {
          text := Strip(Before(text, "Description"));
        }
        if text != "" && |text| > 10 {
          return [RowText(Row("1", text))];
        }
      }
      i := i + 1;
    }
    return [];
  }

  /** `x.strip()` cut before "Description" and stripped again is stripped. */
  lemma TermsTextStripped(line: string)
    ensures IsStripped(TermsText(line))
  {
  }

  /** The reason line numbered 1 is `"1. "` followed by its text. */
  lemma FirstRowText(x: string)
    ensures RowText(Row("1", x)) == "1. " + x && RowText(Row("1", x))[3..] == x
  {
    assert ("1. " + x)[3..] == x;
  }

  /** The fallback yields at most one reason, and one exactly when some line is taken. */
  lemma TermsReasonFound(lines: seq<string>)
    ensures |TermsReasons(lines)| <= 1
    ensures TermsReasons(lines) != [] <==> exists k :: 0 <= k < |lines| && TakesLine(lines[k])
  {
    var r := TermsLine(lines, 0);
    if r.Some? {
      assert TakesLine(lines[r.value]);
    }
  }

  /**
   * The fallback's reason is `"1. "` and the text of a line that mentions the terms: longer
   * than ten characters, stripped and without "Description".
   */
  lemma TermsReasonText(lines: seq<string>)
    ensures TermsReasons(lines) != [] ==>
              var x := TermsReasons(lines)[0][3..];
              TermsReasons(lines)[0] == "1. " + x && |x| > 10 && IsStripped(x) && !Contains(x, "Description")
  {
    var r := TermsLine(lines, 0);
    if r.Some? {
      var x := TermsText(lines[r.value]);
      TermsTextStripped(lines[r.value]);
      assert TermsReasons(lines) == [RowText(Row("1", x))];
      FirstRowText(x);
    }
  }

  lemma TermsReasonsShaped(lines: seq<string>)
    ensures AllShaped(TermsReasons(lines))
  {
    var r := TermsLine(lines, 0);
    if r.Some? {
      RowTextShaped(Row("1", TermsText(lines[r.value])));
    }
  }

  // ---------------------------------------------------------------- the reasons

  /** The `Reason` lines of a denial letter: the table's, else the scanner's, else the fallback's. */
  function DeniedReasons(text: string): seq<string>
  {
    var section := Section(ReasonSectionPattern, text);
    var t := HeaderTable(DeniedHeader, section);
    var s := if t == [] then ScanLines(DeniedScan, Lines(text)) else t;
    if s == [] then TermsReasons(Lines(text)) else s
  }

  /** Every reason line of a denial letter is written `<digits>. <reason>`. */
  lemma DeniedReasonsShaped(text: string)
    ensures AllShaped(DeniedReasons(text))
  {
    HeaderTableShaped(DeniedHeader, Section(ReasonSectionPattern, text));
    ScanLinesShaped(DeniedScan, Lines(text));
    TermsReasonsShaped(Lines(text));
  }

  /**
   * A denial letter has no reasons exactly when its table and its scanner yield none and no
   * line it takes mentions the terms.
   */
  lemma DeniedReasonsEmpty(text: string)
    ensures DeniedReasons(text) == [] <==>
              HeaderTable(DeniedHeader, Section(ReasonSectionPattern, text)) == [] &&
              ScanLines(DeniedScan, Lines(text)) == [] &&
              forall k :: 0 <= k < |Lines(text)| ==> !TakesLine(Lines(text)[k])
  {
    TermsReasonFound(Lines(text));
  }

  method CollectDeniedReasons(text: string) returns (reasons: seq<string>)
    ensures reasons == DeniedReasons(text)
  {
    var section := Section(ReasonSectionPattern, text);
    reasons := CollectHeaderTable(DeniedHeader, section);
    if reasons == [] {
      reasons := ScanReasonLines(DeniedScan, Lines(text));
    }
    if reasons == [] {
      reasons := ScanTermsLines(Lines(text));
    }
  }

  // ---------------------------------------------------------------- the result

  /** The dictionary `extract_denied_letter_fields` returns. */
  datatype DeniedRecord = DeniedRecord(
    letterType: string,
    patientName: Option<string>,
    uhidNumber: Option<string>,
    policyNo: Option<string>,
    policyPeriod: Option<string>,
    alNumber: Option<string>,
    reason: Option<string>)

  /** The fields of a denial letter. */
  function DeniedFields(text: string): DeniedRecord
  {
    var rs := DeniedReasons(text);
    DeniedRecord(
      "Denied Letter",
      Stripped(FirstGroup(LetterNamePatterns, text, 1)),
      Stripped(FirstGroup(LetterUhidPatterns, text, 1)),
      Stripped(FirstGroup(LetterPolicyPatterns, text, 1)),
      PolicyPeriodOf(text),
      Stripped(FirstGroup(LetterAlPatterns, text, 1)),
      if rs == [] then None else Some(Join("\n", rs)))
  }

  /** `extract_denied_letter_fields(text)`. */
  method ExtractDeniedLetterFields(text: string) returns (r: DeniedRecord)
    ensures r == DeniedFields(text)
  {
    var name := SearchInOrder(LetterNamePatterns, text, 1);
    var uhid := SearchInOrder(LetterUhidPatterns, text, 1);
    var policy := SearchInOrder(LetterPolicyPatterns, text, 1);
    var period := ExtractPolicyPeriod(text);
    var al := SearchInOrder(LetterAlPatterns, text, 1);
    var reasons := CollectDeniedReasons(text);
    r := DeniedRecord("Denied Letter", Stripped(name), Stripped(uhid), Stripped(policy), period, Stripped(al),
                      if reasons == [] then None else Some(Join("\n", reasons)));
  }

  /** The dictionary's `"Letter Type"`. */
  lemma DeniedFieldsType(text: string)
    ensures DeniedFields(text).letterType == "Denied Letter"
  {
  }
}
