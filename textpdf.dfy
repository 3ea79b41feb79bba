/**
 * `PDFDataExtractor` of textpdf.py once the PDF's text is known. Its table has the same keys
 * as scannedpdf.py's; the amount, policy-number and UHID patterns are the same, the others
 * and the cleaning and the remarks patterns differ slightly, and `process_pdf` leaves
 * "AL Number" out of its output.
 */
module TextPdf {
  import opened Common
  import opened Text
  import opened Regex
  import opened OcrFields
  import ScannedPdf

  // ---------------------------------------------------------------- the pattern table

  /** `(?:\n|UHID|Age|Gender)`, consumed after the name. */
  const NameEnd: Item := Alt([Lit("\n"), Lit("UHID"), Lit("Age"), Lit("Gender")])

  /** `([A-Z\s\.]+?)` */
  const NameRun: Item := Cap(1, Union(Range('A', 'Z'), Union(Space, Chars("."))), 1, Unbounded, false)

  /** `([^\n:]+)` */
  const RestOfLine: Item := Cap(1, Negate(Chars("\n:")), 1, Unbounded, true)

  /** `([^:\n]+?)(?:\n|Date\s+of)` */
  const PeriodText: seq<Item> := [Cap(1, Negate(Chars(":\n")), 1, Unbounded, false), Alt([Lit("\n"), Seq(PhraseItems(["Date", "of"]))])]

  const AlPatterns: seq<Pattern> := [
    CI([Lit("AL Number")] + ScannedPdf.Sep + [Cap(1, ScannedPdf.IdClass, 1, Unbounded, true)]),
    CI([Lit("Authorization"), Ws1, ScannedPdf.OptWord("Letter"), Lit("Number")] + ScannedPdf.Sep + [Cap(1, ScannedPdf.IdClass, 1, Unbounded, true)]),
    CI(PhraseItems(["AL", "No"]) + ScannedPdf.Sep + [Cap(1, ScannedPdf.IdClass, 1, Unbounded, true)])
  ]

  const AdmissionPatterns: seq<Pattern> := [CI(PhraseItems(["Date", "of", "Admission"]) + ScannedPdf.Sep + [RestOfLine])]

  const DischargePatterns: seq<Pattern> := [CI(PhraseItems(["Date", "of", "Discharge"]) + ScannedPdf.Sep + [RestOfLine])]

  const NamePatterns: seq<Pattern> := [
    CI([Lit("Name"), Ws1, Lit("of"), Ws1, ScannedPdf.OptWord("the"), Lit("Patient")] + ScannedPdf.Sep + [NameRun, NameEnd]),
    CI(PhraseItems(["Patient", "Name"]) + ScannedPdf.Sep + [NameRun, NameEnd]),
    CI([Lit("Patient")] + ScannedPdf.Sep + [NameRun, NameEnd])
  ]

  const PeriodPatterns: seq<Pattern> := [
    CI(PhraseItems(["Policy", "Period"]) + ScannedPdf.Sep + PeriodText),
    CI(PhraseItems(["Policy", "Term"]) + ScannedPdf.Sep + PeriodText)
  ]

  /** `self.patterns.get(field_name, [])`; "Remarks" goes to `extract_remarks`. */
  function PatternsOf(field: string): seq<Pattern>
  {
    match field
    case "AL Number" => AlPatterns
    case "Approved Amount" => ScannedPdf.ApprovedPatterns
    case "Date of Admission" => AdmissionPatterns
    case "Date of Discharge" => DischargePatterns
    case "Name of the Patient" => NamePatterns
    case "Policy No" => ScannedPdf.PolicyNoPatterns
    case "Policy Period" => PeriodPatterns
    case "Total Bill Amount" => ScannedPdf.BillPatterns
    case "UHID Number" => ScannedPdf.UhidPatterns
    case _ => []
  }

  // ---------------------------------------------------------------- clean_extracted_value

  /** `clean_extracted_value(value, field_name)`: no check for "is discharged", for a digit in a date or on the AL Number. */
  function Clean(field: string, value: string): Option<string>
  {
    if value == "" then None
    else
      var w := Strip(value);
      if field == "Name of the Patient" then
        var c := Collapse(w);
        if |c| > 2 then Some(c) else None
      else if ScannedPdf.IsDateField(field) then Some(HyphenateSpaces(w))
      else if field == "Approved Amount" || field == "Total Bill Amount" then FirstDigitRun(w)
      else if field == "Policy Period" then Some(SquashSpaces(w))
      else if field == "Remarks" then Some(CleanRemarks(w))
      else Some(w)
  }

  predicate Shaped(field: string, r: string)
  {
    if field == "Name of the Patient" then SingleSpaced(r) && IsStripped(r) && |r| > 2
    else if ScannedPdf.IsDateField(field) then NoSpace(r)
    else if field == "Approved Amount" || field == "Total Bill Amount" then |r| > 0 && AllDigits(r)
    else if field == "Policy Period" then SingleSpaced(r)
    else if field == "Remarks" then SingleSpaced(r) && IsStripped(r)
    else IsStripped(r)
  }

  /** A name is whitespace-collapsed and longer than two characters, a date has no whitespace, an amount is digits. */
  lemma CleanShaped(field: string, value: string)
    ensures Clean(field, value).Some? ==> Shaped(field, Clean(field, value).value)
  {
    if value != "" {
      var w := Strip(value);
      if field == "Name of the Patient" {
        CollapseSingle(w);
      } else if field == "Policy Period" {
        SquashSpacesSingle(w);
      } else if field == "Remarks" {
        CleanRemarksSingle(w);
      }
    }
  }

  /**
   * textpdf.py's name check is the weaker one: every captured name scannedpdf.py keeps, this
   * one keeps too, unchanged (two words and a space make more than two characters).
   */
  lemma ScannedNameKept(value: string)
    requires ScannedPdf.Clean("Name of the Patient", value).Some?
    ensures Clean("Name of the Patient", value) == ScannedPdf.Clean("Name of the Patient", value)
  {
    WordsTwoLength(Collapse(Strip(value)));
  }

  // ---------------------------------------------------------------- extract_field, extract_remarks

  /** `Remarks\s*:?\s*\n?(Pre\s*authorization\s+request\s+is\s+approved.*?)(?=...)`, IGNORECASE and DOTALL. */
  const ApprovedRemarks: Pattern := CI([Lit("Remarks"), Ws0, OptColon, Ws0, Rep(Chars("\n"), 0, AtMost(1), true), ApprovedRemark, RemarksEnd])

  /** `Remarks\s*:?\s*([^:]*?)(?=...)`, IGNORECASE and DOTALL. */
  const GenericRemarks: Pattern := CI([Lit("Remarks"), Ws0, OptColon, Ws0, UpToColon, RemarksEnd])

  /** `extract_field(text, field_name)` */
  function FieldValue(field: string, text: string): Option<string>
  {
    if field == "Remarks" then Remarks(ApprovedRemarks, GenericRemarks, text)
    else
      var t := if ScannedPdf.IsDateField(field) then AfterPolicyPeriod(text) else text;
      FirstCleaned(PatternsOf(field), t, v => Clean(field, v))
  }

  method ExtractField(text: string, field: string) returns (r: Option<string>)
    ensures r == FieldValue(field, text)
  {
    if field == "Remarks" {
      r := ExtractRemarks(ApprovedRemarks, GenericRemarks, text);
      return;
    }
    var t := text;
    if ScannedPdf.IsDateField(field) {
      var policyMatch := Search(PolicyPeriodLine, t);
      if policyMatch.Some? {
        t := t[policyMatch.value.end..];
      }
    }
    r := SearchCleaned(PatternsOf(field), t, v => Clean(field, v));
  }

  /** A field's value is non-empty and of the field's shape, and comes from the first pattern that yields one. */
  lemma FieldValueShaped(field: string, text: string)
    ensures var r := FieldValue(field, text);
            r.Some? && field != "Remarks" ==> r.value != "" && Shaped(field, r.value)
    ensures field != "Remarks" ==>
              FieldValue(field, text) == FirstCleaned(PatternsOf(field), if ScannedPdf.IsDateField(field) then AfterPolicyPeriod(text) else text, v => Clean(field, v))
  {
    if field != "Remarks" {
      var t := if ScannedPdf.IsDateField(field) then AfterPolicyPeriod(text) else text;
      var clean := v => Clean(field, v);
      FirstCleanedIs(PatternsOf(field), t, clean);
      var r := FirstCleaned(PatternsOf(field), t, clean);
      if r.Some? {
        var k :| 0 <= k < |PatternsOf(field)| && !Passed(PatternsOf(field), t, clean, k) &&
                 r == clean(FirstGroupOf(PatternsOf(field)[k], t).value);
        CleanShaped(field, FirstGroupOf(PatternsOf(field)[k], t).value);
      }
    }
  }

  // ---------------------------------------------------------------- extract_all_data, process_pdf

  /** `extract_all_data` once the text is known; the table's keys are scannedpdf.py's. */
  function AllData(text: string): Option<map<string, Option<string>>>
  {
    if Strip(text) == "" then None
    else Some(Filled(ScannedPdf.FieldNames, f => FieldValue(f, text))["Letter Type" := Some("Authorization Letter")])
  }

  method ExtractAllData(text: string) returns (r: Option<map<string, Option<string>>>)
    ensures r == AllData(text)
  {
    if Strip(text) == "" {
      return None;
    }
    var data := FillFields(ScannedPdf.FieldNames, f => FieldValue(f, text));
    data := data["Letter Type" := Some("Authorization Letter")];
    return Some(data);
  }

  /** Blank text gives no dictionary; any other text the eleven keys, each field's value, and an authorization letter. */
  lemma AllDataKeys(text: string)
    ensures AllData(text).None? <==> Strip(text) == ""
    ensures AllData(text).Some? ==> AllData(text).value.Keys == ScannedPdf.DataKeys
    ensures AllData(text).Some? ==> AllData(text).value["Letter Type"] == Some("Authorization Letter")
    ensures AllData(text).Some? ==> forall f :: f in ScannedPdf.FieldNames ==> AllData(text).value[f] == FieldValue(f, text)
  {
    ScannedPdf.FilledKeys(f => FieldValue(f, text), Some("Authorization Letter"));
  }

  /** The keys of `process_pdf`'s `formatted_data`: "AL Number" is commented out. */
  const OutputKeys: seq<string> := [
    "Approved Amount", "Date of Admission", "Date of Discharge", "Letter Type", "Name of the Patient",
    "Policy No", "Policy Period", "Remarks", "Total Bill Amount", "UHID Number"
  ]

  function Formatted(data: map<string, Option<string>>): map<string, Option<string>>
  {
    map k | k in OutputKeys :: if k in data then data[k] else None
  }

  /** `process_pdf` once the text is known. */
  function ProcessedText(text: string): Option<map<string, Option<string>>>
  {
    var d := AllData(text);
    if d.Some? then Some(Formatted(d.value)) else None
  }

  lemma OutputKeysKeys()
    ensures (set k | k in OutputKeys) == ScannedPdf.DataKeys - {"AL Number"}
  {
  }

  /** Reformatting drops "AL Number" and keeps every other entry. */
  lemma FormattedDropsAl(d: map<string, Option<string>>)
    requires d.Keys == ScannedPdf.DataKeys
    ensures Formatted(d).Keys == d.Keys - {"AL Number"}
    ensures forall k :: k in Formatted(d) ==> Formatted(d)[k] == d[k]
  {
    OutputKeysKeys();
  }

  /** `process_pdf`'s output is `extract_all_data`'s dictionary without its "AL Number". */
  lemma ProcessedDropsAl(text: string)
    ensures ProcessedText(text).None? <==> Strip(text) == ""
    ensures ProcessedText(text).Some? ==> "AL Number" !in ProcessedText(text).value
    ensures ProcessedText(text).Some? ==>
              ProcessedText(text).value.Keys == ScannedPdf.DataKeys - {"AL Number"} &&
              forall k :: k in ProcessedText(text).value ==> ProcessedText(text).value[k] == AllData(text).value[k]
  {
    AllDataKeys(text);
    if AllData(text).Some? {
      FormattedDropsAl(AllData(text).value);
    }
  }
}
