/**
 * `DataExtractor` of scannedpdf.py, once the PDF's text (its own or the OCR'd text of its
 * pages) is known: the pattern table, `clean_extracted_value`, `extract_field`,
 * `extract_remarks`, `extract_all_data` and the shaping of `process_pdf`'s output.
 */
module ScannedPdf {
  import opened Common
  import opened Text
  import opened Regex
  import opened OcrFields

  // ---------------------------------------------------------------- the pattern table

  /** `[A-Z0-9\-/]` and `[A-Z0-9]` */
  const IdClass: CharClass := Union(Range('A', 'Z'), Union(Range('0', '9'), Chars("-/")))
  const AlnumClass: CharClass := Union(Range('A', 'Z'), Range('0', '9'))

  /** `(\d+)` */
  const Digits: Item := Cap(1, Digit, 1, Unbounded, true)

  /** `\s*:?\s*` */
  const Sep: seq<Item> := [Ws0, OptColon, Ws0]

  /** `(?:w\s+)?`: an optional word followed by whitespace. */
  function OptWord(w: string): Item { Alt([Seq([Lit(w), Ws1]), Seq([])]) }

  /** `([^\n:]*?(?:2025|25))` */
  const UpToYear: Item := Group(1, [Rep(Negate(Chars("\n:")), 0, Unbounded, false), Alt([Lit("2025"), Lit("25")])])

  /** `([A-Z][a-zA-Z\s\.]{2,50})(?=\s+UHID|\s+Age|\s+Gender)` */
  const PatientName: seq<Item> := [
    Group(1, [Rep(Range('A', 'Z'), 1, AtMost(1), true),
              Rep(Union(Range('a', 'z'), Union(Range('A', 'Z'), Union(Space, Chars(".")))), 2, AtMost(50), true)]),
    Ahead([Seq([Ws1, Lit("UHID")]), Seq([Ws1, Lit("Age")]), Seq([Ws1, Lit("Gender")])])]

  const AlPatterns: seq<Pattern> := [
    CI(PhraseItems(["AL", "Number"]) + Sep + [Cap(1, IdClass, 1, Unbounded, true)]),
    CI(PhraseItems(["Authorization", "Letter", "Number"]) + Sep + [Cap(1, IdClass, 1, Unbounded, true)]),
    CI(PhraseItems(["AL", "No"]) + Sep + [Cap(1, IdClass, 1, Unbounded, true)]),
    CI(PhraseItems(["AL", "ID"]) + Sep + [Cap(1, IdClass, 1, Unbounded, true)]),
    CI([Lit("AL")] + Sep + [Cap(1, IdClass, 1, Unbounded, true)])
  ]

  const ApprovedPatterns: seq<Pattern> := [
    CI([Lit("Final"), Ws1, Alt([Lit("Sanctioned"), Lit("Approved")]), Ws1, Lit("Amount")] + Sep + [Digits]),
    CI([Lit("Amount"), Ws1, Alt([Seq(PhraseItems(["to", "be"]) + [Ws1]), Seq([])]), Alt([Lit("sanctioned"), Lit("approved")])] + Sep +
       [Rep(Union(Chars("Rs."), Space), 0, Unbounded, true), Digits]),
    CI(PhraseItems(["guarantee", "for", "payment", "of", "Rs"]) + [Ws0, Digits]),
    CI(PhraseItems(["Sanctioned", "Amount"]) + Sep + [Digits])
  ]

  const AdmissionPatterns: seq<Pattern> := [CI(PhraseItems(["Date", "of", "Admission"]) + Sep + [UpToYear])]

  const DischargePatterns: seq<Pattern> := [
    CI(PhraseItems(["Date", "of", "Discharge"]) + Sep + [UpToYear]),
    CI(PhraseItems(["Discharge", "Date"]) + Sep + [UpToYear])
  ]

  const NamePatterns: seq<Pattern> := [
    CI([Lit("Name"), Ws1, Lit("of"), Ws1, OptWord("the"), Lit("Patient")] + Sep + PatientName),
    CI(PhraseItems(["Patient", "Name"]) + Sep + PatientName),
    CI([Lit("Patient")] + Sep + PatientName)
  ]

  const PolicyNoPatterns: seq<Pattern> := [
    CI(PhraseItems(["Policy", "No"]) + Sep + [Cap(1, IdClass, 1, Unbounded, true)]),
    CI(PhraseItems(["Policy", "Number"]) + Sep + [Cap(1, IdClass, 1, Unbounded, true)])
  ]

  const PeriodPatterns: seq<Pattern> := [
    CI(PhraseItems(["Policy", "Period"]) + Sep + [UpToYear]),
    CI(PhraseItems(["Policy", "Term"]) + Sep + [UpToYear])
  ]

  const BillPatterns: seq<Pattern> := [
    CI(PhraseItems(["Total", "Bill", "Amount"]) + Sep + [Digits]),
    CI([Lit("Estimated"), Ws1, OptWord("Bill"), Lit("Amount")] + Sep + [Digits]),
    CI(PhraseItems(["Bill", "Amount"]) + Sep + [Digits])
  ]

  const UhidPatterns: seq<Pattern> := [
    CI(PhraseItems(["UHID", "Number"]) + Sep + [Cap(1, AlnumClass, 1, Unbounded, true)]),
    CI([Lit("UHID")] + Sep + [Cap(1, AlnumClass, 1, Unbounded, true)]),
    CI(PhraseItems(["Hospital", "ID"]) + Sep + [Cap(1, AlnumClass, 1, Unbounded, true)])
  ]

  /** The keys of `self.patterns`, in order. */
  const FieldNames: seq<string> := [
    "AL Number", "Approved Amount", "Date of Admission", "Date of Discharge", "Name of the Patient",
    "Policy No", "Policy Period", "Total Bill Amount", "UHID Number", "Remarks"
  ]

  /** `self.patterns.get(field_name, [])`; the "Remarks" patterns are never searched, `extract_remarks` is used instead. */
  function PatternsOf(field: string): seq<Pattern>
  {
    match field
    case "AL Number" => AlPatterns
    case "Approved Amount" => ApprovedPatterns
    case "Date of Admission" => AdmissionPatterns
    case "Date of Discharge" => DischargePatterns
    case "Name of the Patient" => NamePatterns
    case "Policy No" => PolicyNoPatterns
    case "Policy Period" => PeriodPatterns
    case "Total Bill Amount" => BillPatterns
    case "UHID Number" => UhidPatterns
    case _ => []
  }

  // ---------------------------------------------------------------- clean_extracted_value

  /** `[^A-Z0-9\-/]` is deleted (without upper-casing first). */
  predicate IsAlChar(c: char) { IsUpper(c) || IsDigit(c) || c == '-' || c == '/' }

  predicate IsDateField(field: string) { field == "Date of Admission" || field == "Date of Discharge" }

  /** `clean_extracted_value(value, field_name)` */
  function Clean(field: string, value: string): Option<string>
  {
    if value == "" then None
    else
      var w := Strip(value);
      if field == "Name of the Patient" then
        var c := Collapse(w);
        if Contains(Lower(c), "is discharged") || |Words(c)| < 2 then None else Some(c)
      else if IsDateField(field) then
        var h := HyphenateSpaces(w);
        if HasDigit(h) then Some(h) else None
      else if field == "Approved Amount" || field == "Total Bill Amount" then FirstDigitRun(w)
      else if field == "Policy Period" then Some(SquashSpaces(w))
      else if field == "Remarks" then Some(CleanRemarks(w))
      else if field == "AL Number" then
        var a := KeepChars(w, IsAlChar);
        if |a| > 3 then Some(a) else None
      else Some(w)
  }

  /** What a cleaned value of each field looks like. */
  predicate Shaped(field: string, r: string)
  {
    if field == "Name of the Patient" then
      SingleSpaced(r) && IsStripped(r) && |Words(r)| >= 2 && !Contains(Lower(r), "is discharged")
    else if IsDateField(field) then NoSpace(r) && HasDigit(r)
    else if field == "Approved Amount" || field == "Total Bill Amount" then |r| > 0 && AllDigits(r)
    else if field == "Policy Period" then SingleSpaced(r)
    else if field == "Remarks" then SingleSpaced(r) && IsStripped(r)
    else if field == "AL Number" then |r| > 3 && forall k :: 0 <= k < |r| ==> IsAlChar(r[k])
    else IsStripped(r)
  }

  /**
   * A cleaned name is whitespace-collapsed, has two words or more and does not mention "is
   * discharged"; a date has no whitespace left and a digit; an amount is a run of digits; an
   * AL Number is longer than three characters, all upper-case letters, digits, '-' or '/'.
   */
  lemma CleanShaped(field: string, value: string)
    ensures Clean(field, value).Some? ==> Shaped(field, Clean(field, value).value)
  {
    if value != "" {
      var w := Strip(value);
      if field == "Name of the Patient" {
        CollapseSingle(w);
      } else if field == "Policy Period" {
        SquashSpacesSingle(w);
      } else if field == "Remarks" {
        CleanRemarksSingle(w);
      }
    }
  }

  // ---------------------------------------------------------------- extract_field

  /** `extract_field(text, field_name)` */
  function FieldValue(field: string, text: string): Option<string>
  {
    if field == "Remarks" then Remarks(ApprovedRemarks, GenericRemarks, text)
    else
      var t := if IsDateField(field) then AfterPolicyPeriod(text) else text;
      FirstCleaned(PatternsOf(field), t, v => Clean(field, v))
  }

  /** `Remarks\s*:?.*?\n?(Pre\s*authorization\s+request\s+is\s+approved.*?)(?=...)`, IGNORECASE and DOTALL. */
  const ApprovedRemarks: Pattern := CI([Lit("Remarks"), Ws0, OptColon, Rep(AnyChar, 0, Unbounded, false),
                                        Rep(Chars("\n"), 0, AtMost(1), true), ApprovedRemark, RemarksEnd])

  /** `Remarks\s*:?.*?([^:]*?)(?=...)`, IGNORECASE and DOTALL. */
  const GenericRemarks: Pattern := CI([Lit("Remarks"), Ws0, OptColon, Rep(AnyChar, 0, Unbounded, false), UpToColon, RemarksEnd])

  method ExtractField(text: string, field: string) returns (r: Option<string>)
    ensures r == FieldValue(field, text)
  {
    if field == "Remarks" {
      r := ExtractRemarks(ApprovedRemarks, GenericRemarks, text);
      return;
    }
    var t := text;
    if IsDateField(field) {
      var policyMatch := Search(PolicyPeriodLine, t);
      if policyMatch.Some? {
        t := t[policyMatch.value.end..];
      }
    }
    r := SearchCleaned(PatternsOf(field), t, v => Clean(field, v));
  }

  /**
   * Every field's value is one its cleaner produced, non-empty and of the field's shape;
   * a field other than "Remarks" takes the first of its patterns that matches and whose
   * first match cleans to a non-empty value, and the dates look only after the "Policy
   * Period" line.
   */
  lemma FieldValueShaped(field: string, text: string)
    ensures var r := FieldValue(field, text);
            r.Some? ==> r.value != "" || field == "Remarks"
    ensures var r := FieldValue(field, text);
            r.Some? && field != "Remarks" ==> Shaped(field, r.value)
    ensures field != "Remarks" ==>
              FieldValue(field, text) == FirstCleaned(PatternsOf(field), if IsDateField(field) then AfterPolicyPeriod(text) else text, v => Clean(field, v))
  {
    if field != "Remarks" {
      var t := if IsDateField(field) then AfterPolicyPeriod(text) else text;
      var clean := v => Clean(field, v);
      FirstCleanedIs(PatternsOf(field), t, clean);
      var r := FirstCleaned(PatternsOf(field), t, clean);
      if r.Some? {
        var k :| 0 <= k < |PatternsOf(field)| && !Passed(PatternsOf(field), t, clean, k) &&
                 r == clean(FirstGroupOf(PatternsOf(field)[k], t).value);
        CleanShaped(field, FirstGroupOf(PatternsOf(field)[k], t).value);
      }
    }
  }

  // ---------------------------------------------------------------- extract_all_data

  /** `extract_all_data` once the text is known: None for blank text. */
  function AllData(text: string): Option<map<string, Option<string>>>
  {
    if Strip(text) == "" then None
    else Some(Filled(FieldNames, f => FieldValue(f, text))["Letter Type" := Some("Authorization Letter")])
  }

  method ExtractAllData(text: string) returns (r: Option<map<string, Option<string>>>)
    ensures r == AllData(text)
  {
    if Strip(text) == "" {
      return None;
    }
    var data := FillFields(FieldNames, f => FieldValue(f, text));
    data := data["Letter Type" := Some("Authorization Letter")];
    return Some(data);
  }

  /** The keys of the dictionary: the pattern table's ten and "Letter Type". */
  const DataKeys: set<string> := {
    "AL Number", "Approved Amount", "Date of Admission", "Date of Discharge", "Name of the Patient",
    "Policy No", "Policy Period", "Total Bill Amount", "UHID Number", "Remarks", "Letter Type"
  }

  /** The pattern table's names and "Letter Type" are the eleven keys. */
  lemma FieldNamesKeys()
    ensures (set n | n in FieldNames) + {"Letter Type"} == DataKeys
  {
  }

  /** Filling the table and adding "Letter Type" gives the eleven keys, whatever each field's value. */
  lemma FilledKeys(get: string -> Option<string>, t: Option<string>)
    ensures Filled(FieldNames, get)["Letter Type" := t].Keys == DataKeys
    ensures forall f :: f in FieldNames ==> Filled(FieldNames, get)["Letter Type" := t][f] == get(f)
  {
    FieldNamesKeys();
    LetterTypeNotField();
    var m := Filled(FieldNames, get);
    forall f | f in FieldNames
      ensures m["Letter Type" := t][f] == get(f)
    {
      assert f != "Letter Type";
      assert m[f] == get(f);
    }
  }

  lemma LetterTypeNotField()
    ensures "Letter Type" !in FieldNames
  {
  }

  /** Blank text gives no dictionary; any other text the eleven keys, and an authorization letter. */
  lemma AllDataKeys(text: string)
    ensures AllData(text).None? <==> Strip(text) == ""
    ensures AllData(text).Some? ==> AllData(text).value.Keys == DataKeys
    ensures AllData(text).Some? ==> AllData(text).value["Letter Type"] == Some("Authorization Letter")
    ensures AllData(text).Some? ==> forall f :: f in FieldNames ==> AllData(text).value[f] == FieldValue(f, text)
  {
    FilledKeys(f => FieldValue(f, text), Some("Authorization Letter"));
  }

  // ---------------------------------------------------------------- process_pdf

  /** The keys of `process_pdf`'s `formatted_data`, in order. */
  const OutputKeys: seq<string> := [
    "AL Number", "Approved Amount", "Date of Admission", "Date of Discharge", "Letter Type", "Name of the Patient",
    "Policy No", "Policy Period", "Remarks", "Total Bill Amount", "UHID Number"
  ]

  /** `{key: data.get(key) for key in OutputKeys}` */
  function Formatted(data: map<string, Option<string>>): map<string, Option<string>>
  {
    map k | k in OutputKeys :: if k in data then data[k] else None
  }

  /** `process_pdf` once the text is known: the reformatted dictionary, or None. */
  function ProcessedText(text: string): Option<map<string, Option<string>>>
  {
    var d := AllData(text);
    if d.Some? then Some(Formatted(d.value)) else None
  }

  lemma OutputKeysKeys()
    ensures (set k | k in OutputKeys) == DataKeys
  {
  }

  /** Reformatting a dictionary with the eleven keys changes nothing. */
  lemma FormattedSame(d: map<string, Option<string>>)
    requires d.Keys == DataKeys
    ensures Formatted(d) == d
  {
    OutputKeysKeys();
  }

  /** Reformatting only reorders the keys: `process_pdf` returns what `extract_all_data` did. */
  lemma ProcessedIsAllData(text: string)
    ensures ProcessedText(text) == AllData(text)
  {
    AllDataKeys(text);
    if AllData(text).Some? {
      FormattedSame(AllData(text).value);
    }
  }
}
