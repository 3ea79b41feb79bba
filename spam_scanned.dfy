/**
 * `DataExtractor` of spam_scanned.py once the (OCR'd) text is known: its pattern table,
 * `clean_extracted_value`, `extract_field` (every match of every pattern, an exception
 * skipping the rest of that pattern), `extract_all_data` and `process_pdf`'s output.
 */
module SpamScanned {
  import opened Common
  import opened Text
  import opened Regex
  import opened OcrFields
  import ScannedPdf

  // ---------------------------------------------------------------- the pattern table

  /** Words separated by `\s*`. */
  function Glued(words: seq<string>): (items: seq<Item>)
    decreases |words|
  {
    if |words| == 0 then [] else if |words| == 1 then [Lit(words[0])] else [Lit(words[0]), Ws0] + Glued(words[1..])
  }

  /** Every pattern is searched with IGNORECASE and MULTILINE. */
  function CM(items: seq<Item>): Pattern { Pattern(items, true, true) }

  /** `Rs\.?\s*` */
  const Rs: seq<Item> := [Lit("Rs"), Rep(Chars("."), 0, AtMost(1), true), Ws0]

  /** `[\d-]+[A-Za-z]{3,}[-\d]*` */
  const DateItems: seq<Item> := [
    Rep(Union(Digit, Chars("-")), 1, Unbounded, true),
    Rep(Union(Range('A', 'Z'), Range('a', 'z')), 3, Unbounded, true),
    Rep(Union(Chars("-"), Digit), 0, Unbounded, true)]

  const IdCap: Item := Cap(1, ScannedPdf.IdClass, 1, Unbounded, true)
  const AlnumCap: Item := Cap(1, ScannedPdf.AlnumClass, 1, Unbounded, true)

  /** `([A-Z][a-zA-Z\s]+)` */
  const NameGroup: Item := Group(1, [Rep(Range('A', 'Z'), 1, AtMost(1), true),
                                     Rep(Union(Range('a', 'z'), Union(Range('A', 'Z'), Space)), 1, Unbounded, true)])

  const AlPatterns: seq<Pattern> := [
    CM(Glued(["AL", "Number"]) + ScannedPdf.Sep + [IdCap]),
    CM(Glued(["Authorization", "Letter", "Number"]) + ScannedPdf.Sep + [IdCap])
  ]

  const ApprovedPatterns: seq<Pattern> := [
    CM(Glued(["Final", "Amount", "Sanctioned"]) + ScannedPdf.Sep + Rs + [ScannedPdf.Digits]),
    CM(Glued(["guarantee", "for", "payment", "of", "Rs"]) + [Ws0, ScannedPdf.Digits]),
    CM(Glued(["Approved", "Amount"]) + ScannedPdf.Sep + Rs + [ScannedPdf.Digits])
  ]

  const AdmissionPatterns: seq<Pattern> := [
    CM(Glued(["Date", "of", "Admission"]) + ScannedPdf.Sep + [Group(1, DateItems)]),
    CM(Glued(["Admission", "Date"]) + ScannedPdf.Sep + [Group(1, DateItems)])
  ]

  const DischargePatterns: seq<Pattern> := [
    CM(Glued(["Date", "of", "Discharge"]) + ScannedPdf.Sep + [Group(1, DateItems)]),
    CM(Glued(["Discharge", "Date"]) + ScannedPdf.Sep + [Group(1, DateItems)])
  ]

  const NamePatterns: seq<Pattern> := [
    CM(Glued(["Name", "of", "the", "Patient"]) + ScannedPdf.Sep +
       [NameGroup, Ahead([Seq([Ws0, Lit("UHID")]), Seq([Ws0, Lit("Policy")])])]),
    CM(Glued(["Patient", "Name"]) + ScannedPdf.Sep + [NameGroup])
  ]

  const PolicyNoPatterns: seq<Pattern> := [
    CM(Glued(["Policy", "No"]) + ScannedPdf.Sep + [IdCap]),
    CM(Glued(["Policy", "Number"]) + ScannedPdf.Sep + [IdCap])
  ]

  /** `([\d-]+[A-Za-z]{3,}[-\d]*\s*To\s*[\d-]+[A-Za-z]{3,}[-\d]*)` */
  const PeriodGroup: Item := Group(1, DateItems + [Ws0, Lit("To"), Ws0] + DateItems)

  const PeriodPatterns: seq<Pattern> := [
    CM(Glued(["Policy", "Period"]) + ScannedPdf.Sep + [PeriodGroup]),
    CM(Glued(["Policy", "Term"]) + ScannedPdf.Sep + [PeriodGroup])
  ]

  const BillPatterns: seq<Pattern> := [
    CM(Glued(["Total", "Bill", "Amount"]) + ScannedPdf.Sep + [ScannedPdf.Digits]),
    CM(Glued(["Bill", "Amount"]) + ScannedPdf.Sep + [ScannedPdf.Digits]),
    CM(Glued(["Final", "Requested", "Amount"]) + ScannedPdf.Sep + Rs + [ScannedPdf.Digits])
  ]

  const UhidPatterns: seq<Pattern> := [
    CM(Glued(["UHID", "Number"]) + ScannedPdf.Sep + [AlnumCap]),
    CM([Lit("UHID")] + ScannedPdf.Sep + [AlnumCap])
  ]

  /** `Remarks\s*:?\s*(.*?)(?=\n\s*[A-Z][a-z]+\s*:|$)` and `Remarks\s*:?\s*(.*?)(?=\n\s*For\s+any\s+cashless)` */
  const RemarksPatterns: seq<Pattern> := [
    CM([Lit("Remarks")] + ScannedPdf.Sep + [Cap(1, NotNewline, 0, Unbounded, false),
       Ahead([Seq([Lit("\n"), Ws0, Rep(Range('A', 'Z'), 1, AtMost(1), true), Rep(Range('a', 'z'), 1, Unbounded, true), Ws0, Lit(":")]),
              LineEnd])]),
    CM([Lit("Remarks")] + ScannedPdf.Sep + [Cap(1, NotNewline, 0, Unbounded, false),
       Ahead([Seq([Lit("\n"), Ws0] + PhraseItems(["For", "any", "cashless"]))])])
  ]

  /** `self.patterns.get(field_name, [])`; the keys are scannedpdf.py's, in the same order. */
  function PatternsOf(field: string): seq<Pattern>
  {
    match field
    case "AL Number" => AlPatterns
    case "Approved Amount" => ApprovedPatterns
    case "Date of Admission" => AdmissionPatterns
    case "Date of Discharge" => DischargePatterns
    case "Name of the Patient" => NamePatterns
    case "Policy No" => PolicyNoPatterns
    case "Policy Period" => PeriodPatterns
    case "Total Bill Amount" => BillPatterns
    case "UHID Number" => UhidPatterns
    case "Remarks" => RemarksPatterns
    case _ => []
  }

  // ---------------------------------------------------------------- character helpers

  /** `str.title()` on ASCII text: a letter after a letter is lowered, any other letter raised. */
  function Title(s: string): (r: string)
    ensures |r| == |s|
  {
    TitleFrom(s, false)
  }

  function TitleFrom(s: string, afterLetter: bool): (r: string)
    ensures |r| == |s|
    decreases |s|
  {
    if |s| == 0 then ""
    else
      var c := s[0];
      var d := if !IsLetter(c) then c else if afterLetter then ToLower(c) else ToUpper(c);
      [d] + TitleFrom(s[1..], IsLetter(c))
  }

  /** A title-cased string: each letter is upper-case exactly when it does not follow a letter. */
  predicate Titled(r: string)
  {
    forall k :: 0 <= k < |r| && IsLetter(r[k]) ==> (IsUpper(r[k]) <==> (k == 0 || !IsLetter(r[k - 1])))
  }

  /**
   * `Title` keeps every non-letter and the letter-ness of every character, and its result is
   * title-cased (when the first character follows no letter).
   */
  lemma {:induction false} TitleFromCases(s: string, afterLetter: bool)
    ensures forall k :: 0 <= k < |s| ==> (IsLetter(TitleFrom(s, afterLetter)[k]) <==> IsLetter(s[k]))
    ensures forall k :: 0 <= k < |s| && !IsLetter(s[k]) ==> TitleFrom(s, afterLetter)[k] == s[k]
    ensures forall k :: 0 < k < |s| && IsLetter(s[k]) ==>
              (IsUpper(TitleFrom(s, afterLetter)[k]) <==> !IsLetter(s[k - 1]))
    ensures |s| > 0 && IsLetter(s[0]) ==> (IsUpper(TitleFrom(s, afterLetter)[0]) <==> !afterLetter)
    decreases |s|
  {
    if |s| > 0 {
      var r := TitleFrom(s, afterLetter);
      var q := TitleFrom(s[1..], IsLetter(s[0]));
      TitleFromCases(s[1..], IsLetter(s[0]));
      assert r == [r[0]] + q;
      forall k | 0 < k < |s|
        ensures r[k] == q[k - 1] && s[k] == s[1..][k - 1]
      {
      }
    }
  }

  lemma TitleTitled(s: string)
    ensures Titled(Title(s))
    ensures forall k :: 0 <= k < |s| ==> (IsLetter(Title(s)[k]) <==> IsLetter(s[k]))
    ensures forall k :: 0 <= k < |s| && !IsLetter(s[k]) ==> Title(s)[k] == s[k]
  {
    TitleFromCases(s, false);
  }

  /** `re.sub(r'[^\w\s-]', '-', s)`: every other character becomes '-'. */
  function Dashed(s: string): (r: string)
    ensures |r| == |s|
  {
    seq(|s|, k requires 0 <= k < |s| => if DateChar(s[k]) then s[k] else '-')
  }

  /** `[\w\s-]` */
  predicate DateChar(c: char) { IsWordChar(c) || IsSpace(c) || c == '-' }

  /** The twelve `month_map` entries: each month's abbreviation maps to itself. */
  const MonthMap: seq<(string, string)> := [
    ("JAN", "JAN"), ("FEB", "FEB"), ("MAR", "MAR"), ("APR", "APR"), ("MAY", "MAY"), ("JUN", "JUN"),
    ("JUL", "JUL"), ("AUG", "AUG"), ("SEP", "SEP"), ("OCT", "OCT"), ("NOV", "NOV"), ("DEC", "DEC")]

  /** `for wrong, correct in month_map.items(): value = value.replace(wrong.upper(), correct)`, from entry `i` on. */
  function MonthsFixed(s: string, i: nat): string
    requires i <= |MonthMap|
    decreases |MonthMap| - i
  {
    if i == |MonthMap| then s else MonthsFixed(Replace(s, Upper(MonthMap[i].0), MonthMap[i].1), i + 1)
  }

  /** The month loop changes nothing: every entry maps an upper-case abbreviation to itself. */
  lemma {:induction false} MonthsFixedSame(s: string, i: nat)
    requires i <= |MonthMap|
    ensures MonthsFixed(s, i) == s
    decreases |MonthMap| - i
  {
    if i < |MonthMap| {
      var w := MonthMap[i].0;
      assert Upper(w) == w && MonthMap[i].1 == w;
      ReplaceSame(s, w);
      MonthsFixedSame(s, i + 1);
    }
  }

  method FixMonths(s: string) returns (r: string)
    ensures r == MonthsFixed(s, 0)
    ensures r == s
  {
    r := s;
    var i := 0;
    while i < |MonthMap|
      invariant i <= |MonthMap|
      invariant MonthsFixed(r, i) == MonthsFixed(s, 0)
    {
      r := Replace(r, Upper(MonthMap[i].0), MonthMap[i].1);
      i := i + 1;
    }
    MonthsFixedSame(s, 0);
  }

  /** Admitted characters of each identifier field: `A-Z0-9\-/`, `A-Z0-9\/\-` and `A-Z0-9`. */
  predicate IdChar(c: char) { IsUpper(c) || IsDigit(c) || c == '-' || c == '/' }
  predicate AlnumChar(c: char) { IsUpper(c) || IsDigit(c) }

  /** `[^a-zA-Z\s\.]` is deleted from a name. */
  predicate NameChar(c: char) { IsLetter(c) || IsSpace(c) || c == '.' }

  predicate IsDateField(field: string) { field == "Date of Admission" || field == "Date of Discharge" }
  predicate IsIdField(field: string) { field == "AL Number" || field == "Policy No" || field == "UHID Number" }

  // ---------------------------------------------------------------- clean_extracted_value

  /** The date cleaning: 'o' and 'O' become '0', other punctuation '-', then upper case. */
  function CleanDate(w: string): Option<string>
  {
    var a := Replace(Replace(w, "o", "0"), "O", "0");
    var b := MonthsFixed(Dashed(a), 0);
    if HasDigit(b) then Some(Upper(b)) else None
  }

  /**
   * The Policy Period cleaning as evidently intended: "To"/"TO" lowered, characters other than
   * word characters, whitespace and '-' replaced by '-', kept when it has a digit.
   */
  function CleanPeriod(w: string): Option<string>
  {
    var b := Dashed(Replace(Replace(w, "To", "to"), "TO", "to"));
    if HasDigit(b) then Some(b) else None
  }

  /** `clean_extracted_value`, with the Policy Period branch as evidently intended. */
  function Clean(field: string, value: string): Option<string>
  {
    if value == "" then None
    else
      var w := SquashSpaces(Strip(value));
      if field == "Name of the Patient" then
        var t := Title(KeepChars(w, NameChar));
        if |Words(t)| >= 2 then Some(t) else None
      else if IsDateField(field) then CleanDate(w)
      else if field == "Policy Period" then CleanPeriod(w)
      else if field == "Approved Amount" || field == "Total Bill Amount" then FirstDigitRun(Replace(w, ",", ""))
      else if IsIdField(field) then
        var a := KeepChars(Upper(w), if field == "UHID Number" then AlnumChar else IdChar);
        if |a| >= 3 then Some(a) else None
      else if field == "Remarks" then Some(Strip(w))
      else Some(w)
  }

  /**
   * `clean_extracted_value` as written: compiling `[^\w\s-to]` raises ("bad character range
   * \s-t"), so every non-empty Policy Period value ends in an exception.
   */
  function CleanAsWritten(field: string, value: string): Result<Option<string>>
  {
    if field == "Policy Period" && value != "" then Err("bad character range \\s-t")
    else Ok(Clean(field, value))
  }

  /** What a value of each field looks like. */
  predicate Shaped(field: string, r: string)
  {
    if field == "Name of the Patient" then
      (forall k :: 0 <= k < |r| ==> NameChar(r[k])) && Titled(r) && |Words(r)| >= 2
    else if IsDateField(field) then
      HasDigit(r) && forall k :: 0 <= k < |r| ==> DateChar(r[k]) && !IsLower(r[k]) && r[k] != 'O'
    else if field == "Policy Period" then
      HasDigit(r) && forall k :: 0 <= k < |r| ==> DateChar(r[k])
    else if field == "Approved Amount" || field == "Total Bill Amount" then |r| > 0 && AllDigits(r)
    else if field == "UHID Number" then |r| >= 3 && forall k :: 0 <= k < |r| ==> AlnumChar(r[k])
    else if IsIdField(field) then |r| >= 3 && forall k :: 0 <= k < |r| ==> IdChar(r[k])
    else if field == "Remarks" then IsStripped(r) && SingleSpaced(r)
    else true
  }

  /** A date has a digit; no lower-case letter, no 'O' and no punctuation other than '-' is left. */
  lemma CleanDateShaped(w: string)
    ensures CleanDate(w).Some? ==> Shaped("Date of Admission", CleanDate(w).value)
  {
    var a1 := Replace(w, "o", "0");
    var a := Replace(a1, "O", "0");
    ReplaceChar(w, 'o', '0');
    ReplaceChar(a1, 'O', '0');
    var d := Dashed(a);
    MonthsFixedSame(d, 0);
    if HasDigit(d) {
      var u := Upper(d);
      var j :| 0 <= j < |d| && IsDigit(d[j]);
      assert IsDigit(u[j]);
      forall k | 0 <= k < |u|
        ensures DateChar(u[k]) && !IsLower(u[k]) && u[k] != 'O'
      {
        assert d[k] != 'o' && d[k] != 'O';
      }
    }
  }

  lemma CleanPeriodShaped(w: string)
    ensures CleanPeriod(w).Some? ==> Shaped("Policy Period", CleanPeriod(w).value)
  {
  }

  lemma CleanNameShaped(w: string)
    ensures var t := Title(KeepChars(w, NameChar));
            |Words(t)| >= 2 ==> Shaped("Name of the Patient", t)
  {
    var n := KeepChars(w, NameChar);
    TitleTitled(n);
  }

  /** Each cleaned value has the shape of its field. */
  lemma CleanShaped(field: string, value: string)
    ensures Clean(field, value).Some? ==> Shaped(field, Clean(field, value).value)
  {
    if value != "" {
      var w := SquashSpaces(Strip(value));
      if field == "Name of the Patient" {
        CleanNameShaped(w);
      } else if IsDateField(field) {
        CleanDateShaped(w);
      } else if field == "Policy Period" {
        CleanPeriodShaped(w);
      } else if field == "Remarks" {
        SquashSpacesSingle(Strip(value));
        InfixSingleSpaced(Strip(w), w);
      }
    }
  }

  // ---------------------------------------------------------------- extract_field

  /**
   * `for match in matches: value = match.group(1).strip(); cleaned = clean(value); if cleaned:
   * return cleaned`, from match `j` on: the first truthy value, `Ok(None)` when there is none,
   * or the exception that ends the loop.
   */
  function MatchValue(ms: seq<Match>, s: string, clean: string -> Result<Option<string>>, j: nat): (r: Result<Option<string>>)
    requires j <= |ms| && forall k :: 0 <= k < |ms| ==> ValidMatch(ms[k], s)
    decreases |ms| - j
  {
    if j == |ms| then Ok(None)
    else
      var c := clean(Strip(GroupText(ms[j], s, 1)));
      if c.Err? || Truthy(c.value) then c else MatchValue(ms, s, clean, j + 1)
  }

  /** The loop over the patterns from pattern `i` on: a pattern whose matches raise or yield nothing is skipped. */
  function FieldFrom(ps: seq<Pattern>, s: string, clean: string -> Result<Option<string>>, i: nat): (r: Option<string>)
    requires i <= |ps|
    decreases |ps| - i
  {
    if i == |ps| then None
    else
      var v := MatchValue(FindAll(ps[i], s), s, clean, 0);
      if v.Ok? && v.value.Some? then v.value else FieldFrom(ps, s, clean, i + 1)
  }

  /** `extract_field(text, field_name)` with the as-written cleaning. */
  function FieldValueAsWritten(field: string, text: string): Option<string>
  {
    FieldFrom(PatternsOf(field), text, v => CleanAsWritten(field, v), 0)
  }

  /** `extract_field(text, field_name)` with the Policy Period cleaning as intended. */
  function FieldValue(field: string, text: string): Option<string>
  {
    FieldFrom(PatternsOf(field), text, v => Ok(Clean(field, v)), 0)
  }

  /** A value the loop over the matches returns is one `clean` gave for one of them, and it is non-empty. */
  lemma {:induction false} MatchValueFrom(ms: seq<Match>, s: string, clean: string -> Result<Option<string>>, j: nat)
    requires j <= |ms| && forall k :: 0 <= k < |ms| ==> ValidMatch(ms[k], s)
    ensures var r := MatchValue(ms, s, clean, j);
            r.Ok? && r.value.Some? ==>
              r.value.value != "" && exists k :: j <= k < |ms| && clean(Strip(GroupText(ms[k], s, 1))) == r
    decreases |ms| - j
  {
    if j < |ms| {
      var c := clean(Strip(GroupText(ms[j], s, 1)));
      if !(c.Err? || Truthy(c.value)) {
        MatchValueFrom(ms, s, clean, j + 1);
        var r := MatchValue(ms, s, clean, j + 1);
        if r.Ok? && r.value.Some? {
          var k :| j + 1 <= k < |ms| && clean(Strip(GroupText(ms[k], s, 1))) == r;
          assert j <= k;
        }
      }
    }
  }

  /** A field's value is non-empty and is what `clean` gave for a match of one of the field's patterns. */
  lemma {:induction false} FieldFromIs(ps: seq<Pattern>, s: string, clean: string -> Result<Option<string>>, i: nat)
    requires i <= |ps|
    ensures var r := FieldFrom(ps, s, clean, i);
            r.Some? ==> (r.value != "" &&
              exists k, m :: i <= k < |ps| && 0 <= m < |FindAll(ps[k], s)| &&
                clean(Strip(GroupText(FindAll(ps[k], s)[m], s, 1))) == Ok(r))
    decreases |ps| - i
  {
    if i < |ps| {
      var ms := FindAll(ps[i], s);
      var v := MatchValue(ms, s, clean, 0);
      if v.Ok? && v.value.Some? {
        MatchValueFrom(ms, s, clean, 0);
        var m :| 0 <= m < |ms| && clean(Strip(GroupText(ms[m], s, 1))) == v;
        assert clean(Strip(GroupText(FindAll(ps[i], s)[m], s, 1))) == Ok(FieldFrom(ps, s, clean, i));
      } else {
        FieldFromIs(ps, s, clean, i + 1);
      }
    }
  }

  /** Every value the extraction returns is non-empty and of its field's shape. */
  lemma FieldValueShaped(field: string, text: string)
    ensures FieldValue(field, text).Some? ==>
              FieldValue(field, text).value != "" && Shaped(field, FieldValue(field, text).value)
  {
    var clean := v => Ok(Clean(field, v));
    var ps := PatternsOf(field);
    FieldFromIs(ps, text, clean, 0);
    var r := FieldValue(field, text);
    if r.Some? {
      var k, m :| 0 <= k < |ps| && 0 <= m < |FindAll(ps[k], text)| &&
                  clean(Strip(GroupText(FindAll(ps[k], text)[m], text, 1))) == Ok(r);
      CleanShaped(field, Strip(GroupText(FindAll(ps[k], text)[m], text, 1)));
    }
  }

  // ---------------------------------------------------------------- the Policy Period exception

  /** A cleaner that raises on every non-empty value never lets a match through. */
  lemma {:induction false} RaisingMatchValue(ms: seq<Match>, s: string, clean: string -> Result<Option<string>>, j: nat)
    requires j <= |ms| && forall k :: 0 <= k < |ms| ==> ValidMatch(ms[k], s)
    requires forall v :: clean(v).Err? || clean(v) == Ok(None) || clean(v) == Ok(Some(""))
    ensures var r := MatchValue(ms, s, clean, j); !(r.Ok? && r.value.Some?)
    decreases |ms| - j
  {
    if j < |ms| {
      RaisingMatchValue(ms, s, clean, j + 1);
    }
  }

  lemma {:induction false} RaisingFieldFrom(ps: seq<Pattern>, s: string, clean: string -> Result<Option<string>>, i: nat)
    requires i <= |ps|
    requires forall v :: clean(v).Err? || clean(v) == Ok(None) || clean(v) == Ok(Some(""))
    ensures FieldFrom(ps, s, clean, i).None?
    decreases |ps| - i
  {
    if i < |ps| {
      RaisingMatchValue(FindAll(ps[i], s), s, clean, 0);
      RaisingFieldFrom(ps, s, clean, i + 1);
    }
  }

  /** As written, "Policy Period" is never extracted, whatever the text. */
  lemma PeriodNeverExtracted(text: string)
    ensures FieldValueAsWritten("Policy Period", text).None?
  {
    var clean := v => CleanAsWritten("Policy Period", v);
    forall v ensures clean(v).Err? || clean(v) == Ok(None) || clean(v) == Ok(Some("")) {
      if v == "" { assert clean(v) == Ok(None); }
    }
    RaisingFieldFrom(PatternsOf("Policy Period"), text, clean, 0);
  }

  /** As intended, a cleaned period is kept exactly when the captured text has a digit. */
  lemma CleanPeriodDigits(w: string)
    ensures CleanPeriod(w).Some? <==> HasDigit(w)
  {
    var a1 := Replace(w, "To", "to");
    var a := Replace(a1, "TO", "to");
    ReplaceHasDigit(w, "To", "to");
    ReplaceHasDigit(a1, "TO", "to");
    var b := Dashed(a);
    if HasDigit(a) {
      var k :| 0 <= k < |a| && IsDigit(a[k]);
      assert IsDigit(b[k]);
    }
    if HasDigit(b) {
      var k :| 0 <= k < |b| && IsDigit(b[k]);
      assert IsDigit(a[k]);
    }
  }

  // ---------------------------------------------------------------- the loops

  /** The inner loop over the matches of one pattern. */
  method ScanMatches(ms: seq<Match>, s: string, clean: string -> Result<Option<string>>) returns (r: Result<Option<string>>)
    requires forall k :: 0 <= k < |ms| ==> ValidMatch(ms[k], s)
    ensures r == MatchValue(ms, s, clean, 0)
  {
    var j := 0;
    while j < |ms|
      invariant j <= |ms|
      invariant MatchValue(ms, s, clean, j) == MatchValue(ms, s, clean, 0)
    {
      var value := Strip(GroupText(ms[j], s, 1));
      var cleaned := clean(value);
      if cleaned.Err? {
        return cleaned;
      }
      if cleaned.value.Some? && cleaned.value.value != "" {
        return cleaned;
      }
      j := j + 1;
    }
    return Ok(None);
  }

  /** The outer loop over the patterns. */
  method SearchField(ps: seq<Pattern>, text: string, clean: string -> Result<Option<string>>) returns (r: Option<string>)
    ensures r == FieldFrom(ps, text, clean, 0)
  {
    var i := 0;
    while i < |ps|
      invariant i <= |ps|
      invariant FieldFrom(ps, text, clean, i) == FieldFrom(ps, text, clean, 0)
    {
      var ms := FindAll(ps[i], text);
      var v := ScanMatches(ms, text, clean);
      if v.Ok? && v.value.Some? {
        return v.value;
      }
      i := i + 1;
    }
    return None;
  }

  /** `extract_field`: the patterns in order, an exception skipping to the next one. */
  method ExtractField(text: string, field: string) returns (r: Option<string>)
    ensures r == FieldValue(field, text)
  {
    r := SearchField(PatternsOf(field), text, v => Ok(Clean(field, v)));
  }

  // ---------------------------------------------------------------- extract_all_data, process_pdf

  /** `extract_all_data` once the text is known. */
  function AllData(text: string): Option<map<string, Option<string>>>
  {
    if Strip(text) == "" then None
    else Some(Filled(ScannedPdf.FieldNames, f => FieldValue(f, text))["Letter Type" := Some("Authorization Letter")])
  }

  /** `extract_all_data` with the as-written cleaning. */
  function AllDataAsWritten(text: string): Option<map<string, Option<string>>>
  {
    if Strip(text) == "" then None
    else Some(Filled(ScannedPdf.FieldNames, f => FieldValueAsWritten(f, text))["Letter Type" := Some("Authorization Letter")])
  }

  method ExtractAllData(text: string) returns (r: Option<map<string, Option<string>>>)
    ensures r == AllData(text)
  {
    if Strip(text) == "" {
      return None;
    }
    var data := FillFields(ScannedPdf.FieldNames, f => FieldValue(f, text));
    data := data["Letter Type" := Some("Authorization Letter")];
    return Some(data);
  }

  lemma AllDataKeys(text: string)
    ensures AllData(text).None? <==> Strip(text) == ""
    ensures AllData(text).Some? ==> AllData(text).value.Keys == ScannedPdf.DataKeys
    ensures AllData(text).Some? ==> AllData(text).value["Letter Type"] == Some("Authorization Letter")
    ensures AllData(text).Some? ==> forall f :: f in ScannedPdf.FieldNames ==> AllData(text).value[f] == FieldValue(f, text)
  {
    ScannedPdf.FilledKeys(f => FieldValue(f, text), Some("Authorization Letter"));
  }

  /** Cleaners that agree on every value give the same field. */
  lemma {:induction false} SameCleanSameField(ps: seq<Pattern>, s: string, c1: string -> Result<Option<string>>,
                                              c2: string -> Result<Option<string>>, i: nat)
    requires i <= |ps| && forall v :: c1(v) == c2(v)
    ensures FieldFrom(ps, s, c1, i) == FieldFrom(ps, s, c2, i)
    decreases |ps| - i
  {
    if i < |ps| {
      SameCleanSameMatch(FindAll(ps[i], s), s, c1, c2, 0);
      SameCleanSameField(ps, s, c1, c2, i + 1);
    }
  }

  lemma {:induction false} SameCleanSameMatch(ms: seq<Match>, s: string, c1: string -> Result<Option<string>>,
                                              c2: string -> Result<Option<string>>, j: nat)
    requires j <= |ms| && forall k :: 0 <= k < |ms| ==> ValidMatch(ms[k], s)
    requires forall v :: c1(v) == c2(v)
    ensures MatchValue(ms, s, c1, j) == MatchValue(ms, s, c2, j)
    decreases |ms| - j
  {
    if j < |ms| {
      SameCleanSameMatch(ms, s, c1, c2, j + 1);
    }
  }

  /** Only "Policy Period" tells the as-written extraction from the intended one. */
  lemma AsWrittenOtherFields(field: string, text: string)
    requires field != "Policy Period"
    ensures FieldValueAsWritten(field, text) == FieldValue(field, text)
  {
    SameCleanSameField(PatternsOf(field), text, v => CleanAsWritten(field, v), v => Ok(Clean(field, v)), 0);
  }

  /** Two fillings that differ only in "Policy Period", None in the first, differ only there. */
  lemma FilledExceptPeriod(g1: string -> Option<string>, g2: string -> Option<string>, t: Option<string>)
    requires forall f :: f != "Policy Period" ==> g1(f) == g2(f)
    requires g1("Policy Period") == None
    ensures Filled(ScannedPdf.FieldNames, g1)["Letter Type" := t] == Filled(ScannedPdf.FieldNames, g2)["Letter Type" := t]["Policy Period" := None]
  {
    var d1 := Filled(ScannedPdf.FieldNames, g1)["Letter Type" := t];
    var d2 := Filled(ScannedPdf.FieldNames, g2)["Letter Type" := t]["Policy Period" := None];
    ScannedPdf.FilledKeys(g1, t);
    ScannedPdf.FilledKeys(g2, t);
    assert "Policy Period" in ScannedPdf.DataKeys;
    assert d1.Keys == d2.Keys;
    forall f | f in d1
      ensures d1[f] == d2[f]
    {
    }
  }

  /** As written, `extract_all_data` gives the intended dictionary with "Policy Period" always None. */
  lemma AllDataAsWrittenPeriod(text: string)
    ensures AllDataAsWritten(text).None? <==> AllData(text).None?
    ensures AllData(text).Some? ==> AllDataAsWritten(text).value == AllData(text).value["Policy Period" := None]
  {
    var g1 := f => FieldValueAsWritten(f, text);
    var g2 := f => FieldValue(f, text);
    forall f | f != "Policy Period"
      ensures g1(f) == g2(f)
    {
      AsWrittenOtherFields(f, text);
    }
    PeriodNeverExtracted(text);
    FilledExceptPeriod(g1, g2, Some("Authorization Letter"));
  }

  /** `process_pdf` once the text is known: the eleven keys of scannedpdf.py's output. */
  function ProcessedText(text: string): Option<map<string, Option<string>>>
  {
    var d := AllData(text);
    if d.Some? then Some(ScannedPdf.Formatted(d.value)) else None
  }

  lemma ProcessedIsAllData(text: string)
    ensures ProcessedText(text) == AllData(text)
  {
    AllDataKeys(text);
    if AllData(text).Some? {
      ScannedPdf.FormattedSame(AllData(text).value);
    }
  }
}
