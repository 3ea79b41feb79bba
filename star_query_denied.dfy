/**
 * `extract_info_from_pdf` of star_query_denied.py, from the page's text on: a Star Health
 * letter is classified as a denial or a query letter by its first ten lines, its labelled
 * fields are collected line by line, a denial letter's hospital address and reason are
 * captured between marker lines, a query letter's reason between its own markers, and the
 * keys a letter type does not report are dropped.
 */
module StarQueryDenied {
  import opened Common
  import opened Text
  import opened StarLines

  /** The dictionary the function starts from. */
  const Defaults: map<string, string> := map[
    "UIN No." := "null",
    "Claim Intimation Number" := "null",
    "Name of the Insured" := "null",
    "Policy Period" := "null",
    "Policy Number" := "null",
    "Date of Admission" := "null",
    "Name of the Hospital and Location" := "null",
    "Letter Type" := "null",
    "Reason" := "null"
  ]

  /** `field_order`: each label with the markers that end its value. */
  const FieldOrder: seq<Entry> := [
    Entry("Claim Intimation Number", ["Name of the Insured", "Product Name"]),
    Entry("Name of the Insured", ["Age / Gender", "Age/Gender"]),
    Entry("Policy Number", ["Policy Period"]),
    Entry("Policy No.", ["Policy Period"]),
    Entry("Policy Period", ["Diagnosis"]),
    Entry("Date of Admission", ["Room Category"]),
    Entry("Name of the Hospital and Location", ["After carefully reviewing", "Room Category"]),
    Entry("UIN No.", ["Policy No.", "Policy Number"])
  ]

  /** The denial letter's test `if is_denial and line.startswith("Policy No.")`, made before `field_order`. */
  const PolicyNoLabel: Label := Label("Policy No.", "Policy Number")

  /** The collector of a denial letter (`denial`) or of any other letter. */
  function CollectorFor(denial: bool): Collector
  {
    Collector(if denial then Some(PolicyNoLabel) else None, FieldOrder, PolicyNoAsNumber)
  }

  // ---------------------------------------------------------------- the letter type

  datatype StarKind = DenialLetter | QueryLetter | UnknownLetter

  function KindName(k: StarKind): string
  {
    match k
    case DenialLetter => "Denial Letter"
    case QueryLetter => "Query Letter"
    case UnknownLetter => "Unknown Letter Type"
  }

  /** The markers in the order the `if`/`elif` chain tests them. */
  const Markers: seq<string> := ["Unable to Admit Claim", "Pre-Authorisation Query"]

  /** The letter type the first ten lines give. */
  function KindOf(lines: seq<string>): StarKind
  {
    var r := MarkerLine(lines, Markers, 0);
    if r.None? then UnknownLetter else if r.value.1 == 0 then DenialLetter else QueryLetter
  }

  /**
   * The first of the first ten lines that holds a marker decides: a denial letter when it
   * holds "Unable to Admit Claim", else a query letter; with no such line the type is unknown.
   */
  lemma KindOfFirstMarker(lines: seq<string>)
    ensures KindOf(lines) == DenialLetter <==>
              exists k :: 0 <= k < HeadCount(lines) && NoMarkerBefore(lines, Markers, k) && Contains(lines[k], Markers[0])
    ensures KindOf(lines) == QueryLetter <==>
              exists k :: 0 <= k < HeadCount(lines) && NoMarkerBefore(lines, Markers, k) &&
                          !Contains(lines[k], Markers[0]) && Contains(lines[k], Markers[1])
    ensures KindOf(lines) == UnknownLetter <==> NoMarkerBefore(lines, Markers, HeadCount(lines))
  {
    FirstOfTwo(lines, Markers);
  }

  // ---------------------------------------------------------------- the hospital address

  /** The address starts after a line starting with "To" ... */
  function AddressStart(line: string): bool { StartsWith(line, "To") }

  /** ... and ends at a line starting with "Dear Sir/Madam,". */
  function AddressStop(line: string): bool { StartsWith(line, "Dear Sir/Madam,") }

  /** `elif capture and line: address_lines.append(line)` */
  function AddressKeep(line: string): Option<string> { if line != "" then Some(line) else None }

  /** `address_lines` */
  function AddressLines(lines: seq<string>): seq<string>
  {
    Marked(lines, AddressStart, AddressStop, AddressKeep, 0, false)
  }

  /** `', '.join(address_lines).replace(',,', ',').strip()` */
  function AddressText(al: seq<string>): (r: string)
    ensures IsStripped(r)
  {
    Strip(Replace(Join(", ", al), ",,", ","))
  }

  /** Every address line is a non-empty line of the letter that does not start with "To". */
  lemma AddressLinesFrom(lines: seq<string>, x: string)
    requires x in AddressLines(lines)
    ensures x in lines && x != "" && !StartsWith(x, "To")
  {
    MarkedMember(lines, AddressStart, AddressStop, AddressKeep, 0, false, x);
  }

  /**
   * The address is made of the non-empty lines strictly between the first "To" line and the
   * first "Dear Sir/Madam," line, other "To" lines left out; there is none when no "To" line
   * comes before the first "Dear Sir/Madam," line.
   */
  lemma AddressBetween(lines: seq<string>)
    ensures var t := FirstWith(lines, AddressStart, 0);
            var d := FirstWith(lines, Ends(AddressStart, AddressStop), 0);
            AddressLines(lines) == if t < d then KeptUpTo(Captured(AddressStart, AddressKeep), lines[t + 1..d], d - t - 1) else []
  {
    MarkedBetween(lines, AddressStart, AddressStop, AddressKeep);
  }

  // ---------------------------------------------------------------- the denial reason

  const DenialStart: string := "We regret we are unable to admit the claim"
  const DenialEnd: string := "If you have any questions"

  /** `footer_keywords` */
  const Footer: seq<string> := [
    "Star Health and Allied Insurance",
    "Customer Care:",
    "IRDAI Registration No:",
    "www.starhealth.in",
    "Corporate Customer Care:",
    "WhatsApp:",
    "Email: support@starhealth.in",
    "Balaji Complex"
  ]

  function DenialStartLine(line: string): bool { Contains(line, DenialStart) }
  function DenialStopLine(line: string): bool { Contains(line, DenialEnd) }

  /** `any(keyword in line for keyword in footer_keywords)` */
  predicate IsFooter(line: string) { exists k :: 0 <= k < |Footer| && Contains(line, Footer[k]) }

  /** `re.match(r'^\d+$', s)` for a stripped line `s`: one or more digits and nothing else. */
  predicate IsNumberLine(s: string) { |s| > 0 && AllDigits(s) }

  /** A captured line is kept, stripped, unless it is part of the footer or a page number. */
  function DenialKeep(line: string): Option<string>
  {
    if !IsFooter(line) && !IsNumberLine(Strip(line)) then Some(Strip(line)) else None
  }

  /** `reason_lines` of a denial letter. */
  function DenialReasonLines(lines: seq<string>): seq<string>
  {
    Marked(lines, DenialStartLine, DenialStopLine, DenialKeep, 0, false)
  }

  /** Every reason line is a stripped line of the letter that is neither footer nor page number. */
  lemma DenialReasonLinesFrom(lines: seq<string>, x: string)
    requires x in DenialReasonLines(lines)
    ensures exists j :: 0 <= j < |lines| && !IsFooter(lines[j]) && x == Strip(lines[j]) && !IsNumberLine(x)
  {
    MarkedMember(lines, DenialStartLine, DenialStopLine, DenialKeep, 0, false, x);
  }

  /**
   * The denial reason is made of the lines strictly after the first line holding the start
   * marker and before the first line holding the end marker (and not the start marker),
   * less footer lines, page numbers and further start-marker lines.
   */
  lemma DenialReasonBetween(lines: seq<string>)
    ensures var t := FirstWith(lines, DenialStartLine, 0);
            var d := FirstWith(lines, Ends(DenialStartLine, DenialStopLine), 0);
            DenialReasonLines(lines) == if t < d then KeptUpTo(Captured(DenialStartLine, DenialKeep), lines[t + 1..d], d - t - 1) else []
  {
    MarkedBetween(lines, DenialStartLine, DenialStopLine, DenialKeep);
  }

  /**
   * `re.sub(r'\n\d+$', '', s)`: a last line of digits is removed together with the newline
   * before it (`$` also matches before a final newline, which is then kept).
   */
  function DropNumberLine(s: string): string
  {
    var e := if |s| > 0 && s[|s| - 1] == '\n' then |s| - 1 else |s|;
    var k := RFindChar(s, '\n', e);
    if k >= 0 && IsNumberLine(s[k + 1..e]) then s[..k] + s[e..] else s
  }

  /** `'\n'.join(reason_lines).strip()` after the substitution. */
  function DenialReasonText(rl: seq<string>): string
  {
    DropNumberLine(Strip(Join("\n", rl)))
  }

  // ---------------------------------------------------------------- the query reason

  const QueryStart: string := "required for further action."
  const QueryEnd: string := "You can email them to"

  function QueryStartLine(line: string): bool { Contains(line, QueryStart) }
  function QueryStopLine(line: string): bool { Contains(line, QueryEnd) }

  /** The text after the start marker on a start line (the only lines it is asked about). */
  function QueryOpening(line: string): string
  {
    if QueryStartLine(line) then Strip(Between(line, QueryStart)) else ""
  }

  /** What the end-marker line adds: its text before the marker, when there is any. */
  function QueryClosing(line: string): Option<string>
  {
    var b := Strip(Before(line, QueryEnd));
    if b != "" then Some(b) else None
  }

  function StripLine(line: string): string { Strip(line) }

  /** `reason_lines` of a query letter (and of a letter of unknown type). */
  function QueryReasonLines(lines: seq<string>): seq<string>
  {
    Spanned(lines, QueryStartLine, QueryStopLine, QueryOpening, StripLine, QueryClosing, 0, false)
  }

  /**
   * The query reason spelled out: with `s` the first start line and `e` the first end line
   * (one that holds the end marker and not the start marker), the text after the marker on
   * each start line and every other line from `s` up to `e`, stripped, then what comes before
   * the marker on line `e`. An end line before any start line still gives its text before the
   * marker.
   */
  lemma QueryReasonBetween(lines: seq<string>)
    ensures var s := FirstWith(lines, QueryStartLine, 0);
            var e := FirstWith(lines, Ends(QueryStartLine, QueryStopLine), 0);
            QueryReasonLines(lines) ==
              (if s < e then KeptUpTo(Piece(QueryStartLine, QueryOpening, StripLine), lines[s..e], e - s) else []) +
              Closings(lines, QueryClosing, e)
  {
    SpannedBetween(lines, QueryStartLine, QueryStopLine, QueryOpening, StripLine, QueryClosing);
  }

  // ---------------------------------------------------------------- the keys reported

  /** `required_fields` of a denial letter. */
  const Required: set<string> := {
    "UIN No.", "Claim Intimation Number", "Name of the Insured", "Policy Period", "Policy Number",
    "Date of Admission", "Name of the Hospital and Location", "Letter Type", "Reason"
  }

  /** A query letter loses "UIN No."; a denial letter keeps only the required keys. */
  function Prune(kind: StarKind, data: map<string, string>): map<string, string>
  {
    match kind
    case QueryLetter => data - {"UIN No."}
    case DenialLetter => map k | k in data && k in Required :: data[k]
    case UnknownLetter => data
  }

  /** `for field in list(extracted_data.keys()): if field not in required_fields: extracted_data.pop(field, None)` */
  method KeepRequired(data: map<string, string>) returns (out: map<string, string>)
    ensures out == Prune(DenialLetter, data)
  {
    out := data;
    var todo := data.Keys;
    while todo != {}
      invariant todo <= data.Keys
      invariant out.Keys == data.Keys - (set k | k in data.Keys - todo && k !in Required)
      invariant forall k :: k in out ==> out[k] == data[k]
      decreases |todo|
    {
      var k :| k in todo;
      if k !in Required {
        out := out - {k};
      }
      todo := todo - {k};
    }
  }

  // ---------------------------------------------------------------- the whole function

  /** The dictionary after the letter type and the labelled fields. */
  function Labelled(lines: seq<string>, kind: StarKind): map<string, string>
  {
    Collected(CollectorFor(kind == DenialLetter), lines, Defaults["Letter Type" := KindName(kind)])
  }

  /** A denial letter's address (when one was captured) and reason (when one was captured). */
  function WithDenialParts(lines: seq<string>, data: map<string, string>): map<string, string>
  {
    var al := AddressLines(lines);
    var d := if al != [] then data["Name of the Hospital and Location" := AddressText(al)] else data;
    var rl := DenialReasonLines(lines);
    if rl != [] then d["Reason" := DenialReasonText(rl)] else d
  }

  /** Any other letter's reason, when one was captured. */
  function WithQueryReason(lines: seq<string>, data: map<string, string>): map<string, string>
  {
    var rl := QueryReasonLines(lines);
    if rl != [] then data["Reason" := Strip(Join(" ", rl))] else data
  }

  /** The dictionary for the non-blank stripped lines of the page. */
  function StarFieldsOf(lines: seq<string>): map<string, string>
  {
    var kind := KindOf(lines);
    var d := Labelled(lines, kind);
    Prune(kind, if kind == DenialLetter then WithDenialParts(lines, d) else WithQueryReason(lines, d))
  }

  /**
   * The page's text, or `None` when the PDF gives none (`text.split` then raises, and the
   * defaults are returned).
   */
  function StarFields(text: Option<string>): map<string, string>
  {
    if text.None? then Defaults else StarFieldsOf(StrippedNonBlank(Lines(text.value)))
  }

  method ExtractStarDenialParts(lines: seq<string>, data: map<string, string>) returns (out: map<string, string>)
    ensures out == WithDenialParts(lines, data)
  {
    out := data;
    var al := ScanMarked(lines, AddressStart, AddressStop, AddressKeep);
    if al != [] {
      out := out["Name of the Hospital and Location" := Strip(Replace(Join(", ", al), ",,", ","))];
    }
    var rl := ScanMarked(lines, DenialStartLine, DenialStopLine, DenialKeep);
    if rl != [] {
      var reason := Strip(Join("\n", rl));
      reason := DropNumberLine(reason);
      out := out["Reason" := reason];
    }
  }

  method ExtractStarQueryReason(lines: seq<string>, data: map<string, string>) returns (out: map<string, string>)
    ensures out == WithQueryReason(lines, data)
  {
    out := data;
    var rl := ScanSpanned(lines, QueryStartLine, QueryStopLine, QueryOpening, StripLine, QueryClosing);
    if rl != [] {
      out := out["Reason" := Strip(Join(" ", rl))];
    }
  }

  method ExtractStarLines(lines: seq<string>) returns (data: map<string, string>)
    ensures data == StarFieldsOf(lines)
  {
    var r := ScanMarkers(lines, Markers);
    var kind := if r.None? then UnknownLetter else if r.value.1 == 0 then DenialLetter else QueryLetter;
    data := CollectFields(CollectorFor(kind == DenialLetter), lines, Defaults["Letter Type" := KindName(kind)]);
    if kind == DenialLetter {
      data := ExtractStarDenialParts(lines, data);
    } else {
      data := ExtractStarQueryReason(lines, data);
    }
    if kind == QueryLetter {
      data := data - {"UIN No."};
    } else if kind == DenialLetter {
      data := KeepRequired(data);
    }
  }

  /** `extract_info_from_pdf` once the first page's text has been read. */
  method ExtractStarLetter(text: Option<string>) returns (data: map<string, string>)
    ensures data == StarFields(text)
  {
    if text.None? {
      return Defaults;
    }
    data := ExtractStarLines(StrippedNonBlank(Lines(text.value)));
  }

  // ---------------------------------------------------------------- what the dictionary holds

  /** The keys the collector stores under. */
  const LabelKeys: set<string> := {
    "Claim Intimation Number", "Name of the Insured", "Policy Number", "Policy Period",
    "Date of Admission", "Name of the Hospital and Location", "UIN No."
  }

  lemma CollectorKeys(denial: bool)
    ensures KeysOf(CollectorFor(denial)) <= LabelKeys
  {
    assert forall k :: 0 <= k < |FieldOrder| ==> KeyOf(PolicyNoAsNumber, FieldOrder[k].field) in LabelKeys;
    OrderKeysWithin(PolicyNoAsNumber, FieldOrder, LabelKeys);
  }

  lemma LabelKeysDefaults()
    ensures LabelKeys <= Defaults.Keys && "Letter Type" !in LabelKeys && "Letter Type" in Defaults
  {
  }

  /** A collector whose keys are already there, and miss `key`, keeps the keys and `key`'s value. */
  lemma CollectedKeepsKeys(c: Collector, lines: seq<string>, init: map<string, string>, key: string)
    requires KeysOf(c) <= init.Keys && key in init && key !in KeysOf(c)
    ensures Collected(c, lines, init).Keys == init.Keys
    ensures Collected(c, lines, init)[key] == init[key]
  {
    CollectedKeys(c, lines, init);
    CollectedKeepsUnlabelled(c, lines, init, key);
  }

  /** The labelled fields never touch "Letter Type": it keeps the type the first ten lines give. */
  lemma LabelledType(lines: seq<string>, kind: StarKind)
    ensures var d := Labelled(lines, kind);
            d.Keys == Defaults.Keys && d["Letter Type"] == KindName(kind)
  {
    var c := CollectorFor(kind == DenialLetter);
    var init := Defaults["Letter Type" := KindName(kind)];
    CollectorKeys(kind == DenialLetter);
    LabelKeysDefaults();
    assert init.Keys == Defaults.Keys;
    CollectedKeepsKeys(c, lines, init, "Letter Type");
  }

  /** The address and the reasons only overwrite keys that are there, and not "Letter Type". */
  lemma PartsKeepKeys(lines: seq<string>, d: map<string, string>)
    requires "Name of the Hospital and Location" in d && "Reason" in d && "Letter Type" in d
    ensures WithDenialParts(lines, d).Keys == d.Keys && WithDenialParts(lines, d)["Letter Type"] == d["Letter Type"]
    ensures WithQueryReason(lines, d).Keys == d.Keys && WithQueryReason(lines, d)["Letter Type"] == d["Letter Type"]
  {
  }

  /** Pruning keeps "Letter Type" and removes what each kind of letter does not report. */
  lemma PruneKeys(kind: StarKind, d: map<string, string>)
    requires "Letter Type" in d
    ensures Prune(kind, d).Keys ==
              match kind
              case QueryLetter => d.Keys - {"UIN No."}
              case DenialLetter => d.Keys * Required
              case UnknownLetter => d.Keys
    ensures "Letter Type" in Prune(kind, d) && Prune(kind, d)["Letter Type"] == d["Letter Type"]
  {
  }

  /** Every default key is a required one, so pruning a denial letter's dictionary removes nothing. */
  lemma DefaultsRequired()
    ensures Defaults.Keys <= Required
  {
  }

  lemma StarFieldsOfKeys(lines: seq<string>)
    ensures var kind := KindOf(lines);
            var d := StarFieldsOf(lines);
            (d.Keys == if kind == QueryLetter then Defaults.Keys - {"UIN No."} else Defaults.Keys) &&
            "Letter Type" in d && d["Letter Type"] == KindName(kind)
  {
    var kind := KindOf(lines);
    var d := Labelled(lines, kind);
    LabelledType(lines, kind);
    PartsKeepKeys(lines, d);
    var d' := if kind == DenialLetter then WithDenialParts(lines, d) else WithQueryReason(lines, d);
    assert d'.Keys == Defaults.Keys && d'["Letter Type"] == KindName(kind);
    PruneKeys(kind, d');
    DefaultsRequired();
  }

  /**
   * The dictionary of a page: a query letter reports every default key but "UIN No.", any
   * other letter every default key; "Letter Type" is the type its first ten lines give; and
   * text the PDF does not give leaves the defaults.
   */
  lemma StarFieldsKeys(text: Option<string>)
    ensures text.None? ==> StarFields(text) == Defaults
    ensures text.Some? ==>
              var lines := StrippedNonBlank(Lines(text.value));
              var kind := KindOf(lines);
              var d := StarFields(text);
              (d.Keys == if kind == QueryLetter then Defaults.Keys - {"UIN No."} else Defaults.Keys) &&
              "Letter Type" in d && d["Letter Type"] == KindName(kind)
  {
    if text.Some? {
      StarFieldsOfKeys(StrippedNonBlank(Lines(text.value)));
    }
  }

  /** A query letter's dictionary has no "UIN No."; a denial letter's holds only required keys. */
  lemma StarPruned(text: Option<string>)
    requires text.Some?
    ensures var kind := KindOf(StrippedNonBlank(Lines(text.value)));
            (kind == QueryLetter ==> "UIN No." !in StarFields(text)) &&
            (kind == DenialLetter ==> StarFields(text).Keys <= Required)
  {
    StarFieldsKeys(text);
  }

  /**
   * The denial letter's extra "Policy No." test changes nothing: "Policy No." is the first
   * label of `field_order` such a line starts with, and it is stored as "Policy Number" too.
   */
  lemma PolicyNoTestRedundant(line: string)
    ensures LabelFor(CollectorFor(true), line) == LabelFor(CollectorFor(false), line)
  {
    if StartsWith(line, "Policy No.") {
      var k := EntryFor(FieldOrder, line, 0);
      assert StartsWith(line, FieldOrder[3].field);
      assert !StartsWith(line, FieldOrder[0].field) by { assert line[0] != FieldOrder[0].field[0]; }
      assert !StartsWith(line, FieldOrder[1].field) by { assert line[0] != FieldOrder[1].field[0]; }
      assert !StartsWith(line, FieldOrder[2].field) by { assert line[8] != FieldOrder[2].field[8]; }
      assert k == Some(3);
    }
  }

  lemma DenialCollectsAlike(lines: seq<string>, init: map<string, string>)
    ensures Collected(CollectorFor(true), lines, init) == Collected(CollectorFor(false), lines, init)
  {
    forall k | 0 <= k < |lines| ensures LabelFor(CollectorFor(true), lines[k]) == LabelFor(CollectorFor(false), lines[k]) {
      PolicyNoTestRedundant(lines[k]);
    }
    SameLabelsCollect(CollectorFor(true), CollectorFor(false), lines, 0, State(None, [], init));
  }
}
