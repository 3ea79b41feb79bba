/**
 * The text-level body of `extract_info_from_pdf` (spam.py): the letter type and the
 * "Date & Time" near it, from the first ten non-blank stripped lines of the page, then the
 * label-driven field collector over all of them.
 */
module SpamLetters {
  import opened Common
  import opened Text
  import opened StarLines

  /** `extracted_data` as first written: every key "null". */
  const Defaults: map<string, string> := map[
    "Claim Intimation Number" := "null",
    "Name of the Insured" := "null",
    "Policy Period" := "null",
    "Policy Number" := "null",
    "Date of Admission" := "null",
    "Name of the Hospital and Location" := "null",
    "Letter Type" := "null",
    "Date & Time" := "null"
  ]

  /** `field_order`: each label with the markers that end its value. */
  const FieldOrder: seq<Entry> := [
    Entry("Claim Intimation Number", ["Name of the Insured"]),
    Entry("Name of the Insured", ["Age / Gender"]),
    Entry("Policy Number", ["Policy Period"]),
    Entry("Policy Period", ["Diagnosis"]),
    Entry("Date of Admission", ["Name of the Hospital and Location"]),
    Entry("Name of the Hospital and Location", ["After carefully reviewing"])
  ]

  /** The collector: no label before `field_order`, and every label is its own key. */
  const SpamCollector: Collector := Collector(None, FieldOrder, AsLabelled)

  // ---------------------------------------------------------------- the letter type

  /** The markers in the order the `if`/`elif` chain tests them. */
  const Markers: seq<string> := ["Pre-Authorisation Query", "Unable to Admit Claim"]

  /** The type a marker stands for. */
  function MarkerName(m: nat): string { if m == 0 then "Query Letter" else "Denial Letter" }

  // ---------------------------------------------------------------- the date and time

  /** Line `j` holds "Date :", and "Time :" is on it or on the next line. */
  predicate GivesDateTime(lines: seq<string>, j: nat)
    requires j < |lines|
  {
    Contains(lines[j], "Date :") && (Contains(lines[j], "Time :") || (j + 1 < |lines| && Contains(lines[j + 1], "Time :")))
  }

  /**
   * The date and time one line `j` gives: `Date : X Time : Y` on the line itself, or
   * `Date : X` on it and `Time : Y` on the next line; `X + " " + Y` in both cases.
   */
  function DateTimeAt(lines: seq<string>, j: nat): (r: Option<string>)
    requires j < |lines|
    ensures r.Some? <==> GivesDateTime(lines, j)
  {
    var l := lines[j];
    if Contains(l, "Date :") && Contains(l, "Time :") then
      Some(Strip(Replace(Before(l, "Time :"), "Date :", "")) + " " + Strip(Between(l, "Time :")))
    else if Contains(l, "Date :") && j + 1 < |lines| && Contains(lines[j + 1], "Time :") then
      Some(Strip(Replace(l, "Date :", "")) + " " + Strip(Replace(lines[j + 1], "Time :", "")))
    else None
  }

  /** The two tests of the loop's body on line `j`. */
  method LineDateTime(lines: seq<string>, j: nat) returns (r: Option<string>)
    requires j < |lines|
    ensures r == DateTimeAt(lines, j)
  {
    var l := lines[j];
    if Contains(l, "Date :") && Contains(l, "Time :") {
      var parts := Split(l, "Time :");
      assert parts[0] == Before(l, "Time :") && parts[1] == Between(l, "Time :");
      var datePart := Strip(Replace(parts[0], "Date :", ""));
      var timePart := Strip(parts[1]);
      return Some(datePart + " " + timePart);
    } else if Contains(l, "Date :") && j + 1 < |lines| && Contains(lines[j + 1], "Time :") {
      var datePart := Strip(Replace(l, "Date :", ""));
      var timePart := Strip(Replace(lines[j + 1], "Time :", ""));
      return Some(datePart + " " + timePart);
    }
    return None;
  }

  /** `min(i+5, len(lines))`: the window after the marker line `i`. */
  function WindowEnd(lines: seq<string>, i: nat): nat { if i + 5 < |lines| then i + 5 else |lines| }

  /** The first line from `j` on, below `hi`, that gives a date and time. */
  function DateTimeLine(lines: seq<string>, j: nat, hi: nat): (r: Option<nat>)
    requires j <= hi <= |lines|
    ensures r.Some? ==> j <= r.value < hi && GivesDateTime(lines, r.value)
    ensures r.Some? ==> forall k :: j <= k < r.value ==> !GivesDateTime(lines, k)
    ensures r.None? ==> forall k :: j <= k < hi ==> !GivesDateTime(lines, k)
    decreases hi - j
  {
    if j == hi then None
    else if GivesDateTime(lines, j) then Some(j)
    else DateTimeLine(lines, j + 1, hi)
  }

  /** The "Date & Time" the marker line `i` gives: that of the first line of its window that has one. */
  function DateTimeOf(lines: seq<string>, i: nat): (r: Option<string>)
    requires i <= |lines|
  {
    var k := DateTimeLine(lines, i, WindowEnd(lines, i));
    if k.Some? then DateTimeAt(lines, k.value) else None
  }

  /**
   * The date and time come from the marker line or one of the four after it: the first of
   * them that holds "Date :" together with a "Time :" on it or on the next line.
   */
  lemma DateTimeWindow(lines: seq<string>, i: nat)
    requires i <= |lines|
    ensures DateTimeOf(lines, i).Some? <==>
              exists j :: i <= j < i + 5 && j < |lines| && GivesDateTime(lines, j)
    ensures DateTimeOf(lines, i).Some? ==>
              exists j :: i <= j < i + 5 && j < |lines| && DateTimeOf(lines, i) == DateTimeAt(lines, j) &&
                          forall k :: i <= k < j ==> !GivesDateTime(lines, k)
  {
    var k := DateTimeLine(lines, i, WindowEnd(lines, i));
    if k.Some? {
      assert DateTimeOf(lines, i) == DateTimeAt(lines, k.value);
    }
  }

  /** `for j in range(i, min(i+5, len(lines))): if ...: ...; break elif ...: ...; break` */
  method ScanDateTime(lines: seq<string>, i: nat) returns (r: Option<string>)
    requires i <= |lines|
    ensures r == DateTimeOf(lines, i)
  {
    var hi := WindowEnd(lines, i);
    var j := i;
    while j < hi
      invariant i <= j <= hi
      invariant DateTimeLine(lines, j, hi) == DateTimeLine(lines, i, hi)
    {
      r := LineDateTime(lines, j);
      if r.Some? {
        assert DateTimeLine(lines, j, hi) == Some(j);
        return;
      }
      assert DateTimeLine(lines, j, hi) == DateTimeLine(lines, j + 1, hi);
      j := j + 1;
    }
    return None;
  }

  // ---------------------------------------------------------------- the dictionary

  /** The dictionary after the first loop: the type and the date and time of the first marker line. */
  function Typed(lines: seq<string>): map<string, string>
  {
    var r := MarkerLine(lines, Markers, 0);
    if r.None? then Defaults
    else
      var d := Defaults["Letter Type" := MarkerName(r.value.1)];
      var dt := DateTimeOf(lines, r.value.0);
      if dt.Some? then d["Date & Time" := dt.value] else d
  }

  /** The dictionary for the non-blank stripped lines of the page. */
  function SpamFieldsOf(lines: seq<string>): map<string, string>
  {
    Collected(SpamCollector, lines, Typed(lines))
  }

  /** The page's text, or `None` when the PDF gives none (`text.split` raises, and the defaults are returned). */
  function SpamFields(text: Option<string>): map<string, string>
  {
    if text.None? then Defaults else SpamFieldsOf(StrippedNonBlank(Lines(text.value)))
  }

  /** The first loop: type the letter and look for its date and time. */
  method ExtractSpamHeader(lines: seq<string>) returns (data: map<string, string>)
    ensures data == Typed(lines)
  {
    data := Defaults;
    var r := ScanMarkers(lines, Markers);
    if r.Some? {
      data := data["Letter Type" := if r.value.1 == 0 then "Query Letter" else "Denial Letter"];
      var dt := ScanDateTime(lines, r.value.0);
      if dt.Some? {
        data := data["Date & Time" := dt.value];
      }
    }
  }

  /** Both loops over the page's lines. */
  method ExtractSpamLines(lines: seq<string>) returns (data: map<string, string>)
    ensures data == SpamFieldsOf(lines)
  {
    data := ExtractSpamHeader(lines);
    data := CollectFields(SpamCollector, lines, data);
  }

  /** `extract_info_from_pdf` once the first page's text (or its absence) is known. */
  method ExtractSpamLetter(text: Option<string>) returns (data: map<string, string>)
    ensures data == SpamFields(text)
  {
    if text.None? {
      return Defaults;
    }
    var lines := StrippedNonBlank(Lines(text.value));
    data := ExtractSpamLines(lines);
  }

  // ---------------------------------------------------------------- what the dictionary holds

  /** The keys the collector's labels store under. */
  const LabelKeys: set<string> := {
    "Claim Intimation Number", "Name of the Insured", "Policy Number", "Policy Period",
    "Date of Admission", "Name of the Hospital and Location"
  }

  lemma CollectorKeys()
    ensures KeysOf(SpamCollector) <= LabelKeys
  {
    assert forall k :: 0 <= k < |FieldOrder| ==> KeyOf(AsLabelled, FieldOrder[k].field) in LabelKeys;
    OrderKeysWithin(AsLabelled, FieldOrder, LabelKeys);
  }

  lemma LabelKeysDefaults()
    ensures LabelKeys <= Defaults.Keys
    ensures "Letter Type" in Defaults && "Letter Type" !in LabelKeys
    ensures "Date & Time" in Defaults && "Date & Time" !in LabelKeys
  {
  }

  /** The first loop only rewrites "Letter Type" and "Date & Time". */
  lemma TypedKeys(lines: seq<string>)
    ensures Typed(lines).Keys == Defaults.Keys
    ensures forall key :: key in Defaults && key != "Letter Type" && key != "Date & Time" ==> Typed(lines)[key] == "null"
  {
  }

  /**
   * The dictionary has exactly the eight default keys, and the collector never touches the
   * type or the date and time: they are those of the first loop.
   */
  lemma SpamFieldsKeys(lines: seq<string>)
    ensures SpamFieldsOf(lines).Keys == Defaults.Keys
    ensures "Letter Type" in SpamFieldsOf(lines) && "Date & Time" in SpamFieldsOf(lines)
    ensures SpamFieldsOf(lines)["Letter Type"] == Typed(lines)["Letter Type"]
    ensures SpamFieldsOf(lines)["Date & Time"] == Typed(lines)["Date & Time"]
  {
    TypedKeys(lines);
    CollectorKeys();
    LabelKeysDefaults();
    CollectedKeys(SpamCollector, lines, Typed(lines));
    CollectedKeepsUnlabelled(SpamCollector, lines, Typed(lines), "Letter Type");
    CollectedKeepsUnlabelled(SpamCollector, lines, Typed(lines), "Date & Time");
  }

  /**
   * The first of the first ten lines that holds a marker decides: a query letter when it
   * holds "Pre-Authorisation Query", else a denial letter; with no such line "Letter Type"
   * stays "null".
   */
  lemma SpamLetterType(lines: seq<string>)
    ensures "Letter Type" in SpamFieldsOf(lines)
    ensures var t := SpamFieldsOf(lines)["Letter Type"];
            (t == "Query Letter" <==>
               exists k :: 0 <= k < HeadCount(lines) && NoMarkerBefore(lines, Markers, k) && Contains(lines[k], Markers[0])) &&
            (t == "Denial Letter" <==>
               exists k :: 0 <= k < HeadCount(lines) && NoMarkerBefore(lines, Markers, k) &&
                           !Contains(lines[k], Markers[0]) && Contains(lines[k], Markers[1])) &&
            (t == "null" <==> NoMarkerBefore(lines, Markers, HeadCount(lines)))
  {
    SpamFieldsKeys(lines);
    FirstOfTwo(lines, Markers);
    var r := MarkerLine(lines, Markers, 0);
    assert SpamFieldsOf(lines)["Letter Type"] == if r.None? then "null" else MarkerName(r.value.1);
  }

  /**
   * "Date & Time" is set only for a typed letter, from the marker line's window; otherwise
   * it stays "null".
   */
  lemma SpamDateTime(lines: seq<string>)
    ensures "Date & Time" in SpamFieldsOf(lines)
    ensures var r := MarkerLine(lines, Markers, 0);
            SpamFieldsOf(lines)["Date & Time"] ==
              if r.Some? && DateTimeOf(lines, r.value.0).Some? then DateTimeOf(lines, r.value.0).value else "null"
  {
    SpamFieldsKeys(lines);
  }

  /** Every value is "null" or a flushed value, which is stripped. */
  lemma SpamValues(lines: seq<string>, key: string)
    requires key in LabelKeys
    ensures key in SpamFieldsOf(lines)
    ensures SpamFieldsOf(lines)[key] == "null" || IsStripped(SpamFieldsOf(lines)[key])
  {
    SpamFieldsKeys(lines);
    LabelKeysDefaults();
    TypedKeys(lines);
    CollectedValues(SpamCollector, lines, Typed(lines));
  }
}
