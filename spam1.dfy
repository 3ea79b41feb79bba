/**
 * spam1.py: the live `extract_info_from_pdf`, which reads five fields of an authorization letter
 * from the text of its first page into a dictionary of "null" defaults: the patient's name up to
 * "Age :", the policy number, the policy period, and the expected dates of admission and
 * discharge, each date with a second pattern tried when the first finds nothing.
 */
module Spam1 {
  import opened Common
  import opened Text
  import opened Regex
  import opened Stores
  import opened Backtrack
  import S = SpamMd

  // ---------------------------------------------------------------- the patterns

  /** `Patient\s*Name\s*:\s*([\s\S]+?)\s*Age\s*:` */
  const NamePattern: Pattern := S.Plain([
    Lit("Patient"), Ws0, Lit("Name"), Ws0, Lit(":"), Ws0, Cap(1, AnyChar, 1, Unbounded, false),
    Ws0, Lit("Age"), Ws0, Lit(":")])

  /** `Policy\s*No\s*:\s*([A-Z0-9]+)`, case-sensitive. */
  const PolicyPattern: Pattern := S.Plain([
    Lit("Policy"), Ws0, Lit("No"), Ws0, Lit(":"), Ws0, Cap(1, S.UpperDigit, 1, Unbounded, true)])

  /** `(\d{2}-\d{2}-\d{4})` as group `n`. */
  function DashDate(n: nat): Item
  {
    Group(n, [Rep(Digit, 2, AtMost(2), true), Lit("-"), Rep(Digit, 2, AtMost(2), true), Lit("-"), Rep(Digit, 4, AtMost(4), true)])
  }

  /** `Policy\s*period\s*:\s*(\d{2}-\d{2}-\d{4})\s*to\s*(\d{2}-\d{2}-\d{4})`, case-sensitive. */
  const PeriodPattern: Pattern := S.Plain([
    Lit("Policy"), Ws0, Lit("period"), Ws0, Lit(":"), Ws0, DashDate(1), Ws0, Lit("to"), Ws0, DashDate(2)])

  /** `(\d{2}-\w{3}-\d{4})` as group 1. */
  const MonthDate: Item :=
    Group(1, [Rep(Digit, 2, AtMost(2), true), Lit("-"), Rep(Word, 3, AtMost(3), true), Lit("-"), Rep(Digit, 4, AtMost(4), true)])

  /** `Expected\s*Date\s*of\s*<word>\s*:` */
  function DateLabel(word: string): seq<Item>
  {
    [Lit("Expected"), Ws0, Lit("Date"), Ws0, Lit("of"), Ws0, Lit(word), Ws0, Lit(":")]
  }

  /** `Expected\s*Date\s*of\s*<word>\s*:\s*(\d{2}-\w{3}-\d{4})` */
  function DatePattern(word: string): Pattern
  {
    S.Plain(DateLabel(word) + SpaceGap([MonthDate]))
  }

  /** `Expected\s*Date\s*of\s*<word>\s*:\s*\n\s*(\d{2}-\w{3}-\d{4})`, the second try. */
  function NewlineDatePattern(word: string): Pattern
  {
    S.Plain(DateLabel(word) + NewlineGap([MonthDate]))
  }

  // ---------------------------------------------------------------- the fields

  /** The name, stripped and with every run of whitespace made one space. */
  function NameOf(t: string): Option<string>
  {
    var m := Search(NamePattern, t);
    if m.Some? then Some(Collapse(Strip(GroupText(m.value, t, 1)))) else None
  }

  /** The policy number, stripped. */
  function PolicyOf(t: string): Option<string>
  {
    var m := Search(PolicyPattern, t);
    if m.Some? then Some(Strip(GroupText(m.value, t, 1))) else None
  }

  /** The policy period as "<from> To <to>". */
  function PeriodOf(t: string): Option<string>
  {
    var m := Search(PeriodPattern, t);
    if m.Some? then Some(GroupText(m.value, t, 1) + " To " + GroupText(m.value, t, 2)) else None
  }

  /** An expected date: the first pattern, and the second one only when the first finds nothing. */
  function DateOf(word: string, t: string): Option<string>
  {
    var first := Search(DatePattern(word), t);
    var m := if first.Some? then first else Search(NewlineDatePattern(word), t);
    if m.Some? then Some(GroupText(m.value, t, 1)) else None
  }

  // ---------------------------------------------------------------- extracted_data

  const InfoKeys: seq<string> := ["Name of the Patient", "Policy No", "Policy Period", "Date of Admission", "Date of Discharge"]

  const Defaults: map<string, string> := map k | k in InfoKeys :: "null"

  /** What the searches in the page's text found. */
  datatype Searched = Searched(name: Option<string>, policy: Option<string>, period: Option<string>,
                               admission: Option<string>, discharge: Option<string>)

  function SearchedIn(t: string): Searched
  {
    Searched(NameOf(t), PolicyOf(t), PeriodOf(t), DateOf("Admission", t), DateOf("Discharge", t))
  }

  /** The five stores, in the order of the source. */
  function Filled(d: map<string, string>, f: Searched): map<string, string>
  {
    var d1 := StoreIf(d, "Name of the Patient", f.name);
    var d2 := StoreIf(d1, "Policy No", f.policy);
    var d3 := StoreIf(d2, "Policy Period", f.period);
    var d4 := StoreIf(d3, "Date of Admission", f.admission);
    StoreIf(d4, "Date of Discharge", f.discharge)
  }

  /**
   * `extract_info_from_pdf` once the first page's text is known; None stands for a PDF that could
   * not be read, after which the handler returns the defaults.
   */
  function Info(text: Option<string>): map<string, string>
  {
    if text.None? then Defaults else Filled(Defaults, SearchedIn(text.value))
  }

  // ---------------------------------------------------------------- extract_info_from_pdf

  method ExtractInfo(text: Option<string>) returns (data: map<string, string>)
    ensures data == Info(text)
  {
    data := Defaults;
    if text.None? {
      return;
    }
    var t := text.value;
    var m := Search(NamePattern, t);
    if m.Some? {
      var name := Collapse(Strip(GroupText(m.value, t, 1)));
      data := data["Name of the Patient" := name];
    }
    m := Search(PolicyPattern, t);
    if m.Some? {
      data := data["Policy No" := Strip(GroupText(m.value, t, 1))];
    }
    m := Search(PeriodPattern, t);
    if m.Some? {
      data := data["Policy Period" := GroupText(m.value, t, 1) + " To " + GroupText(m.value, t, 2)];
    }
    data := StoreDate(data, "Date of Admission", "Admission", t);
    data := StoreDate(data, "Date of Discharge", "Discharge", t);
  }

  /** One expected date: the search, the second search when the first found nothing, and the store. */
  method StoreDate(d: map<string, string>, key: string, word: string, t: string) returns (r: map<string, string>)
    ensures r == StoreIf(d, key, DateOf(word, t))
  {
    r := d;
    var m := Search(DatePattern(word), t);
    if m.None? {
      m := Search(NewlineDatePattern(word), t);
    }
    if m.Some? {
      r := r[key := GroupText(m.value, t, 1)];
    }
  }

  // ---------------------------------------------------------------- the record

  lemma DefaultsIs()
    ensures Defaults.Keys == set k | k in InfoKeys
    ensures forall k :: k in Defaults ==> Defaults[k] == "null"
  {
  }

  /** Each key holds what its search found, or its earlier value; no key is added. */
  lemma FilledValues(d: map<string, string>, f: Searched)
    requires "Name of the Patient" in d && "Policy No" in d && "Policy Period" in d
    requires "Date of Admission" in d && "Date of Discharge" in d
    ensures var r := Filled(d, f);
            r.Keys == d.Keys &&
            r["Name of the Patient"] == OrElse(f.name, d["Name of the Patient"]) &&
            r["Policy No"] == OrElse(f.policy, d["Policy No"]) &&
            r["Policy Period"] == OrElse(f.period, d["Policy Period"]) &&
            r["Date of Admission"] == OrElse(f.admission, d["Date of Admission"]) &&
            r["Date of Discharge"] == OrElse(f.discharge, d["Date of Discharge"])
  {
    var d1 := StoreIf(d, "Name of the Patient", f.name);
    StoreIfIs(d, "Name of the Patient", f.name);
    var d2 := StoreIf(d1, "Policy No", f.policy);
    StoreIfIs(d1, "Policy No", f.policy);
    var d3 := StoreIf(d2, "Policy Period", f.period);
    StoreIfIs(d2, "Policy Period", f.period);
    var d4 := StoreIf(d3, "Date of Admission", f.admission);
    StoreIfIs(d3, "Date of Admission", f.admission);
    StoreIfIs(d4, "Date of Discharge", f.discharge);
  }

  /**
   * The record always has the five keys; without text every value is "null", and with text each
   * key holds what its search found, or "null" when the search found nothing.
   */
  lemma InfoIs(text: Option<string>)
    ensures Info(text).Keys == set k | k in InfoKeys
    ensures text.None? ==> forall k :: k in Info(text) ==> Info(text)[k] == "null"
    ensures text.Some? ==>
              var r := Info(text);
              var f := SearchedIn(text.value);
              "Name of the Patient" in r && r["Name of the Patient"] == OrNull(f.name) &&
              "Policy No" in r && r["Policy No"] == OrNull(f.policy) &&
              "Policy Period" in r && r["Policy Period"] == OrNull(f.period) &&
              "Date of Admission" in r && r["Date of Admission"] == OrNull(f.admission) &&
              "Date of Discharge" in r && r["Date of Discharge"] == OrNull(f.discharge)
  {
    DefaultsIs();
    assert forall k :: k in InfoKeys ==> k in Defaults;
    if text.Some? {
      FilledValues(Defaults, SearchedIn(text.value));
    }
  }

  // ---------------------------------------------------------------- what the searches find

  /** The name is found exactly when the pattern matches, and is then single-spaced and stripped. */
  lemma NameShape(t: string)
    ensures NameOf(t).Some? <==> Finds(NamePattern, t)
    ensures NameOf(t).Some? ==> SingleSpaced(NameOf(t).value) && IsStripped(NameOf(t).value)
  {
    if Finds(NamePattern, t) {
      CollapseSingle(Strip(GroupText(Search(NamePattern, t).value, t, 1)));
    }
  }

  lemma PolicyCaptures()
    ensures AllCaptureClass(PolicyPattern.items, 1, S.UpperDigit, 1) && SetsGroup(PolicyPattern.items, 1)
  {
    var items := PolicyPattern.items;
    assert forall j :: 0 <= j < |items| ==> ItemCapturesClass(items[j], 1, S.UpperDigit, 1);
    assert SetsGroup(items[6..], 1);
    assert SetsGroup(items[5..], 1);
    assert SetsGroup(items[4..], 1);
    assert SetsGroup(items[3..], 1);
    assert SetsGroup(items[2..], 1);
    assert SetsGroup(items[1..], 1);
  }

  /**
   * The policy number is found exactly when the pattern matches; it is then the captured group
   * itself (stripping changes nothing), non-empty, and made of capital letters and digits only.
   */
  lemma PolicyToken(t: string)
    ensures PolicyOf(t).Some? <==> Finds(PolicyPattern, t)
    ensures PolicyOf(t).Some? ==>
              var v := PolicyOf(t).value;
              v == GroupText(Search(PolicyPattern, t).value, t, 1) && |v| >= 1 &&
              forall j :: 0 <= j < |v| ==> 'A' <= v[j] <= 'Z' || '0' <= v[j] <= '9'
  {
    if Finds(PolicyPattern, t) {
      PolicyCaptures();
      S.GroupInClass(PolicyPattern, t, S.UpperDigit);
      var g := GroupText(Search(PolicyPattern, t).value, t, 1);
      assert S.Group1(PolicyPattern, t, 1) == Some(g);
      forall j | 0 <= j < |g| ensures 'A' <= g[j] <= 'Z' || '0' <= g[j] <= '9' {
        assert InClass(g[j], S.UpperDigit, false);
        assert InClass(g[j], Range('A', 'Z'), false) || InClass(g[j], Range('0', '9'), false);
      }
      assert !IsSpace(g[0]) && !IsSpace(g[|g| - 1]);
      StripStripped(g);
    }
  }

  /** The period is found exactly when the pattern matches, and is its two dates joined by " To ". */
  lemma PeriodJoined(t: string)
    ensures PeriodOf(t).Some? <==> Finds(PeriodPattern, t)
    ensures Finds(PeriodPattern, t) ==>
              var m := Search(PeriodPattern, t).value;
              PeriodOf(t).value == GroupText(m, t, 1) + " To " + GroupText(m, t, 2) &&
              PeriodOf(t).value[|GroupText(m, t, 1)|..|GroupText(m, t, 1)| + 4] == " To "
  {
    if Finds(PeriodPattern, t) {
      var m := Search(PeriodPattern, t).value;
      var a := GroupText(m, t, 1);
      var v := a + " To " + GroupText(m, t, 2);
      assert v[|a|..|a| + 4] == " To ";
    }
  }

  lemma DateLabelPlain(word: string)
    ensures Plainly(DateLabel(word))
  {
    var items := DateLabel(word);
    assert forall j :: 0 <= j < |items| ==> items[j].Lit? || (items[j].Rep? && items[j].greedy);
  }

  /**
   * The second date pattern never changes the result: it can only match where the first one
   * already does, because `\s*` also spans the line break, so the date is always the first
   * pattern's group.
   */
  lemma FallbackNeverUsed(word: string, t: string)
    ensures Finds(NewlineDatePattern(word), t) ==> Finds(DatePattern(word), t)
    ensures DateOf(word, t) == S.Group1(DatePattern(word), t, 1)
  {
    DateLabelPlain(word);
    SearchGapWidens(DatePattern(word), NewlineDatePattern(word), DateLabel(word), [MonthDate], t);
  }

  /** So the two dates of the record are the first patterns' groups, or "null". */
  lemma InfoDates(t: string)
    ensures var r := Info(Some(t));
            "Date of Admission" in r && r["Date of Admission"] == OrNull(S.Group1(DatePattern("Admission"), t, 1)) &&
            "Date of Discharge" in r && r["Date of Discharge"] == OrNull(S.Group1(DatePattern("Discharge"), t, 1))
  {
    InfoIs(Some(t));
    FallbackNeverUsed("Admission", t);
    FallbackNeverUsed("Discharge", t);
  }
}
