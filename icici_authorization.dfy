/**
 * `extract_authorization_letter_fields` of the ICICI extractor (icici.py, with the live
 * copy in scan_spam_icici.py): ordered pattern lists for the scalar fields, the Total Bill
 * line fallback, `extract_date` over label lists, `clean_number`, the remarks window and its
 * non-medical fallbacks, and the eleven-key result.
 */
module IciciAuthorization {
  import opened Common
  import opened Text
  import opened Regex
  import opened IciciText
  import opened IciciDate
  import opened PolicyPeriod
  import opened IciciPatterns

  // ---------------------------------------------------------------- the pattern lists

  const AlPatterns: seq<Pattern> := [
    CI([Lit("AL"), Ws0, Lit("Number"), Ws0, Lit(":"), Ws0, Cap(1, Negate(Union(Space, Chars("\n"))), 1, Unbounded, true)]),
    CI([Lit("AL"), Ws0, Lit("Number"), Ws0, Rep(Chars(":#"), 1, AtMost(1), true), Ws0, Cap(1, DigitDash, 1, Unbounded, true)]),
    CI([Lit("AL"), Ws0, Lit("No"), OptDot, Ws0, OptColonHash, Ws0, Cap(1, DigitDash, 1, Unbounded, true)]),
    CI([Lit("AL"), Ws0, Lit("Number"), OptColonHash, Ws0, Cap(1, DigitDash, 1, Unbounded, true)]),
    CI([Lit("AL"), Ws0, Lit("Number"), OptColonHash, Ws0, Cap(1, Negate(Chars("\n\r")), 1, Unbounded, true)])
  ]

  /** `(?=\s{2,}|\t|Policy|UHID|Co-Pay|$)` */
  const NameStop: Item := Ahead([Rep(Space, 2, Unbounded, true), Lit("\t"), Lit("Policy"), Lit("UHID"), Lit("Co-Pay"), LineEnd])

  const OcrNamePatterns: seq<Pattern> := [
    CI(PhraseItems(["Name", "of", "the", "Patient"]) + [Ws0, Lit(":"), Ws0, Cap(1, Negate(Chars(":\n")), 1, Unbounded, false), NameStop]),
    CI(PhraseItems(["Patient", "Name"]) + [Ws0, Lit(":"), Ws0, Cap(1, Negate(Chars(":\n")), 1, Unbounded, false), NameStop]),
    CI(PhraseItems(["Name", "of", "the", "Patient"]) + [Ws1,
      Group(1, [Rep(Range('A', 'Z'), 1, AtMost(1), true), Rep(Union(Range('A', 'Z'), Space), 1, Unbounded, true)]), NameStop]),
    CI(PhraseItems(["Name", "of", "the", "Patient"]) + [Ws0, Lit(":"), Ws0, Cap(1, Negate(Chars("\n")), 1, Unbounded, true)]),
    CI(PhraseItems(["Patient", "Name"]) + [Ws0, Lit(":"), Ws0, Cap(1, Negate(Chars("\n")), 1, Unbounded, true)])
  ]

  const TextNamePatterns: seq<Pattern> := [
    CI(PhraseItems(["Name", "of", "the", "Patient"]) + [Ws0, Lit(":"), Ws0, Cap(1, Negate(Chars(":\n")), 1, Unbounded, true)]),
    CI(PhraseItems(["Patient", "Name"]) + [Ws0, Lit(":"), Ws0, Cap(1, Negate(Chars(":\n")), 1, Unbounded, true)]),
    CI([Lit("Patient"), Ws0, Lit(":"), Ws0, Cap(1, Negate(Chars(":\n")), 1, Unbounded, true)]),
    CI(PhraseItems(["Name", "of", "Patient"]) + [Ws0, Lit(":"), Ws0, Cap(1, Negate(Chars(":\n")), 1, Unbounded, true)])
  ]

  const UhidPatterns: seq<Pattern> := [
    CI([Lit("UHID"), Ws0, Lit("Number"), Ws0, Lit(":"), Ws0, Cap(1, Negate(Union(Space, Chars("\n:"))), 1, Unbounded, true)]),
    CI([Lit("UHID"), Ws0, Lit("No"), OptDot, Ws0, Lit(":"), Ws0, Cap(1, Negate(Union(Space, Chars("\n:"))), 1, Unbounded, true)]),
    CI([Lit("UHID"), Ws0, Lit(":"), Ws0, Cap(1, Negate(Union(Space, Chars("\n:"))), 1, Unbounded, true)]),
    CI([Lit("UHID"), Ws0, Lit("Number"), Ws0, Rep(Chars(":#"), 1, AtMost(1), true), Ws0, Cap(1, Negate(Chars("\n\r:")), 1, Unbounded, true)])
  ]

  const PolicyPatterns: seq<Pattern> := [
    CI([Lit("Policy"), Ws0, Lit("No"), Ws0, Lit(":"), Ws0, Cap(1, Negate(Union(Space, Chars("\n:"))), 1, Unbounded, true)]),
    CI([Lit("Policy"), Ws0, Lit("Number"), Ws0, Lit(":"), Ws0, Cap(1, Negate(Union(Space, Chars("\n:"))), 1, Unbounded, true)]),
    CI([Lit("Policy"), Ws0, Lit(":"), Ws0, Cap(1, Negate(Union(Space, Chars("\n:"))), 1, Unbounded, true)]),
    CI([Lit("Policy"), Ws0, Lit("No"), OptDot, Ws0, Rep(Chars(":#"), 1, AtMost(1), true), Ws0, Cap(1, Negate(Chars("\n\r:")), 1, Unbounded, true)]),
    CI([Lit("Policy"), Ws0, Lit("No"), Ws1, Cap(1, Union(Range('0', '9'), Chars("/X")), 1, Unbounded, true)])
  ]

  const TotalPatterns: seq<Pattern> := [
    CI(PhraseItems(["Total", "Bill", "Amount"]) + [Ws0, Lit(":"), Ws0, Cap(1, DigitComma, 1, Unbounded, true)]),
    CI(PhraseItems(["Total", "Bill"]) + [Ws0, Lit(":"), Ws0, Cap(1, DigitComma, 1, Unbounded, true)]),
    CI(PhraseItems(["Total", "Amount"]) + [Ws0, Lit(":"), Ws0, Cap(1, DigitComma, 1, Unbounded, true)]),
    CI(PhraseItems(["Bill", "Amount"]) + [Ws0, Lit(":"), Ws0, Cap(1, DigitComma, 1, Unbounded, true)]),
    CI(PhraseItems(["Total", "Bill", "Amount"]) + [Ws1, Cap(1, DigitComma, 1, Unbounded, true)])
  ]

  const ApprovedPatterns: seq<Pattern> := [
    CI(PhraseItems(["guarantee", "for", "payment", "of", "Rs"]) + [Ws0, Cap(1, DigitComma, 1, Unbounded, true)]),
    CI(PhraseItems(["payment", "of", "Rs"]) + [Ws0, Cap(1, DigitComma, 1, Unbounded, true)]),
    CI(PhraseItems(["Approved", "Amount"]) + [Ws0, Lit(":"), Ws0, Cap(1, DigitComma, 1, Unbounded, true)]),
    CI(PhraseItems(["Final", "Approved", "Amount"]) + [Ws0, OptColonHash, Ws0, Cap(1, DigitComma, 1, Unbounded, true)]),
    CI([Lit("Rs"), Ws0, Cap(1, DigitComma, 1, Unbounded, true), Ws1, Lit("(in words)")])
  ]

  /** `Total\s+Bill\s+Amount`, looked for line by line in the fallback. */
  const BillLabel: Pattern := CI(PhraseItems(["Total", "Bill", "Amount"]))
  /** `[\d,]+`, case-sensitive. */
  const AmountRun: Pattern := Pattern([Rep(DigitComma, 1, Unbounded, true)], false, false)

  // ---------------------------------------------------------------- scalar fields

  /** `clean_number(num_str)`: None for a missing or empty value, else the commas dropped and the rest stripped. */
  function CleanNumber(n: Option<string>): (r: Option<string>)
    ensures r.None? <==> n.None? || n.value == ""
  {
    if n.None? || n.value == "" then None else Some(Strip(Replace(n.value, ",", "")))
  }

  /** A cleaned amount has no comma and no surrounding whitespace. */
  lemma CleanNumberNoComma(n: Option<string>)
    ensures var r := CleanNumber(n);
            r.Some? ==> IsStripped(r.value) && forall k :: 0 <= k < |r.value| ==> r.value[k] != ','
  {
    if n.Some? && n.value != "" {
      var t := Replace(n.value, ",", "");
      ReplaceRemovesChar(n.value, ',');
      var r := Strip(t);
      var b: nat :| OccursAt(t, r, b);
      forall k | 0 <= k < |r| ensures r[k] != ',' { assert r[k] == t[b + k]; }
    }
  }

  /** Text made of `[\d,]` characters only. */
  predicate DigitsAndCommas(g: string) { forall k :: 0 <= k < |g| ==> IsDigit(g[k]) || g[k] == ',' }

  lemma DigitsAndCommasInfix(t: string, g: string)
    requires IsInfix(t, g) && DigitsAndCommas(g)
    ensures DigitsAndCommas(t)
  {
    var a: nat :| OccursAt(g, t, a);
    forall k | 0 <= k < |t| ensures IsDigit(t[k]) || t[k] == ',' { assert t[k] == g[a + k]; }
  }

  lemma AllDigitsInfix(t: string, g: string)
    requires IsInfix(t, g) && AllDigits(g)
    ensures AllDigits(t)
  {
    var a: nat :| OccursAt(g, t, a);
    forall k | 0 <= k < |t| ensures IsDigit(t[k]) { assert t[k] == g[a + k]; }
  }

  /** Every pattern in the list sets group 1 only through a run of digits and commas. */
  predicate DigitCommaCaptures(ps: seq<Pattern>)
  {
    forall k :: 0 <= k < |ps| ==> AllCaptureClass(ps[k].items, 1, DigitComma, 1)
  }

  /** `[\d,]` holds digits and commas only, in either case mode. */
  lemma DigitCommaClass(c: char, ci: bool)
    requires InClass(c, DigitComma, ci)
    ensures IsDigit(c) || c == ','
  {
    assert InClass(c, Digit, ci) || InClass(c, Chars(","), ci);
    if ToLower(c) == ',' { assert c == ','; }
    if ToUpper(c) == ',' { assert c == ','; }
  }

  /** The group the first matching pattern of such a list captures is digits and commas. */
  lemma FirstGroupDigitComma(ps: seq<Pattern>, s: string)
    requires DigitCommaCaptures(ps)
    requires FirstGroup(ps, s, 1).Some?
    ensures DigitsAndCommas(FirstGroup(ps, s, 1).value)
  {
    var k := FirstFinding(ps, s).value;
    var m := Search(ps[k], s).value;
    var g := GroupText(m, s, 1);
    assert FirstGroup(ps, s, 1).value == g;
    if 1 in m.caps {
      SearchCapturedText(ps[k], s, 1, DigitComma, 1);
      forall j | 0 <= j < |g| ensures IsDigit(g[j]) || g[j] == ',' {
        DigitCommaClass(g[j], ps[k].ignoreCase);
      }
    }
  }

  lemma TotalPatternsDigitComma()
    ensures DigitCommaCaptures(TotalPatterns)
  {
  }

  lemma ApprovedPatternsDigitComma()
    ensures DigitCommaCaptures(ApprovedPatterns)
  {
  }

  // ---------------------------------------------------------------- the Total Bill fallback

  /** The first `[\d,]+` run in lines `j` up to `stop`, stripped. */
  function AmountIn(lines: seq<string>, j: nat, stop: nat): (r: Option<string>)
    requires stop <= |lines|
    ensures r.Some? ==> exists k :: j <= k < stop && Finds(AmountRun, lines[k])
    decreases stop - j
  {
    if j >= stop then None
    else
      var m := Search(AmountRun, lines[j]);
      if m.Some? then Some(Strip(MatchText(m.value, lines[j]))) else AmountIn(lines, j + 1, stop)
  }

  /** The window the fallback reads for a label on line `i`: that line and the two after it. */
  function Window(lines: seq<string>, i: nat): (r: Option<string>)
    requires i < |lines|
  {
    AmountIn(lines, i, if i + 3 < |lines| then i + 3 else |lines|)
  }

  /** The first label line from `i` on whose window holds an amount gives the amount. */
  function BillFallback(lines: seq<string>, i: nat): (r: Option<string>)
    requires i <= |lines|
    decreases |lines| - i
  {
    if i == |lines| then None
    else if Finds(BillLabel, lines[i]) && Truthy(Window(lines, i)) then Window(lines, i)
    else BillFallback(lines, i + 1)
  }

  /** The amount a fallback finds lies within three lines from a label line. */
  lemma {:induction false} BillFallbackWindow(lines: seq<string>, i: nat)
    requires i <= |lines|
    ensures BillFallback(lines, i).Some? ==>
              exists l, k :: i <= l <= k < l + 3 && k < |lines| && Finds(BillLabel, lines[l]) && Finds(AmountRun, lines[k])
    decreases |lines| - i
  {
    if i < |lines| {
      if Finds(BillLabel, lines[i]) && Truthy(Window(lines, i)) {
        var stop := if i + 3 < |lines| then i + 3 else |lines|;
        var k :| i <= k < stop && Finds(AmountRun, lines[k]);
        assert i <= i <= k < i + 3 && k < |lines| && Finds(BillLabel, lines[i]) && Finds(AmountRun, lines[k]);
      } else {
        BillFallbackWindow(lines, i + 1);
      }
    }
  }

  /** The inner loop `for j in range(i, min(i+3, len(lines)))` of the fallback. */
  method ScanWindow(lines: seq<string>, i: nat) returns (amount: Option<string>)
    requires i < |lines|
    ensures amount == Window(lines, i)
  {
    var stop := if i + 3 < |lines| then i + 3 else |lines|;
    var j := i;
    while j < stop
      invariant i <= j <= stop
      invariant AmountIn(lines, i, stop) == AmountIn(lines, j, stop)
    {
      var m := Search(AmountRun, lines[j]);
      if m.Some? {
        return Some(Strip(MatchText(m.value, lines[j])));
      }
      j := j + 1;
    }
    return None;
  }

  /** The outer loop of the fallback over the lines of the text. */
  method ScanBillLines(lines: seq<string>) returns (amount: Option<string>)
    ensures amount == BillFallback(lines, 0)
  {
    var i := 0;
    while i < |lines|
      invariant i <= |lines|
      invariant BillFallback(lines, 0) == BillFallback(lines, i)
    {
      if Finds(BillLabel, lines[i]) {
        amount := ScanWindow(lines, i);
        if Truthy(amount) {
          return;
        }
      }
      i := i + 1;
    }
    return None;
  }

  /** The raw Total Bill Amount: the pattern list, then the line fallback. */
  function RawTotal(text: string): Option<string>
  {
    var t := Stripped(FirstGroup(TotalPatterns, text, 1));
    if Truthy(t) then t else BillFallback(Lines(text), 0)
  }

  // ---------------------------------------------------------------- extract_date

  /** `\d{1,2}[-\s]?[A-Za-z]{3}[-\s]?\d{2,4}` as group 1. */
  const NamedDate: Item := Group(1, [
    Rep(Digit, 1, AtMost(2), true), Rep(Union(Chars("-"), Space), 0, AtMost(1), true),
    Rep(Union(Range('A', 'Z'), Range('a', 'z')), 3, AtMost(3), true),
    Rep(Union(Chars("-"), Space), 0, AtMost(1), true), Rep(Digit, 2, AtMost(4), true)])

  /** `\d{1,2}[-/\s]\d{1,2}[-/\s]\d{2,4}` as group 1. */
  const NumericDate: Item := Group(1, [
    Rep(Digit, 1, AtMost(2), true), Rep(Union(Chars("-/"), Space), 1, AtMost(1), true),
    Rep(Digit, 1, AtMost(2), true), Rep(Union(Chars("-/"), Space), 1, AtMost(1), true),
    Rep(Digit, 2, AtMost(4), true)])

  /** The three patterns tried for each label, in order. */
  function DatePatterns(tag: string): seq<Pattern>
  {
    [CI([Lit(tag), Ws0, Lit(":"), Ws0, NamedDate]),
     CI([Lit(tag), Ws0, Lit(":"), Ws0, NumericDate]),
     CI([Lit(tag), Ws1, NamedDate])]
  }

  const AdmissionLabels: seq<string> := ["Date of Admission", "Admission Date", "DOA"]
  const DischargeLabels: seq<string> := ["Date of Discharge", "Discharge Date", "DOD"]

  /** `extract_date(labels)` from label `k` on: the formatted date of the first pattern that matches. */
  function DateFrom(text: string, labels: seq<string>, k: nat): (r: Option<string>)
    requires k <= |labels|
    decreases |labels| - k
  {
    if k == |labels| then None
    else
      var g := FirstGroup(DatePatterns(labels[k]), text, 1);
      if g.Some? then FormattedDate(g) else DateFrom(text, labels, k + 1)
  }

  /** The patterns of label `j` give group 1 of their first match. */
  function LabelGroup(text: string, labels: seq<string>, j: nat): Option<string>
    requires j < |labels|
  {
    FirstGroup(DatePatterns(labels[j]), text, 1)
  }

  /** The first label from `k` on one of whose patterns matches. */
  function FirstLabel(text: string, labels: seq<string>, k: nat): (r: Option<nat>)
    requires k <= |labels|
    ensures r.Some? ==> k <= r.value < |labels| && LabelGroup(text, labels, r.value).Some?
    ensures r.Some? ==> forall i :: k <= i < r.value ==> LabelGroup(text, labels, i).None?
    ensures r.None? ==> forall i :: k <= i < |labels| ==> LabelGroup(text, labels, i).None?
    decreases |labels| - k
  {
    if k == |labels| then None
    else if LabelGroup(text, labels, k).Some? then Some(k)
    else FirstLabel(text, labels, k + 1)
  }

  /**
   * The first label, in order, one of whose three patterns matches decides the date: it is
   * `format_date` of that match's group; with none matching there is no date.
   */
  lemma {:induction false} DateFromFirstLabel(text: string, labels: seq<string>, k: nat)
    requires k <= |labels|
    ensures var f := FirstLabel(text, labels, k);
            DateFrom(text, labels, k) == if f.None? then None else FormattedDate(LabelGroup(text, labels, f.value))
    decreases |labels| - k
  {
    if k < |labels| && LabelGroup(text, labels, k).None? {
      DateFromFirstLabel(text, labels, k + 1);
    }
  }

  /** A date found is a rendered `DD-Mon-YYYY` date or the hyphenated text of the match. */
  lemma DateFromShape(text: string, labels: seq<string>)
    ensures var r := DateFrom(text, labels, 0);
            r.Some? ==> exists g :: IsRendered(r.value) || r.value == Hyphenated(g)
  {
    DateFromFirstLabel(text, labels, 0);
    var f := FirstLabel(text, labels, 0);
    if f.Some? {
      FormattedDateShape(LabelGroup(text, labels, f.value));
    }
  }

  /** The loop of `extract_date`. */
  method ExtractDate(text: string, labels: seq<string>) returns (r: Option<string>)
    ensures r == DateFrom(text, labels, 0)
  {
    var k := 0;
    while k < |labels|
      invariant k <= |labels|
      invariant DateFrom(text, labels, 0) == DateFrom(text, labels, k)
    {
      var g := SearchInOrder(DatePatterns(labels[k]), text, 1);
      if g.Some? {
        r := FormatDate(g);
        return;
      }
      k := k + 1;
    }
    return None;
  }

  // ---------------------------------------------------------------- the amounts are digits

  /** A match of `[\d,]+` is a run of digits and commas. */
  lemma AmountRunText(s: string)
    requires Finds(AmountRun, s)
    ensures DigitsAndCommas(MatchText(Search(AmountRun, s).value, s))
  {
    var m := Search(AmountRun, s).value;
    var run := Run(s, m.start, DigitComma, false, Unbounded);
    assert MatchFrom(AmountRun, s, m.start) == Some(m);
    assert AmountRun.items[1..] == [];
    assert TryDown(AmountRun, [], s, m.start, map[], 1, run, None) == Some(Found(m.start + run, map[]));
    assert MatchItems(AmountRun, AmountRun.items, s, m.start, map[]) == Some(Found(m.start + run, map[]));
    assert m.end == m.start + run;
    var t := MatchText(m, s);
    forall j | 0 <= j < |t| ensures IsDigit(t[j]) || t[j] == ',' {
      assert t[j] == s[m.start + j];
      DigitCommaClass(t[j], false);
    }
  }

  lemma {:induction false} AmountInDigits(lines: seq<string>, j: nat, stop: nat)
    requires stop <= |lines|
    ensures AmountIn(lines, j, stop).Some? ==> DigitsAndCommas(AmountIn(lines, j, stop).value)
    decreases stop - j
  {
    if j < stop {
      if Finds(AmountRun, lines[j]) {
        var t := MatchText(Search(AmountRun, lines[j]).value, lines[j]);
        AmountRunText(lines[j]);
        DigitsAndCommasInfix(Strip(t), t);
      } else {
        AmountInDigits(lines, j + 1, stop);
      }
    }
  }

  lemma {:induction false} BillFallbackDigits(lines: seq<string>, i: nat)
    requires i <= |lines|
    ensures BillFallback(lines, i).Some? ==> DigitsAndCommas(BillFallback(lines, i).value)
    decreases |lines| - i
  {
    if i < |lines| {
      AmountInDigits(lines, i, if i + 3 < |lines| then i + 3 else |lines|);
      BillFallbackDigits(lines, i + 1);
    }
  }

  /** An amount read by a `[\d,]+` pattern list, stripped, is digits and commas. */
  lemma StrippedAmount(ps: seq<Pattern>, text: string)
    requires DigitCommaCaptures(ps)
    ensures var t := Stripped(FirstGroup(ps, text, 1)); t.Some? ==> DigitsAndCommas(t.value)
  {
    var g := FirstGroup(ps, text, 1);
    if g.Some? {
      FirstGroupDigitComma(ps, text);
      DigitsAndCommasInfix(Strip(g.value), g.value);
    }
  }

  /** The raw Total Bill Amount, from the patterns or the fallback, is digits and commas. */
  lemma RawTotalDigits(text: string)
    ensures RawTotal(text).Some? ==> DigitsAndCommas(RawTotal(text).value)
  {
    TotalPatternsDigitComma();
    StrippedAmount(TotalPatterns, text);
    BillFallbackDigits(Lines(text), 0);
  }

  /** `clean_number` of digits and commas is digits only. */
  lemma CleanNumberDigits(n: Option<string>)
    requires n.Some? ==> DigitsAndCommas(n.value)
    ensures CleanNumber(n).Some? ==> AllDigits(CleanNumber(n).value)
  {
    if n.Some? && n.value != "" {
      ReplaceCommasDigits(n.value);
      AllDigitsInfix(Strip(Replace(n.value, ",", "")), Replace(n.value, ",", ""));
    }
  }

  // ---------------------------------------------------------------- remarks

  /** `Remarks\s*:` */
  const RemarksLabel: Pattern := CI([Lit("Remarks"), Ws0, Lit(":")])
  /** The boundary marker "For any cashless queries", searched case-insensitively. */
  const CashlessMarker: Pattern := CI([Lit("For any cashless queries")])
  /** `(\n\s*\n|\nNote:|\nImportant Note:|Terms and Conditions of Authorization)` */
  const RemarksEnd: Pattern := CI([Alt([Seq([Lit("\n"), Ws0, Lit("\n")]), Lit("\nNote:"), Lit("\nImportant Note:"),
                                        Lit("Terms and Conditions of Authorization")])])

  /** Where the remarks text begins: just after `Remarks:`. */
  function RemarksStart(text: string): (r: Option<nat>)
    ensures r.Some? ==> r.value <= |text|
  {
    var m := Search(RemarksLabel, text);
    if m.Some? then Some(m.value.end) else None
  }

  /** Where the boundary marker begins, searched from the start of the remarks. */
  function MarkerAt(text: string, st: nat): (r: Option<nat>)
    requires st <= |text|
    ensures r.Some? ==> st <= r.value <= |text|
  {
    var m := Search(CashlessMarker, text[st..]);
    if m.Some? then Some(st + m.value.start) else None
  }

  /** The end of the remarks before a marker at `b`: the start of the marker's line, never before `st`. */
  function LineStartEnd(text: string, st: nat, b: nat): (e: nat)
    requires st <= b <= |text|
  {
    var ls := RFindChar(text, '\n', b);
    var e := if ls != -1 then ls + 1 else st;
    if e < st then st else e
  }

  /** The remarks section as written, stripped; None without a `Remarks:` label. */
  function RemarksSection(text: string): (r: Option<string>)
    ensures r.None? <==> !Finds(RemarksLabel, text)
  {
    var st := RemarksStart(text);
    if st.None? then None
    else
      var b := MarkerAt(text, st.value);
      if b.Some? then
        var e := LineStartEnd(text, st.value, b.value);
        Some(Strip(text[st.value..e]))
      else
        var rest := text[st.value..];
        var em := Search(RemarksEnd, rest);
        if em.Some? then Some(Strip(rest[..em.value.start])) else Some(Strip(rest))
  }

  /**
   * The end `rfind` picks for a marker at `b`: `st` itself when no newline lies between `st`
   * and the marker; otherwise just after a newline, with no newline from there to the marker.
   */
  lemma LineStartEndFacts(text: string, st: nat, b: nat)
    requires st <= b <= |text|
    ensures var e := LineStartEnd(text, st, b);
            st <= e <= b &&
            ((forall k :: st <= k < b ==> text[k] != '\n') ==> e == st) &&
            ((exists k :: st <= k < b && text[k] == '\n') ==>
               st < e && text[e - 1] == '\n' && forall k :: e <= k < b ==> text[k] != '\n')
  {
    var ls := RFindChar(text, '\n', b);
    if exists k :: st <= k < b && text[k] == '\n' {
      var k :| st <= k < b && text[k] == '\n';
      assert ls >= k;
    }
  }

  /** The section when the marker is found: the text from `Remarks:` to the start of the marker's line. */
  lemma RemarksToMarkerLine(text: string)
    requires RemarksStart(text).Some? && MarkerAt(text, RemarksStart(text).value).Some?
    ensures var st := RemarksStart(text).value; var b := MarkerAt(text, st).value;
            RemarksSection(text) == Some(Strip(text[st..LineStartEnd(text, st, b)]))
  {
  }

  /**
   * With the marker found, the remarks are the lines between `Remarks:` and the marker's own
   * line: when the marker sits on the label's line they are empty; otherwise they run up to a
   * newline after which no newline precedes the marker.
   */
  lemma RemarksBeforeMarker(text: string)
    requires RemarksStart(text).Some? && MarkerAt(text, RemarksStart(text).value).Some?
    ensures var st := RemarksStart(text).value; var b := MarkerAt(text, st).value;
            ((forall k :: st <= k < b ==> text[k] != '\n') ==> RemarksSection(text) == Some("")) &&
            ((exists k :: st <= k < b && text[k] == '\n') ==>
               exists e :: st < e <= b && text[e - 1] == '\n' && (forall k :: e <= k < b ==> text[k] != '\n') &&
                           RemarksSection(text) == Some(Strip(text[st..e])))
  {
    var st := RemarksStart(text).value;
    var b := MarkerAt(text, st).value;
    RemarksToMarkerLine(text);
    LineStartEndFacts(text, st, b);
    var e := LineStartEnd(text, st, b);
    if e == st {
      assert text[st..e] == "";
    }
  }

  /** Without a marker the remarks stop at the first end marker, or run to the end of the text. */
  lemma RemarksWithoutMarker(text: string)
    requires RemarksStart(text).Some? && MarkerAt(text, RemarksStart(text).value).None?
    ensures var rest := text[RemarksStart(text).value..];
            RemarksSection(text) == Some(Strip(if Finds(RemarksEnd, rest) then rest[..Search(RemarksEnd, rest).value.start] else rest))
  {
  }

  /** `Non-Medical\s+Expenses.*?\(Please.*?\)(.+?)(?:\n\n|\n\s*\n|$)`, across lines. */
  const NonMedicalNote: Pattern := CI(PhraseItems(["Non-Medical", "Expenses"]) + [
    Rep(AnyChar, 0, Unbounded, false), Lit("(Please"), Rep(AnyChar, 0, Unbounded, false), Lit(")"),
    Cap(1, AnyChar, 1, Unbounded, false), Alt([Lit("\n\n"), Seq([Lit("\n"), Ws0, Lit("\n")]), LineEnd])])

  /** `Rs\.\s*([\d,]+)[-/]?\s*Deducted\s+as\s+Non\s+medical\s+expenses` */
  const NonMedicalDeduction: Pattern := CI([Lit("Rs."), Ws0, Cap(1, DigitComma, 1, Unbounded, true),
    Rep(Chars("-/"), 0, AtMost(1), true), Ws0] + PhraseItems(["Deducted", "as", "Non", "medical", "expenses"]))

  /** The sentence the deduction fallback writes for an amount. */
  function DeductionNote(amount: string): string
  {
    "Rs. " + amount + "/- Deducted as Non medical expenses (to be borne by patient)"
  }

  /** The two non-medical fallbacks, in order; a first one whose text strips to nothing gives way. */
  function NonMedical(text: string): (r: Option<string>)
  {
    var m0 := Search(NonMedicalNote, text);
    var note := if m0.Some? then Strip(GroupText(m0.value, text, 1)) else "";
    if note != "" then Some(note)
    else
      var m1 := Search(NonMedicalDeduction, text);
      if m1.Some? && GroupText(m1.value, text, 1) != "" then Some(DeductionNote(GroupText(m1.value, text, 1)))
      else None
  }

  /** The amount the deduction pattern captures is digits and commas. */
  lemma DeductionAmount(text: string)
    requires Finds(NonMedicalDeduction, text)
    ensures DigitsAndCommas(GroupText(Search(NonMedicalDeduction, text).value, text, 1))
  {
    var m1 := Search(NonMedicalDeduction, text).value;
    var a := GroupText(m1, text, 1);
    assert AllCaptureClass(NonMedicalDeduction.items, 1, DigitComma, 1);
    if 1 in m1.caps {
      SearchCapturedText(NonMedicalDeduction, text, 1, DigitComma, 1);
      forall j | 0 <= j < |a| ensures IsDigit(a[j]) || a[j] == ',' { DigitCommaClass(a[j], true); }
    }
  }

  /** The fallback yields a stripped note or a deduction sentence for a `[\d,]+` amount. */
  lemma NonMedicalShape(text: string)
    ensures var r := NonMedical(text);
            r.Some? ==> (r.value != "" && IsStripped(r.value)) ||
                        exists a :: a != "" && DigitsAndCommas(a) && r.value == DeductionNote(a)
  {
    var r := NonMedical(text);
    var m0 := Search(NonMedicalNote, text);
    var note := if m0.Some? then Strip(GroupText(m0.value, text, 1)) else "";
    if r.Some? && note == "" {
      DeductionAmount(text);
      var a := GroupText(Search(NonMedicalDeduction, text).value, text, 1);
      assert r.value == DeductionNote(a);
    }
  }

  /** `re.sub(r"^[:\s-]+", "", s)`: drops the leading colons, whitespace and hyphens. */
  function DropLeadPunct(s: string): (r: string)
    ensures |r| <= |s| && r == s[|s| - |r|..]
    ensures |r| == 0 || (r[0] != ':' && r[0] != '-' && !IsSpace(r[0]))
    decreases |s|
  {
    if |s| > 0 && (s[0] == ':' || s[0] == '-' || IsSpace(s[0])) then DropLeadPunct(s[1..]) else s
  }

  /** The final clean-up of found remarks: whitespace runs squashed, stripped, leading `:`/`-` dropped, stripped. */
  function CleanRemarks(x: string): string
  {
    Strip(DropLeadPunct(Strip(SquashSpaces(x))))
  }

  /** Dropping the leading punctuation of stripped, single-spaced text keeps it so. */
  lemma DropLeadKeeps(t: string)
    requires SingleSpaced(t) && IsStripped(t)
    ensures SingleSpaced(DropLeadPunct(t)) && IsStripped(DropLeadPunct(t))
  {
    var d := DropLeadPunct(t);
    SuffixSingleSpaced(t, |t| - |d|);
    if |d| > 0 { assert d[|d| - 1] == t[|t| - 1]; }
  }

  /** Cleaned remarks are single-spaced, stripped, and begin with neither `:` nor `-`. */
  lemma CleanRemarksShape(x: string)
    ensures var c := CleanRemarks(x);
            IsStripped(c) && SingleSpaced(c) && (|c| == 0 || (c[0] != ':' && c[0] != '-'))
  {
    var q := SquashSpaces(x);
    SquashSpacesSingle(x);
    var t := Strip(q);
    InfixSingleSpaced(t, q);
    DropLeadKeeps(t);
    StripStripped(DropLeadPunct(t));
  }

  /** The remarks: the section, else a non-medical fallback; then cleaned when non-empty. */
  function RawRemarks(text: string): Option<string>
  {
    var sec := RemarksSection(text);
    if Truthy(sec) then sec
    else
      var nm := NonMedical(text);
      if nm.Some? then nm else sec
  }

  function Remarks(text: string): (r: Option<string>)
  {
    var raw := RawRemarks(text);
    if Truthy(raw) then Some(CleanRemarks(raw.value)) else raw
  }

  /**
   * The Remarks value is None exactly when there is no `Remarks:` label and no fallback
   * applies; a non-empty one is single-spaced, stripped and starts with neither `:` nor `-`.
   */
  lemma RemarksFacts(text: string)
    ensures Remarks(text).None? <==> !Finds(RemarksLabel, text) && NonMedical(text).None?
    ensures var r := Remarks(text);
            r.Some? ==> IsStripped(r.value) && SingleSpaced(r.value) && (|r.value| == 0 || (r.value[0] != ':' && r.value[0] != '-'))
  {
    var raw := RawRemarks(text);
    if Truthy(raw) {
      CleanRemarksShape(raw.value);
    }
  }

  // ---------------------------------------------------------------- the result

  /** The dictionary `extract_authorization_letter_fields` returns. */
  datatype AuthorizationRecord = AuthorizationRecord(
    letterType: string,
    alNumber: Option<string>,
    patientName: Option<string>,
    uhidNumber: Option<string>,
    policyNo: Option<string>,
    policyPeriod: Option<string>,
    admissionDate: Option<string>,
    dischargeDate: Option<string>,
    totalBillAmount: Option<string>,
    approvedAmount: Option<string>,
    remarks: Option<string>)

  function NamePatterns(withOcr: bool): seq<Pattern>
  {
    if withOcr then OcrNamePatterns else TextNamePatterns
  }

  /** The fields of an authorization letter. */
  function AuthorizationFields(text: string, withOcr: bool): AuthorizationRecord
  {
    AuthorizationRecord(
      "Authorization Letter",
      Stripped(FirstGroup(AlPatterns, text, 1)),
      CleanedName(Stripped(FirstGroup(NamePatterns(withOcr), text, 1))),
      Stripped(FirstGroup(UhidPatterns, text, 1)),
      Stripped(FirstGroup(PolicyPatterns, text, 1)),
      PolicyPeriodOf(text),
      DateFrom(text, AdmissionLabels, 0),
      DateFrom(text, DischargeLabels, 0),
      CleanNumber(RawTotal(text)),
      CleanNumber(Stripped(FirstGroup(ApprovedPatterns, text, 1))),
      Remarks(text))
  }

  /** Both amounts of an authorization letter are digits only. */
  lemma AmountsAreDigits(text: string, withOcr: bool)
    ensures var r := AuthorizationFields(text, withOcr);
            (r.totalBillAmount.Some? ==> AllDigits(r.totalBillAmount.value)) &&
            (r.approvedAmount.Some? ==> AllDigits(r.approvedAmount.value))
  {
    RawTotalDigits(text);
    CleanNumberDigits(RawTotal(text));
    ApprovedPatternsDigitComma();
    StrippedAmount(ApprovedPatterns, text);
    CleanNumberDigits(Stripped(FirstGroup(ApprovedPatterns, text, 1)));
  }

  /** The Total Bill Amount: the pattern list, and when that finds nothing the line fallback. */
  method ExtractTotal(text: string) returns (t: Option<string>)
    ensures t == RawTotal(text)
  {
    var g := SearchInOrder(TotalPatterns, text, 1);
    t := Stripped(g);
    if !Truthy(t) {
      t := ScanBillLines(Lines(text));
    }
  }

  /** `extract_authorization_letter_fields(text, with_ocr)`. */
  method ExtractAuthorizationLetterFields(text: string, withOcr: bool) returns (r: AuthorizationRecord)
    ensures r == AuthorizationFields(text, withOcr)
    ensures r.patientName.Some? ==> forall k :: 0 <= k < |NameSeparators| ==> !Contains(r.patientName.value, NameSeparators[k])
    ensures r.policyPeriod == PolicyPeriodOf(text)
  {
    var al := SearchInOrder(AlPatterns, text, 1);
    var rawName := SearchInOrder(NamePatterns(withOcr), text, 1);
    var name: Option<string> := None;
    if rawName.Some? {
      name := CleanPatientName(Stripped(rawName));
    }
    var uhid := SearchInOrder(UhidPatterns, text, 1);
    var policy := SearchInOrder(PolicyPatterns, text, 1);
    var totalAmount := ExtractTotal(text);
    var approved := SearchInOrder(ApprovedPatterns, text, 1);
    var admission := ExtractDate(text, AdmissionLabels);
    var discharge := ExtractDate(text, DischargeLabels);
    var period := ExtractPolicyPeriod(text);
    r := AuthorizationRecord("Authorization Letter", Stripped(al), name, Stripped(uhid), Stripped(policy), period,
                             admission, discharge, CleanNumber(totalAmount), CleanNumber(Stripped(approved)), Remarks(text));
  }

  /** The dictionary's `"Letter Type"`. */
  lemma AuthorizationFieldsType(text: string, withOcr: bool)
    ensures AuthorizationFields(text, withOcr).letterType == "Authorization Letter"
  {
  }
}
