/**
 * `extract_query_letter_fields` (icici.py): the fields of an ICICI query letter
 * ("ADDITIONAL INFORMATION REQUEST FORM"). The scalar fields are the rest of a labelled
 * line; the numbered reasons come from the REMARKS section's table, or else from the stock
 * queries the text mentions, or else from a line scanner over the section, and are then
 * completed with a first reason and rearranged into the slots 1 to 5.
 */
module IciciQuery {
  import opened Common
  import opened Text
  import opened Regex
  import opened IciciText
  import opened IciciPatterns
  import opened PolicyPeriod
  import opened IciciReasons
  import opened IciciQueryOrder

  /** The Date of Admission of a query letter is taken as written, to the end of its line. */
  const QueryAdmissionPatterns: seq<Pattern> := [
    CI(PhraseItems(["Date", "of", "Admission"]) + [Ws0, OptColon, Ws0, RestOfLine]),
    CI(PhraseItems(["Admission", "Date"]) + [Ws0, OptColon, Ws0, RestOfLine]),
    CI([Lit("DOA"), Ws0, OptColon, Ws0, RestOfLine])
  ]

  lemma AdmissionPatternsCaptureLines()
    ensures LineCaptures(QueryAdmissionPatterns)
  {
    var tail := [Ws0, OptColon, Ws0, RestOfLine];
    PhraseCaptures(["Date", "of", "Admission"]);
    PhraseCaptures(["Admission", "Date"]);
    AllCaptureClassAppend(PhraseItems(["Date", "of", "Admission"]), tail, 1, Negate(Chars("\n")), 1);
    AllCaptureClassAppend(PhraseItems(["Admission", "Date"]), tail, 1, Negate(Chars("\n")), 1);
  }

  // ---------------------------------------------------------------- the REMARKS section

  /** `REMARKS\s*:(.+?)(?:Any\s+Other\s+document|We\s+request\s+you|$)`, IGNORECASE and DOTALL. */
  const RemarksPattern: Pattern := CI([
    Lit("REMARKS"), Ws0, Lit(":"), Cap(1, AnyChar, 1, Unbounded, false),
    Alt([Seq(PhraseItems(["Any", "Other", "document"])), Seq(PhraseItems(["We", "request", "you"])), LineEnd])])

  /** `Sr\s*No\s*Query\s*Description`, IGNORECASE. */
  const QueryHeader: Pattern := CI([Lit("Sr"), Ws0, Lit("No"), Ws0, Lit("Query"), Ws0, Lit("Description")])

  // ---------------------------------------------------------------- the stock queries

  /** `for i, query in enumerate(common_queries, 1): if query in text: reasons.append(...)`, up to `n`. */
  function StockHitsUpTo(text: string, n: nat): seq<string>
    requires n <= 5
  {
    if n == 0 then []
    else StockHitsUpTo(text, n - 1) + (if Contains(text, StockQueries[n - 1]) then [StockEntry(n)] else [])
  }

  function StockHits(text: string): seq<string> { StockHitsUpTo(text, 5) }

  lemma StockEntrySlot(i: nat)
    requires 1 <= i <= 5
    ensures SlotOf(StockEntry(i)) == i
  {
    StockEntryTagged(i);
    SlotOfTagged(StockEntry(i), i);
  }

  /**
   * Every hit up to `n` is the stock entry its leading digit names, that number is at most
   * `n`, and the text mentions that stock query.
   */
  lemma {:induction false} StockHitsAreEntries(text: string, n: nat)
    requires n <= 5
    ensures forall k :: 0 <= k < |StockHitsUpTo(text, n)| ==>
              var i := SlotOf(StockHitsUpTo(text, n)[k]);
              1 <= i <= n && StockHitsUpTo(text, n)[k] == StockEntry(i) && Contains(text, StockQueries[i - 1])
  {
    if n > 0 {
      StockHitsAreEntries(text, n - 1);
      StockEntrySlot(n);
      var h := StockHitsUpTo(text, n - 1);
      assert forall k :: 0 <= k < |h| ==> StockHitsUpTo(text, n)[k] == h[k];
    }
  }

  /** Stock query `i` is listed exactly when the text mentions it. */
  lemma StockHitsIff(text: string, i: nat)
    requires 1 <= i <= 5
    ensures StockEntry(i) in StockHits(text) <==> Contains(text, StockQueries[i - 1])
  {
    StockHitsAreEntries(text, 5);
    StockEntrySlot(i);
    StockHitsIn(text, 5, i);
  }

  lemma {:induction false} StockHitsIn(text: string, n: nat, i: nat)
    requires 1 <= i <= n <= 5
    ensures Contains(text, StockQueries[i - 1]) ==> StockEntry(i) in StockHitsUpTo(text, n)
  {
    if i < n {
      StockHitsIn(text, n - 1, i);
    }
  }

  lemma StockHitsShaped(text: string)
    ensures AllShaped(StockHits(text))
  {
    StockHitsAreEntries(text, 5);
    var h := StockHits(text);
    forall k | 0 <= k < |h| ensures RowShaped(h[k]) {
      StockEntryTagged(SlotOf(h[k]));
    }
  }

  method CollectStockQueries(text: string) returns (hits: seq<string>)
    ensures hits == StockHits(text)
  {
    hits := [];
    var i := 1;
    while i <= 5
      invariant 1 <= i <= 6
      invariant hits == StockHitsUpTo(text, i - 1)
    {
      if Contains(text, StockQueries[i - 1]) {
        hits := hits + [StockEntry(i)];
      }
      i := i + 1;
    }
  }

  // ---------------------------------------------------------------- the first reason

  /** `1\s+([^0-9\n]+?)(?=\s+2\s+|\n\s*2\s+|Description|\n\n|$)`, case-sensitive. */
  const FirstReasonPattern: Pattern := Pattern([
    Lit("1"), Ws1, Cap(1, Negate(Union(Range('0', '9'), Chars("\n"))), 1, Unbounded, false),
    Ahead([Seq([Ws1, Lit("2"), Ws1]), Seq([Lit("\n"), Ws0, Lit("2"), Ws1]), Lit("Description"), Lit("\n\n"), LineEnd])],
    false, false)

  /** `"1. " + first_reason`, from the section's first match of the pattern. */
  function FirstEntry(m: Match, section: string): string
    requires ValidMatch(m, section)
  {
    RowText(Row("1", CutDescription(Strip(GroupText(m, section, 1)))))
  }

  lemma FirstEntryTagged(m: Match, section: string)
    requires ValidMatch(m, section)
    ensures Tagged(FirstEntry(m, section), 1) && RowShaped(FirstEntry(m, section))
  {
    var x := CutDescription(Strip(GroupText(m, section, 1)));
    assert FirstEntry(m, section) == Label(1) + (" " + x);
    RowTextShaped(Row("1", x));
  }

  /**
   * When there are reasons and none is tagged "1.", the section's reason after a "1" is
   * put in front of them, when the section has one.
   */
  function InsertFirst(rs: seq<string>, section: string): (r: seq<string>)
    ensures r != rs <==> rs != [] && !Present(rs, 1) && Finds(FirstReasonPattern, section)
    ensures r != rs ==> |r| == |rs| + 1 && r[1..] == rs && Tagged(r[0], 1)
  {
    if rs != [] && !Present(rs, 1) then
      var m := Search(FirstReasonPattern, section);
      if m.Some? then
        var e := FirstEntry(m.value, section);
        FirstEntryTagged(m.value, section);
        assert ([e] + rs)[1..] == rs;
        [e] + rs
      else rs
    else rs
  }

  lemma InsertFirstShaped(rs: seq<string>, section: string)
    requires AllShaped(rs)
    ensures AllShaped(InsertFirst(rs, section))
  {
    var r := InsertFirst(rs, section);
    if r != rs {
      FirstEntryTagged(Search(FirstReasonPattern, section).value, section);
      AllShapedAppend([r[0]], rs);
      assert r == [r[0]] + rs;
    }
  }

  // ---------------------------------------------------------------- the Past Medical line

  /** `"1. Past Medical/Surgical History"`, which is stock entry 1. */
  const PastMedicalEntry: string := StockEntry(1)

  predicate MentionsHistory(line: string) { Contains(line, "Past Medical") || Contains(line, "Medical History") }

  /** Some line of the text mentions a medical history. */
  predicate HistoryIn(lines: seq<string>) { exists j :: 0 <= j < |lines| && MentionsHistory(lines[j]) }

  /**
   * When there are still reasons and none is tagged "1.", the stock first query is put in
   * front of them when some line of the text mentions a medical history.
   */
  function InsertPastMedical(rs: seq<string>, text: string): (r: seq<string>)
    ensures r != rs <==> rs != [] && !Present(rs, 1) && HistoryIn(Lines(text))
    ensures r != rs ==> r == [PastMedicalEntry] + rs && Tagged(r[0], 1)
  {
    if rs != [] && !Present(rs, 1) && HistoryIn(Lines(text)) then
      StockEntryTagged(1);
      [PastMedicalEntry] + rs
    else rs
  }

  lemma InsertPastMedicalShaped(rs: seq<string>, text: string)
    requires AllShaped(rs)
    ensures AllShaped(InsertPastMedical(rs, text))
  {
    if InsertPastMedical(rs, text) != rs {
      StockEntryTagged(1);
      AllShapedAppend([PastMedicalEntry], rs);
    }
  }

  /** `for i, line in enumerate(text.split('\n')): if ...: reasons.insert(0, ...); break` */
  method AddPastMedical(rs: seq<string>, text: string) returns (r: seq<string>)
    ensures r == InsertPastMedical(rs, text)
  {
    r := rs;
    if rs == [] || exists k :: 0 <= k < |rs| && Tagged(rs[k], 1) {
      return;
    }
    var lines := Lines(text);
    var i := 0;
    while i < |lines|
      invariant i <= |lines|
      invariant forall j :: 0 <= j < i ==> !MentionsHistory(lines[j])
    {
      if Contains(lines[i], "Past Medical") || Contains(lines[i], "Medical History") {
        r := [PastMedicalEntry] + rs;
        return;
      }
      i := i + 1;
    }
  }

  // ---------------------------------------------------------------- the reasons

  /** The table's reasons; failing those the stock queries; failing those the line scanner's. */
  function FoundReasons(text: string, section: string): seq<string>
  {
    var t := HeaderTable(QueryHeader, section);
    var c := if t == [] then StockHits(text) else t;
    if c == [] then ScanLines(QueryScan, Lines(section)) else c
  }

  /** The `Reason` lines of a query letter, in order. */
  function QueryReasons(text: string): seq<string>
  {
    var section := Section(RemarksPattern, text);
    Reconcile(InsertPastMedical(InsertFirst(FoundReasons(text, section), section), text))
  }

  /** Every reason line of a query letter is written `<digits>. <reason>`. */
  lemma QueryReasonsShaped(text: string)
    ensures AllShaped(QueryReasons(text))
  {
    var section := Section(RemarksPattern, text);
    HeaderTableShaped(QueryHeader, section);
    StockHitsShaped(text);
    ScanLinesShaped(QueryScan, Lines(section));
    var f := FoundReasons(text, section);
    InsertFirstShaped(f, section);
    InsertPastMedicalShaped(InsertFirst(f, section), text);
    ReconcileShaped(InsertPastMedical(InsertFirst(f, section), text));
  }

  /** A query letter has no reasons exactly when the table, the stock queries and the scanner all yield none. */
  lemma QueryReasonsEmpty(text: string)
    ensures var section := Section(RemarksPattern, text);
            QueryReasons(text) == [] <==>
              HeaderTable(QueryHeader, section) == [] && StockHits(text) == [] && ScanLines(QueryScan, Lines(section)) == []
  {
    var section := Section(RemarksPattern, text);
    var f := FoundReasons(text, section);
    var g := InsertFirst(f, section);
    assert g == [] <==> f == [];
    var h := InsertPastMedical(g, text);
    assert h == [] <==> g == [];
  }

  /** The reasons, step by step as `extract_query_letter_fields` computes them. */
  method CollectQueryReasons(text: string) returns (reasons: seq<string>)
    ensures reasons == QueryReasons(text)
  {
    var section := Section(RemarksPattern, text);
    reasons := CollectHeaderTable(QueryHeader, section);
    if reasons == [] {
      reasons := CollectStockQueries(text);
    }
    if reasons == [] {
      reasons := ScanReasonLines(QueryScan, Lines(section));
    }
    reasons := InsertFirst(reasons, section);
    reasons := AddPastMedical(reasons, text);
    reasons := ReconcileReasons(reasons);
  }

  // ---------------------------------------------------------------- the result

  /** The dictionary `extract_query_letter_fields` returns. */
  datatype QueryRecord = QueryRecord(
    letterType: string,
    patientName: Option<string>,
    uhidNumber: Option<string>,
    policyNo: Option<string>,
    policyPeriod: Option<string>,
    admissionDate: Option<string>,
    alNumber: Option<string>,
    reason: Option<string>)

  /** `"\n".join(reasons) if reasons else None` */
  function ReasonText(rs: seq<string>): Option<string>
  {
    if rs == [] then None else Some(Join("\n", rs))
  }

  /** The fields of a query letter. */
  function QueryFields(text: string): QueryRecord
  {
    QueryRecord(
      "Query Letter",
      Stripped(FirstGroup(LetterNamePatterns, text, 1)),
      Stripped(FirstGroup(LetterUhidPatterns, text, 1)),
      Stripped(FirstGroup(LetterPolicyPatterns, text, 1)),
      PolicyPeriodOf(text),
      Stripped(FirstGroup(QueryAdmissionPatterns, text, 1)),
      Stripped(FirstGroup(LetterAlPatterns, text, 1)),
      ReasonText(QueryReasons(text)))
  }

  /** `extract_query_letter_fields(text)`. */
  method ExtractQueryLetterFields(text: string) returns (r: QueryRecord)
    ensures r == QueryFields(text)
  {
    var name := SearchInOrder(LetterNamePatterns, text, 1);
    var uhid := SearchInOrder(LetterUhidPatterns, text, 1);
    var policy := SearchInOrder(LetterPolicyPatterns, text, 1);
    var period := ExtractPolicyPeriod(text);
    var admission := SearchInOrder(QueryAdmissionPatterns, text, 1);
    var al := SearchInOrder(LetterAlPatterns, text, 1);
    var reasons := CollectQueryReasons(text);
    r := QueryRecord("Query Letter", Stripped(name), Stripped(uhid), Stripped(policy), period,
                     Stripped(admission), Stripped(al), ReasonText(reasons));
  }

  /** The dictionary's `"Letter Type"`. */
  lemma QueryFieldsType(text: string)
    ensures QueryFields(text).letterType == "Query Letter"
  {
  }
}
